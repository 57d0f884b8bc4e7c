/** What a job's steps do to the rows once its answer is in is what answering and settling does. */
module Settlement {
  import opened Wrappers
  import opened TaskRows
  import opened CompletionTurn
  import opened DurableProtocol

  /** What the completion turn comes to, read where the job gathers and where its driver ended. */
  function OutcomeOf(w: World, answer: Answer, verdict: Verdict): CompletionOutcome {
    if w.checkpoint != Parked || !Owns(w.calls, answer.task) then CompletionOutcome([], false, "")
    else match Gathered(w.rows, answer, TaskIds(w.calls))
      case None => CompletionOutcome([], true, "")
      case Some(answers) =>
        CompletionOutcome(Delivered(answers), false, if verdict.Raised? then TurnFailure(verdict.error) else "")
  }

  /** The tasks the job closes, in order. */
  function Closing(outcome: CompletionOutcome, fallback: seq<TaskId>): seq<TaskId> {
    if outcome.waiting then [] else if outcome.answered != [] then outcome.answered else fallback
  }

  function ClosedWith(row: Row, error: string): Row {
    if error == "" then row.(status := Complete) else row.(status := Failed, error := error)
  }

  /** The rows with some closed, of the others some resuming, and the rest as they were. */
  ghost predicate RowsWith(before: Rows, after: Rows, closed: seq<TaskId>, error: string, resumed: seq<TaskId>) {
    && after.Keys == before.Keys
    && forall t <- before :: after[t] ==
         if t in closed then ClosedWith(before[t], error)
         else if t in resumed then before[t].(status := Resuming)
         else before[t]
  }

  lemma Resumed(before: Rows, after: Rows, resumed: seq<TaskId>, t: TaskId)
    requires RowsWith(before, after, [], "", resumed)
    ensures RowsWith(before, WithResuming(after, t), [], "", resumed + [t])
  {
  }

  lemma Closed(before: Rows, after: Rows, closed: seq<TaskId>, error: string, resumed: seq<TaskId>, t: TaskId)
    requires RowsWith(before, after, closed, error, resumed)
    ensures RowsWith(before, WithClosed(after, t, error), closed + [t], error, resumed)
  {
  }

  /** `done` and then `todo` are the whole list. */
  ghost predicate Through(all: seq<TaskId>, done: seq<TaskId>, todo: seq<TaskId>) { done + todo == all }

  lemma ThroughNext(all: seq<TaskId>, done: seq<TaskId>, todo: seq<TaskId>)
    requires Through(all, done, todo) && todo != []
    ensures Through(all, done + [todo[0]], todo[1..])
  {
    assert todo == [todo[0]] + todo[1..];
  }

  /** How far the job that gathered in `w` has come in `v`. */
  ghost predicate Onward(w: World, v: World, answer: Answer, fallback: seq<TaskId>) {
    && At(v)
    && match PcOf(v)
       case Gathering(a, f) => v == w && a == answer && f == fallback
       case MarkingResuming(answers, todo, f) =>
         && Delivers(w, answer, answers) && f == fallback
         && exists done :: Through(Delivered(answers), done, todo) && RowsWith(w.rows, v.rows, [], "", done)
       case Driving(answers, f) =>
         Delivers(w, answer, answers) && f == fallback && RowsWith(w.rows, v.rows, [], "", Delivered(answers))
       case Settling(todo, error) =>
         var outcome := OutcomeOf(w, answer, v.verdict);
         && !outcome.waiting && error == outcome.error
         && exists done :: Through(Closing(outcome, fallback), done, todo) && RowsWith(w.rows, v.rows, done, error, outcome.answered)
       case Finishing => SettledBy(w.rows, v.rows, OutcomeOf(w, answer, v.verdict), fallback)
       case _ => false
  }

  /** The turn is opened with `answers`. */
  predicate Delivers(w: World, answer: Answer, answers: seq<Answer>) {
    w.checkpoint == Parked && Owns(w.calls, answer.task) && Gathered(w.rows, answer, TaskIds(w.calls)) == Some(answers)
  }

  lemma GatherGoesOn(w: World, v: World, answer: Answer, fallback: seq<TaskId>)
    requires Onward(w, v, answer, fallback) && Enabled(v, Gather)
    ensures Onward(w, Apply(v, Gather), answer, fallback)
  {
    var after := Apply(v, Gather);
    if PcOf(after).MarkingResuming? {
      assert Through(PcOf(after).todo, [], PcOf(after).todo);
    } else if PcOf(after).Settling? {
      assert Through(fallback, [], fallback);
      assert RowsWith(w.rows, v.rows, [], "", []);
    }
  }

  lemma MarkingGoesOn(w: World, v: World, answer: Answer, fallback: seq<TaskId>)
    requires Onward(w, v, answer, fallback) && Enabled(v, MarkResuming)
    ensures Onward(w, Apply(v, MarkResuming), answer, fallback)
  {
    var pc := PcOf(v);
    var done :| Through(Delivered(pc.answers), done, pc.todo) && RowsWith(w.rows, v.rows, [], "", done);
    ThroughNext(Delivered(pc.answers), done, pc.todo);
    Resumed(w.rows, v.rows, done, pc.todo[0]);
  }

  lemma OpeningGoesOn(w: World, v: World, answer: Answer, fallback: seq<TaskId>)
    requires Onward(w, v, answer, fallback) && Enabled(v, OpenTurn)
    ensures Onward(w, Apply(v, OpenTurn), answer, fallback)
  {
    var pc := PcOf(v);
    var done :| Through(Delivered(pc.answers), done, pc.todo) && RowsWith(w.rows, v.rows, [], "", done);
    assert done == Delivered(pc.answers);
  }

  /** The driver has ended, with the verdict's error. */
  lemma DrivenGoesOn(w: World, v: World, after: World, answers: seq<Answer>, answer: Answer, fallback: seq<TaskId>)
    requires Delivers(w, answer, answers) && RowsWith(w.rows, v.rows, [], "", Delivered(answers)) && after.rows == v.rows
    requires var outcome := OutcomeOf(w, answer, after.verdict);
             after.holder.Job? && after.holder.pc == Some(AfterDriver(answers, fallback, outcome.error))
    ensures Onward(w, after, answer, fallback)
  {
    assert Through(PcOf(after).todo, [], PcOf(after).todo);
    assert RowsWith(w.rows, after.rows, [], PcOf(after).error, Delivered(answers));
  }

  lemma DrivingGoesOn(w: World, v: World, s: Step, answer: Answer, fallback: seq<TaskId>)
    requires Onward(w, v, answer, fallback) && Enabled(v, s) && (s.DriverReturns? || s.DriverRaises?)
    ensures Onward(w, Apply(v, s), answer, fallback)
  {
    DrivenGoesOn(w, v, Apply(v, s), PcOf(v).answers, answer, fallback);
  }

  lemma ClosedGoesOn(w: World, v: World, after: World, answer: Answer, fallback: seq<TaskId>, todo: seq<TaskId>, done: seq<TaskId>)
    requires var outcome := OutcomeOf(w, answer, v.verdict);
             && !outcome.waiting && todo != [] && Through(Closing(outcome, fallback), done, todo)
             && RowsWith(w.rows, v.rows, done, outcome.error, outcome.answered)
             && after.rows == WithClosed(v.rows, todo[0], outcome.error) && after.verdict == v.verdict
             && after.holder.Job? && after.holder.pc == Some(Settling(todo[1..], outcome.error))
    ensures Onward(w, after, answer, fallback)
  {
    var outcome := OutcomeOf(w, answer, v.verdict);
    ThroughNext(Closing(outcome, fallback), done, todo);
    Closed(w.rows, v.rows, done, outcome.error, outcome.answered, todo[0]);
  }

  lemma ClosingGoesOn(w: World, v: World, answer: Answer, fallback: seq<TaskId>)
    requires Onward(w, v, answer, fallback) && Enabled(v, CloseRow)
    ensures Onward(w, Apply(v, CloseRow), answer, fallback)
  {
    var pc, outcome := PcOf(v), OutcomeOf(w, answer, v.verdict);
    var done :| Through(Closing(outcome, fallback), done, pc.todo) && RowsWith(w.rows, v.rows, done, pc.error, outcome.answered);
    ClosedGoesOn(w, v, Apply(v, CloseRow), answer, fallback, pc.todo, done);
  }

  lemma LastClosed(before: Rows, after: Rows, outcome: CompletionOutcome, fallback: seq<TaskId>)
    requires RowsWith(before, after, Closing(outcome, fallback), outcome.error, outcome.answered) && !outcome.waiting
    ensures SettledBy(before, after, outcome, fallback)
  {
  }

  lemma DoneGoesOn(w: World, v: World, answer: Answer, fallback: seq<TaskId>)
    requires Onward(w, v, answer, fallback) && Enabled(v, CloseDone)
    ensures Onward(w, Apply(v, CloseDone), answer, fallback)
  {
    var outcome := OutcomeOf(w, answer, v.verdict);
    var done :| Through(Closing(outcome, fallback), done, []) && RowsWith(w.rows, v.rows, done, outcome.error, outcome.answered);
    assert done == Closing(outcome, fallback);
    LastClosed(w.rows, v.rows, outcome, fallback);
  }

  lemma StepGoesOn(w: World, v: World, s: Step, answer: Answer, fallback: seq<TaskId>)
    requires Onward(w, v, answer, fallback) && Enabled(v, s) && s != Stop && s != Finish
    ensures Onward(w, Apply(v, s), answer, fallback)
  {
    if s == Gather {
      GatherGoesOn(w, v, answer, fallback);
    } else if s == MarkResuming {
      MarkingGoesOn(w, v, answer, fallback);
    } else if s == OpenTurn {
      OpeningGoesOn(w, v, answer, fallback);
    } else if s.DriverReturns? || s.DriverRaises? {
      DrivingGoesOn(w, v, s, answer, fallback);
    } else if s == CloseRow {
      ClosingGoesOn(w, v, answer, fallback);
    } else if s == CloseDone {
      DoneGoesOn(w, v, answer, fallback);
    } else {
      assert s == DriverSaves;
    }
  }

  lemma {:induction false} JobGoesOn(w: World, steps: seq<Step>, v: World)
    requires At(w) && PcOf(w).Gathering? && Run(w, steps) == Some(v)
    requires forall s <- steps :: s != Stop && s != Finish
    ensures Onward(w, v, PcOf(w).answer, PcOf(w).fallback)
  {
    if steps != [] {
      var front, s := steps[..|steps| - 1], steps[|steps| - 1];
      assert s in steps && forall earlier <- front :: earlier in steps;
      JobGoesOn(w, front, Run(w, front).value);
      StepGoesOn(w, Run(w, front).value, s, PcOf(w).answer, PcOf(w).fallback);
    }
  }

  /** The rows a job leaves, from the gathering of its answers to its end, are those that answering and settling
      leaves for the outcome its turn comes to: from the rows it read, or from those with its answers resuming. */
  lemma JobSettlesAsAnswered(w: World, steps: seq<Step>, v: World, marked: Rows, after: Rows)
    requires At(w) && PcOf(w).Gathering? && Run(w, steps) == Some(v) && At(v) && PcOf(v).Finishing?
    requires forall s <- steps :: s != Stop && s != Finish
    requires var outcome := OutcomeOf(w, PcOf(w).answer, v.verdict);
             && (marked == w.rows || RowsWith(w.rows, marked, [], "", outcome.answered))
             && SettledBy(marked, after, outcome, PcOf(w).fallback)
    ensures v.rows == after
  {
    JobGoesOn(w, steps, v);
  }
}
