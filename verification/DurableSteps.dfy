/** Every step of the durable-task protocol keeps its invariant. */
module DurableSteps {
  import opened Wrappers
  import opened TaskRows
  import opened CompletionTurn
  import opened DurableProtocol

  // The kinds of steps.

  predicate WorkerStep(s: Step) {
    s.Begin? || s.MarkRunning? || s.BodyReturns? || s.BodyRaises? || s.MarkFailed? || s.Announce?
  }

  predicate OpeningStep(s: Step) {
    s.Gather? || s.MarkResuming? || s.OpenTurn?
  }

  predicate DriverStep(s: Step) {
    s.DriverSaves? || s.DriverReturns? || s.DriverRaises?
  }

  predicate ClosingStep(s: Step) {
    s.CloseRow? || s.CloseDone? || s.Finish?
  }

  predicate RecoveryStep(s: Step) {
    s.Stop? || s.Sweep? || s.Supersede?
  }

  predicate RunningStep(s: Step) { s.Begin? || s.MarkRunning? || s.BodyRaises? || s.Announce? }

  predicate RecordingStep(s: Step) { s.BodyReturns? || s.MarkFailed? }

  predicate DriverEndStep(s: Step) { s.DriverReturns? || s.DriverRaises? }

  predicate EndingStep(s: Step) { s.CloseDone? || s.Finish? }

  predicate TakeoverStep(s: Step) { s.Sweep? || s.Supersede? }

  // What the completion turn reads, marks and closes.

  lemma {:induction false} DeliveredDistinct(answers: seq<Answer>)
    requires forall i, j | 0 <= i < j < |answers| :: answers[i].task != answers[j].task
    ensures Distinct(Delivered(answers))
  {
    if answers != [] {
      var rest := Delivered(answers[1..]);
      DeliveredDistinct(answers[1..]);
      forall t <- rest ensures t != answers[0].task {
        DeliveredAreSuccesses(answers[1..], t);
      }
      assert forall i | 0 <= i < |rest| :: rest[i] in rest;
    }
  }

  lemma DeliveredTasks(w: World, answers: seq<Answer>)
    requires OwnTasks(w.calls) && Answers(w, answers)
    requires forall t <- w.outcome :: w.outcome[t].task == t
    ensures Distinct(Delivered(answers))
    ensures forall t :: t in Delivered(answers) <==> Owns(w.calls, t) && t in w.outcome && Standing(w, t).Succeeded?
  {
    assert forall i | 0 <= i < |answers| :: answers[i].task == w.calls[i].task;
    DeliveredDistinct(answers);
    forall t ensures t in Delivered(answers) <==> Owns(w.calls, t) && t in w.outcome && Standing(w, t).Succeeded? {
      DeliveredAreSuccesses(answers, t);
      if Owns(w.calls, t) && t in w.outcome && Standing(w, t).Succeeded? {
        var i :| 0 <= i < |w.calls| && w.calls[i].task == t;
        assert answers[i] in answers;
      }
    }
  }

  /** Before the driver ends, a recorded row says what its task answers. */
  lemma RowsBeforeVerdict(w: World, t: TaskId)
    requires Shape(w) && Rowwise(w) && t in w.outcome
    requires w.verdict == NotYet && !w.lateStop && w.checkpoint != Superseded
    ensures AsDurable(t, w.rows[t]) == Standing(w, t)
    ensures Open(w.rows[t]) <==> Standing(w, t).Succeeded?
  {
  }

  lemma DispatchKeeps(w: World)
    requires Inv(w) && Enabled(w, Dispatch)
    ensures Inv(Apply(w, Dispatch))
  {
    var ids := TaskIds(w.calls);
    assert forall i | 0 <= i < w.holder.dispatched :: ids[i] != ids[w.holder.dispatched];
    assert Dispatching(Apply(w, Dispatch));
  }

  lemma ParkKeeps(w: World)
    requires Inv(w) && Enabled(w, Park)
    ensures Inv(Apply(w, Park))
  {
    var v := Apply(w, Park);
    forall t | Owns(w.calls, t) ensures t in w.rows {
      var i :| 0 <= i < |w.calls| && w.calls[i].task == t;
    }
    forall t <- w.rows ensures Owns(w.calls, t) {
      var i :| 0 <= i < |w.calls| && w.calls[i].task == t;
      assert w.calls[i] in w.calls;
    }
    assert w.calls[0].task in v.queued;
    assert Shape(v);
  }

  /** While the step waits, a task answers when its row recorded an outcome, and with what it stands for. */
  lemma AnswersAreOutcomes(w: World, t: TaskId)
    requires Shape(w) && Rowwise(w) && PcOk(w) && Waiting(w) && At(w) && PcOf(w).Gathering? && t in w.rows
    ensures AnswerNow(w.rows, PcOf(w).answer, t) == if t in w.outcome then Some(Standing(w, t)) else None
    ensures t !in w.outcome ==> t in w.queued
  {
    if t in w.outcome {
      RowsBeforeVerdict(w, t);
    }
  }

  lemma GatheredAreOutcomes(w: World)
    requires Shape(w) && Rowwise(w) && PcOk(w) && Waiting(w) && At(w) && PcOf(w).Gathering?
    ensures var g := Gathered(w.rows, PcOf(w).answer, TaskIds(w.calls));
            if g.Some? then Answers(w, g.value) else w.queued != {}
  {
    var answer, ids := PcOf(w).answer, TaskIds(w.calls);
    GatheredInOrder(w.rows, answer, ids);
    forall i | 0 <= i < |w.calls| ensures w.calls[i].task in w.rows {
      assert Owns(w.calls, w.calls[i].task);
    }
    if Gathered(w.rows, answer, ids).Some? {
      var answers := Gathered(w.rows, answer, ids).value;
      forall i | 0 <= i < |w.calls|
        ensures w.calls[i].task in w.outcome && answers[i] == Standing(w, w.calls[i].task)
      {
        assert AnswerNow(w.rows, answer, ids[i]) == Some(answers[i]);
        AnswersAreOutcomes(w, ids[i]);
      }
    } else {
      var i :| 0 <= i < |ids| && AnswerNow(w.rows, answer, ids[i]).None?;
      AnswersAreOutcomes(w, ids[i]);
    }
  }

  lemma MarkingPc(w: World, v: World, answers: seq<Answer>, fallback: seq<TaskId>)
    requires OwnTasks(w.calls) && RowsFit(w) && Waiting(w) && Answers(w, answers)
    requires w.holder.Job? && w.holder.task in w.outcome && w.holder.task in w.rows && FallbackOk(w, fallback)
    requires v == w.(holder := Job(w.holder.task, Some(MarkingResuming(answers, Delivered(answers), fallback))))
    ensures PcOk(v)
  {
    assert forall t <- w.outcome :: w.outcome[t].task == t by { assert forall t <- w.outcome :: RowMatches(w, t); }
    DeliveredTasks(w, answers);
  }

  lemma NotWaitingPc(w: World)
    requires Shape(w) && Phases(w) && PcOk(w) && Enabled(w, Gather) && !Waiting(w)
    ensures PcOk(Apply(w, Gather))
  {
  }

  lemma GatherPc(w: World)
    requires OwnTasks(w.calls) && Shape(w) && Rowwise(w) && PcOk(w) && Enabled(w, Gather)
    ensures PcOk(Apply(w, Gather))
  {
    if Waiting(w) {
      GatheredAreOutcomes(w);
      var v := Apply(w, Gather);
      if PcOf(v).MarkingResuming? {
        MarkingPc(w, v, PcOf(v).answers, PcOf(v).fallback);
      }
    } else {
      NotWaitingPc(w);
    }
  }

  /** Marking a delivered row changes its status and nothing it reports. */
  lemma ResumingRow(w: World)
    requires Shape(w) && Rowwise(w) && PcOk(w) && Enabled(w, MarkResuming)
    ensures var t, v := PcOf(w).todo[0], Apply(w, MarkResuming);
            && t in w.outcome && t !in w.spoiled && w.rows[t].status in {ResultReady, Resuming} && w.outcome[t] == Succeeded(t, w.rows[t].result)
            && v.rows == w.rows[t := w.rows[t].(status := Resuming)]
  {
    var t := PcOf(w).todo[0];
    assert t in PcOf(w).todo;
    RowsBeforeVerdict(w, t);
  }

  /** While the driver runs, the open rows are exactly the delivered ones. */
  lemma DriverOwes(w: World)
    requires OwnTasks(w.calls) && Shape(w) && Rowwise(w) && PcOk(w) && At(w) && PcOf(w).Driving?
    ensures forall t <- w.outcome :: Open(w.rows[t]) <==> t in Delivered(PcOf(w).answers)
    ensures Delivered(PcOf(w).answers) == [] ==> PcOf(w).fallback == []
  {
    DeliveredTasks(w, PcOf(w).answers);
    forall t <- w.outcome ensures Open(w.rows[t]) <==> Standing(w, t).Succeeded? {
      RowsBeforeVerdict(w, t);
    }
  }

  /** The rows the settlement closes are open, and each once. */
  lemma DrivenTodo(w: World)
    requires OwnTasks(w.calls) && Shape(w) && Rowwise(w) && PcOk(w) && At(w) && PcOf(w).Driving?
    ensures var todo := AfterDriver(PcOf(w).answers, PcOf(w).fallback, "").todo;
            Distinct(todo) && (forall t <- todo :: t in w.outcome && t in w.rows && Open(w.rows[t])) &&
            (forall t <- w.outcome | Open(w.rows[t]) :: t in todo)
  {
    DriverOwes(w);
    DeliveredTasks(w, PcOf(w).answers);
  }

  lemma DriverPc(w: World, v: World, todo: seq<TaskId>, error: string)
    requires w.holder.Job? && w.holder.task in w.rows && w.holder.task in w.outcome
    requires w.rows == v.rows && w.outcome == v.outcome && v.verdict != NotYet
    requires Distinct(todo) && forall t <- todo :: t in w.outcome && t in w.rows && Open(w.rows[t])
    requires v.holder == Job(w.holder.task, Some(Settling(todo, error)))
    requires if error == "" then v.verdict.Returned? else v.verdict.Raised? && error == TurnFailure(v.verdict.error)
    ensures PcOk(v)
  {
  }

  lemma DriverAccounts(w: World, v: World, todo: seq<TaskId>, error: string)
    requires Accounted(w) && w.holder.Job? && v.holder == Job(w.holder.task, Some(Settling(todo, error)))
    requires w.rows == v.rows && w.outcome == v.outcome && v.abandoned == w.abandoned && v.spoiled == w.spoiled
    requires v.lateStop == w.lateStop && v.checkpoint == w.checkpoint && forall t <- w.outcome :: t in w.rows
    requires forall t <- w.outcome | Open(w.rows[t]) :: t in todo
    requires !w.lateStop && w.checkpoint != Superseded
    ensures Accounted(v)
  {
  }

  /** The row closed next is a success's that is still open, and is not closed again. */
  lemma ClosingTask(w: World)
    requires Shape(w) && Rowwise(w) && PcOk(w) && Enabled(w, CloseRow)
    ensures var t, todo := PcOf(w).todo[0], PcOf(w).todo;
            && t in w.outcome && t in w.rows && Open(w.rows[t]) && w.outcome[t] == Succeeded(t, w.rows[t].result)
            && t !in todo[1..] && (forall u <- todo :: u == t || u in todo[1..])
  {
    var todo := PcOf(w).todo;
    assert todo[0] in todo && todo == [todo[0]] + todo[1..];
    assert RowMatches(w, todo[0]);
  }

  /** What closing it changes. */
  predicate ClosesRow(w: World, v: World, t: TaskId, error: string) {
    && t in w.rows
    && v == w.(rows := w.rows[t := if error != "" then w.rows[t].(status := TaskRows.Failed, error := error) else w.rows[t].(status := Complete)],
               holder := v.holder)
  }

  lemma ClosedRow(w: World)
    requires At(w) && PcOf(w).Settling? && PcOf(w).todo != [] && PcOf(w).todo[0] in w.rows
    ensures var pc, v := PcOf(w), Apply(w, CloseRow);
            ClosesRow(w, v, pc.todo[0], pc.error) && v.holder == Job(w.holder.task, Some(Settling(pc.todo[1..], pc.error)))
  {
  }

  // The parts of the invariant that say little of rows, over the steps of each kind.

  lemma RunningShape(w: World, s: Step)
    requires Shape(w) && PcOk(w) && Enabled(w, s) && RunningStep(s)
    ensures Shape(Apply(w, s))
  {
  }

  lemma RecordingShape(w: World, s: Step)
    requires Shape(w) && PcOk(w) && Enabled(w, s) && RecordingStep(s)
    ensures Shape(Apply(w, s))
  {
  }

  lemma OpeningShape(w: World, s: Step)
    requires Shape(w) && Rowwise(w) && PcOk(w) && Enabled(w, s) && OpeningStep(s)
    ensures Shape(Apply(w, s))
  {
  }

  lemma DriverShape(w: World, s: Step)
    requires Shape(w) && Rowwise(w) && PcOk(w) && Enabled(w, s) && DriverStep(s)
    ensures Shape(Apply(w, s))
  {
  }

  lemma ClosedShape(w: World, v: World, t: TaskId, error: string)
    requires Shape(w) && ClosesRow(w, v, t, error) && t in w.outcome
    requires w.holder.Job? && v.holder.Job? && v.holder.task == w.holder.task
    ensures Shape(v)
  {
  }

  lemma EndingShape(w: World, s: Step)
    requires Shape(w) && PcOk(w) && Enabled(w, s) && EndingStep(s)
    ensures Shape(Apply(w, s))
  {
  }

  lemma ClosingShape(w: World, s: Step)
    requires Shape(w) && Rowwise(w) && PcOk(w) && Enabled(w, s) && ClosingStep(s)
    ensures Shape(Apply(w, s))
  {
    if s == CloseRow {
      ClosingTask(w);
      ClosedRow(w);
      ClosedShape(w, Apply(w, CloseRow), PcOf(w).todo[0], PcOf(w).error);
    } else {
      EndingShape(w, s);
    }
  }

  lemma RecoveryShape(w: World, s: Step)
    requires Shape(w) && Rowwise(w) && PcOk(w) && Enabled(w, s) && RecoveryStep(s)
    ensures Shape(Apply(w, s))
  {
  }

  /** A step that opens no turn and ends none. */
  lemma SameOpenings(w: World, v: World)
    requires Openings(w) && v.calls == w.calls && v.turns == w.turns && v.spoiled == w.spoiled
    requires v.interrupted == w.interrupted && v.reopened == w.reopened && (Opened(v) <==> Opened(w))
    requires forall t <- w.outcome :: t in v.outcome && v.outcome[t] == w.outcome[t]
    ensures Openings(v)
  {
    forall k | 0 <= k < |v.turns| ensures Spoke(v, v.turns[k]) { assert Spoke(w, w.turns[k]); }
  }

  lemma WorkerOpenings(w: World, s: Step)
    requires PcOk(w) && Openings(w) && Enabled(w, s) && WorkerStep(s)
    ensures Openings(Apply(w, s))
  {
    SameOpenings(w, Apply(w, s));
  }

  lemma TurnOpenedOpenings(w: World)
    requires PcOk(w) && Openings(w) && Enabled(w, OpenTurn)
    ensures Openings(Apply(w, OpenTurn))
  {
  }

  lemma GatheringOpenings(w: World, s: Step)
    requires PcOk(w) && Openings(w) && Enabled(w, s) && (s.Gather? || s.MarkResuming?)
    ensures Openings(Apply(w, s))
  {
    SameOpenings(w, Apply(w, s));
  }

  lemma SavedOpenings(w: World)
    requires PcOk(w) && Openings(w) && Enabled(w, DriverSaves)
    ensures Openings(Apply(w, DriverSaves))
  {
    SameOpenings(w, Apply(w, DriverSaves));
  }

  lemma DrivenOpenings(w: World, s: Step)
    requires PcOk(w) && Openings(w) && Enabled(w, s) && DriverEndStep(s)
    ensures Openings(Apply(w, s))
  {
    SameOpenings(w, Apply(w, s));
  }

  lemma ClosingOpenings(w: World, s: Step)
    requires PcOk(w) && Openings(w) && Enabled(w, s) && ClosingStep(s)
    ensures Openings(Apply(w, s))
  {
    SameOpenings(w, Apply(w, s));
  }

  lemma TakeoverOpenings(w: World, s: Step)
    requires PcOk(w) && Openings(w) && Enabled(w, s) && TakeoverStep(s)
    ensures Openings(Apply(w, s))
  {
    SameOpenings(w, Apply(w, s));
  }

  /** A row that has failed stays the one it is, so what a task answers changes once at most. */
  lemma StandingAfterStop(w: World, t: TaskId)
    requires Shape(w) && Rowwise(w) && Enabled(w, Stop) && t in w.outcome
    ensures t in w.spoiled ==> Standing(Apply(w, Stop), t) == Standing(w, t)
    ensures !StopsAfterRaise(w) ==> Standing(Apply(w, Stop), t) == Standing(w, t)
  {
  }

  lemma HaltedSpoke(w: World, v: World)
    requires Openings(w) && v.calls == w.calls && v.outcome == w.outcome && v.turns == w.turns
    requires forall t <- w.outcome | t in w.spoiled :: Standing(v, t) == Standing(w, t)
    ensures forall k | 0 <= k < |v.turns| :: Spoke(v, v.turns[k])
    ensures v.turns != [] ==> FirstAnswers(v, v.turns[0])
  {
    forall k | 0 <= k < |v.turns| ensures Spoke(v, v.turns[k]) { assert Spoke(w, w.turns[k]); }
    if v.turns != [] { assert FirstAnswers(w, w.turns[0]); }
  }

  lemma HaltedAnswers(w: World, v: World)
    requires Openings(w) && Opened(w) && v.calls == w.calls && v.outcome == w.outcome && v.turns == w.turns
    requires forall t <- w.outcome :: Standing(v, t) == Standing(w, t)
    ensures Answers(v, v.turns[|v.turns| - 1])
  {
  }

  lemma HaltedCount(w: World)
    requires Openings(w) && PcOk(w) && Enabled(w, Stop)
    ensures var v := Apply(w, Stop);
            && |v.turns| == v.interrupted + v.reopened + (if Opened(v) then 1 else 0)
            && (v.turns == [] ==> v.spoiled == map[])
            && (Opened(v) ==> Opened(w) && !StopsAfterRaise(w))
  {
  }

  lemma HaltingOpenings(w: World)
    requires Shape(w) && Rowwise(w) && PcOk(w) && Openings(w) && Enabled(w, Stop)
    ensures Openings(Apply(w, Stop))
  {
    var v := Apply(w, Stop);
    HaltedCount(w);
    forall t <- w.outcome ensures t in w.spoiled || !StopsAfterRaise(w) ==> Standing(v, t) == Standing(w, t) {
      StandingAfterStop(w, t);
    }
    HaltedSpoke(w, v);
    if Opened(v) { HaltedAnswers(w, v); }
  }

  lemma WorkerTold(w: World, s: Step)
    requires PcOk(w) && Told(w) && Enabled(w, s) && WorkerStep(s)
    ensures Told(Apply(w, s))
  {
  }

  lemma OpeningTold(w: World, s: Step)
    requires PcOk(w) && Told(w) && Enabled(w, s) && OpeningStep(s)
    ensures Told(Apply(w, s))
  {
  }

  lemma DriverTold(w: World, s: Step)
    requires PcOk(w) && Told(w) && Enabled(w, s) && DriverStep(s)
    ensures Told(Apply(w, s))
  {
  }

  lemma ClosingTold(w: World, s: Step)
    requires PcOk(w) && Told(w) && Enabled(w, s) && ClosingStep(s)
    ensures Told(Apply(w, s))
  {
  }

  lemma HaltingTold(w: World)
    requires Shape(w) && PcOk(w) && Told(w) && Enabled(w, Stop)
    ensures Told(Apply(w, Stop))
  {
  }

  lemma TakeoverTold(w: World, s: Step)
    requires Shape(w) && Rowwise(w) && PcOk(w) && Told(w) && Enabled(w, s) && TakeoverStep(s)
    ensures Told(Apply(w, s))
  {
  }

  lemma LiveGathered(w: World)
    requires Shape(w) && Rowwise(w) && PcOk(w) && Live(w) && Enabled(w, Gather)
    ensures Live(Apply(w, Gather))
  {
    if Waiting(w) {
      GatheredAreOutcomes(w);
    }
  }

  lemma LiveUnderWay(w: World, s: Step)
    requires Shape(w) && PcOk(w) && Live(w) && Enabled(w, s) && (WorkerStep(s) || s.MarkResuming? || s.OpenTurn?)
    ensures Live(Apply(w, s))
  {
  }

  lemma DriverLive(w: World, s: Step)
    requires PcOk(w) && Enabled(w, s) && DriverStep(s)
    ensures Live(Apply(w, s))
  {
  }

  lemma ClosingLive(w: World, s: Step)
    requires PcOk(w) && Live(w) && Enabled(w, s) && ClosingStep(s)
    ensures Live(Apply(w, s))
  {
  }

  lemma RecoveryLive(w: World, s: Step)
    requires Phases(w) && Live(w) && Accounted(w) && Enabled(w, s) && RecoveryStep(s)
    ensures Live(Apply(w, s))
  {
  }

  // Running: the worker's steps that record nothing.

  lemma RunningRowsFit(w: World, s: Step)
    requires Shape(w) && Rowwise(w) && PcOk(w) && Enabled(w, s) && RunningStep(s)
    ensures RowsFit(Apply(w, s))
  {
    if s != MarkRunning {
      SameRowsFit(w, Apply(w, s));
    }
  }

  lemma RunningPhases(w: World, s: Step)
    requires Shape(w) && Rowwise(w) && PcOk(w) && Enabled(w, s) && RunningStep(s)
    ensures Phases(Apply(w, s))
  {
  }

  lemma WaitingAccounted(v: World)
    requires Waiting(v) && v.abandoned == {}
    ensures Accounted(v)
  {
  }

  /** A step that records nothing and still owes what was owed keeps the account of the open rows. */
  lemma OwedStill(w: World, v: World)
    requires Accounted(w) && v.outcome == w.outcome && v.spoiled == w.spoiled && v.abandoned == w.abandoned
    requires v.checkpoint == w.checkpoint && v.verdict == w.verdict && v.lateStop == w.lateStop
    requires forall t <- w.outcome :: t in w.rows && t in v.rows && v.rows[t] == w.rows[t]
    requires forall t <- w.outcome | Open(w.rows[t]) && Owes(w, t) :: Owes(v, t)
    requires forall t <- w.abandoned :: !Owes(v, t) && !Current(v, t)
    ensures Accounted(v)
  {
  }

  lemma MarkedRunningAccounted(w: World)
    requires Shape(w) && PcOk(w) && Accounted(w) && Enabled(w, MarkRunning)
    ensures Accounted(Apply(w, MarkRunning))
  {
    OwedStill(w, Apply(w, MarkRunning));
  }

  lemma RunningAccounted(w: World, s: Step)
    requires Shape(w) && PcOk(w) && Accounted(w) && Enabled(w, s) && RunningStep(s)
    ensures Accounted(Apply(w, s))
  {
    if s == MarkRunning {
      MarkedRunningAccounted(w);
    } else {
      assert Apply(w, s).rows == w.rows;
      OwedStill(w, Apply(w, s));
    }
  }

  lemma RunningPcOk(w: World, s: Step)
    requires OwnTasks(w.calls) && Shape(w) && Rowwise(w) && PcOk(w) && Accounted(w) && Enabled(w, s) && RunningStep(s)
    ensures PcOk(Apply(w, s))
  {
  }

  // Recording: a row records its outcome.

  lemma RecordingRowwise(w: World, s: Step)
    requires Shape(w) && Rowwise(w) && PcOk(w) && Enabled(w, s) && RecordingStep(s)
    ensures Rowwise(Apply(w, s))
  {
  }

  lemma RecordedAccounted(w: World, v: World, t: TaskId)
    requires Accounted(w) && v.spoiled == w.spoiled && v.abandoned == w.abandoned
    requires v.checkpoint == w.checkpoint && v.verdict == w.verdict && v.lateStop == w.lateStop
    requires t in w.rows && t !in w.outcome && t in v.outcome && v.outcome == w.outcome[t := v.outcome[t]]
    requires t in v.rows && v.rows == w.rows[t := v.rows[t]] && (forall u :: Owes(w, u) <==> u == t) && (forall u :: Owes(v, u) <==> u == t)
    requires Current(w, t) && Current(v, t)
    ensures Accounted(v)
  {
  }

  lemma RecordingAccounted(w: World, s: Step)
    requires OwnTasks(w.calls) && Shape(w) && Rowwise(w) && Live(w) && PcOk(w) && Accounted(w) && Enabled(w, s) && RecordingStep(s)
    ensures Accounted(Apply(w, s))
  {
    RecordedAccounted(w, Apply(w, s), w.holder.task);
  }

  lemma RecordingPcOk(w: World, s: Step)
    requires OwnTasks(w.calls) && Shape(w) && Rowwise(w) && PcOk(w) && Accounted(w) && Enabled(w, s) && RecordingStep(s)
    ensures PcOk(Apply(w, s))
  {
  }

  // Opening: the turn is gathered, marked and opened.

  /** The fields a row's account rests on. */
  predicate SameRecord(w: World, v: World) {
    && v.rows == w.rows && v.outcome == w.outcome && v.spoiled == w.spoiled
    && v.verdict == w.verdict && v.lateStop == w.lateStop && v.checkpoint == w.checkpoint
  }

  lemma SameRowsFit(w: World, v: World)
    requires RowsFit(w) && SameRecord(w, v)
    ensures RowsFit(v)
  {
    forall t <- v.outcome ensures t in v.rows && RowMatches(v, t) { assert RowMatches(w, t); }
  }

  lemma GatherRowwise(w: World)
    requires Rowwise(w) && Enabled(w, Gather)
    ensures Rowwise(Apply(w, Gather))
  {
    SameRowsFit(w, Apply(w, Gather));
  }

  lemma TurnOpenedRowwise(w: World)
    requires Rowwise(w) && Enabled(w, OpenTurn)
    ensures Rowwise(Apply(w, OpenTurn))
  {
    SameRowsFit(w, Apply(w, OpenTurn));
  }

  lemma MarkedRowsFit(w: World, v: World, t: TaskId)
    requires RowsFit(w) && t in w.outcome && t !in w.spoiled && w.rows[t].status in {ResultReady, Resuming}
    requires v == w.(holder := v.holder, rows := w.rows[t := w.rows[t].(status := Resuming)])
    ensures RowsFit(v)
  {
    forall u <- v.outcome ensures u in v.rows && RowMatches(v, u) { assert RowMatches(w, u); }
  }

  lemma ResumingRowsFit(w: World)
    requires Shape(w) && Rowwise(w) && PcOk(w) && Enabled(w, MarkResuming)
    ensures RowsFit(Apply(w, MarkResuming))
  {
    ResumingRow(w);
    MarkedRowsFit(w, Apply(w, MarkResuming), PcOf(w).todo[0]);
  }

  lemma ResumingPhases(w: World)
    requires Rowwise(w) && PcOk(w) && Enabled(w, MarkResuming)
    ensures Phases(Apply(w, MarkResuming))
  {
  }

  lemma ResumingRowwise(w: World)
    requires Shape(w) && Rowwise(w) && PcOk(w) && Enabled(w, MarkResuming)
    ensures Rowwise(Apply(w, MarkResuming))
  {
    ResumingRowsFit(w);
    ResumingPhases(w);
  }

  lemma SettledAccounted(w: World)
    requires Shape(w) && Phases(w) && PcOk(w) && Accounted(w) && Enabled(w, Gather) && !Waiting(w)
    ensures Accounted(Apply(w, Gather))
  {
    OwedStill(w, Apply(w, Gather));
  }

  lemma OpeningAccounted(w: World, s: Step)
    requires Shape(w) && Rowwise(w) && Live(w) && PcOk(w) && Accounted(w) && Enabled(w, s) && OpeningStep(s)
    ensures Accounted(Apply(w, s))
  {
    if Waiting(w) {
      WaitingAccounted(Apply(w, s));
    } else {
      assert s == Gather;
      SettledAccounted(w);
    }
  }

  lemma MarkedPc(w: World, v: World, answers: seq<Answer>, todo: seq<TaskId>, fallback: seq<TaskId>)
    requires PcOk(w) && todo != [] && todo[0] in w.rows && Open(w.rows[todo[0]])
    requires w.holder.Job? && w.holder == Job(w.holder.task, Some(MarkingResuming(answers, todo, fallback)))
    requires v == w.(holder := Job(w.holder.task, Some(MarkingResuming(answers, todo[1..], fallback))),
                     rows := w.rows[todo[0] := w.rows[todo[0]].(status := Resuming)])
    requires w.holder.task in w.outcome
    ensures PcOk(v)
  {
    assert forall t <- todo[1..] :: t in todo;
    assert forall t <- w.outcome :: Standing(v, t) == Standing(w, t);
  }

  lemma ResumingPc(w: World)
    requires Shape(w) && Rowwise(w) && PcOk(w) && Enabled(w, MarkResuming)
    ensures PcOk(Apply(w, MarkResuming))
  {
    ResumingRow(w);
    MarkedPc(w, Apply(w, MarkResuming), PcOf(w).answers, PcOf(w).todo, PcOf(w).fallback);
  }

  lemma OpenedPc(w: World, v: World, answers: seq<Answer>, fallback: seq<TaskId>)
    requires PcOk(w) && Waiting(w) && !w.lateStop && Answers(w, answers)
    requires w.holder.Job? && w.holder.task in w.outcome && w.holder.task in w.rows && FallbackOk(w, fallback)
    requires v == w.(holder := Job(w.holder.task, Some(Driving(answers, fallback))), turns := v.turns)
    ensures PcOk(v)
  {
  }

  lemma TurnOpenedPc(w: World)
    requires Shape(w) && Rowwise(w) && PcOk(w) && Enabled(w, OpenTurn)
    ensures PcOk(Apply(w, OpenTurn))
  {
    OpenedPc(w, Apply(w, OpenTurn), PcOf(w).answers, PcOf(w).fallback);
  }

  // Saving: the driver's turn saves the checkpoint.

  lemma SavingRowwise(w: World)
    requires Shape(w) && Rowwise(w) && PcOk(w) && Enabled(w, DriverSaves)
    ensures Rowwise(Apply(w, DriverSaves))
  {
  }

  lemma SavingAccounted(w: World)
    requires OwnTasks(w.calls) && Shape(w) && Rowwise(w) && Live(w) && PcOk(w) && Accounted(w) && Enabled(w, DriverSaves)
    ensures Accounted(Apply(w, DriverSaves))
  {
    DriverOwes(w);
  }

  lemma SavingPcOk(w: World)
    requires OwnTasks(w.calls) && Shape(w) && Rowwise(w) && PcOk(w) && Accounted(w) && Enabled(w, DriverSaves)
    ensures PcOk(Apply(w, DriverSaves))
  {
  }

  // Driver: the host's driver ends.

  /** The driver's verdict closes no row. */
  lemma VerdictRowsFit(w: World, v: World)
    requires RowsFit(w) && v == w.(verdict := v.verdict, holder := v.holder) && w.verdict == NotYet
    ensures RowsFit(v)
  {
    forall t <- v.outcome ensures t in v.rows && RowMatches(v, t) { assert RowMatches(w, t); }
  }

  lemma DriverRowwise(w: World, s: Step)
    requires Shape(w) && Rowwise(w) && PcOk(w) && Enabled(w, s) && DriverEndStep(s)
    ensures Rowwise(Apply(w, s))
  {
    VerdictRowsFit(w, Apply(w, s));
  }

  lemma DriverAccounted(w: World, s: Step)
    requires OwnTasks(w.calls) && Shape(w) && Rowwise(w) && Live(w) && PcOk(w) && Accounted(w) && Enabled(w, s) && DriverEndStep(s)
    ensures Accounted(Apply(w, s))
  {
    DrivenTodo(w);
    var v := Apply(w, s);
    DriverAccounts(w, v, PcOf(v).todo, PcOf(v).error);
  }

  lemma DriverPcOk(w: World, s: Step)
    requires OwnTasks(w.calls) && Shape(w) && Rowwise(w) && PcOk(w) && Accounted(w) && Enabled(w, s) && DriverEndStep(s)
    ensures PcOk(Apply(w, s))
  {
    DrivenTodo(w);
    var v := Apply(w, s);
    DriverPc(w, v, PcOf(v).todo, PcOf(v).error);
  }

  // Row: a row is closed.

  lemma ClosedRowsFit(w: World, v: World, t: TaskId, error: string)
    requires RowsFit(w) && ClosesRow(w, v, t, error) && t in w.outcome && Open(w.rows[t])
    requires if error == "" then w.lateStop || w.verdict.Returned? || w.checkpoint == Superseded
             else w.verdict.Raised? && error == TurnFailure(w.verdict.error)
    ensures RowsFit(v)
  {
    forall u <- v.outcome ensures u in v.rows && RowMatches(v, u) { assert RowMatches(w, u); }
  }

  lemma RowRowwise(w: World)
    requires Shape(w) && Rowwise(w) && PcOk(w) && Enabled(w, CloseRow)
    ensures Rowwise(Apply(w, CloseRow))
  {
    ClosingTask(w);
    ClosedRow(w);
    ClosedRowsFit(w, Apply(w, CloseRow), PcOf(w).todo[0], PcOf(w).error);
  }

  lemma ClosedAccounted(w: World, v: World, todo: seq<TaskId>, error: string)
    requires Accounted(w) && !Waiting(w) && todo != []
    requires w.holder.Job? && w.holder == Job(w.holder.task, Some(Settling(todo, error))) && v.holder == Job(w.holder.task, Some(Settling(todo[1..], error)))
    requires ClosesRow(w, v, todo[0], error) && todo[0] !in todo[1..] && forall u <- todo :: u == todo[0] || u in todo[1..]
    ensures Accounted(v)
  {
    assert todo[0] in todo && Owes(w, todo[0]);
  }

  lemma RowAccounted(w: World)
    requires OwnTasks(w.calls) && Shape(w) && Rowwise(w) && Live(w) && PcOk(w) && Accounted(w) && Enabled(w, CloseRow)
    ensures Accounted(Apply(w, CloseRow))
  {
    ClosingTask(w);
    ClosedRow(w);
    ClosedAccounted(w, Apply(w, CloseRow), PcOf(w).todo, PcOf(w).error);
  }

  lemma ClosedPcOk(w: World, v: World, todo: seq<TaskId>, error: string)
    requires PcOk(w) && todo != []
    requires w.holder.Job? && w.holder == Job(w.holder.task, Some(Settling(todo, error))) && v.holder == Job(w.holder.task, Some(Settling(todo[1..], error)))
    requires ClosesRow(w, v, todo[0], error) && todo[0] !in todo[1..] && todo[0] in w.outcome
    ensures PcOk(v)
  {
    assert forall i | 0 <= i < |todo[1..]| :: todo[1..][i] == todo[i + 1];
    assert Distinct(todo[1..]);
    forall u <- todo[1..] ensures u in v.outcome && u in v.rows && Open(v.rows[u]) {
      assert u in todo && u != todo[0];
    }
    if v.verdict == NotYet {
      forall u <- todo[1..] ensures u == w.holder.task { assert u in todo; }
    }
  }

  lemma RowPcOk(w: World)
    requires OwnTasks(w.calls) && Shape(w) && Rowwise(w) && PcOk(w) && Accounted(w) && Enabled(w, CloseRow)
    ensures PcOk(Apply(w, CloseRow))
  {
    ClosingTask(w);
    ClosedRow(w);
    ClosedPcOk(w, Apply(w, CloseRow), PcOf(w).todo, PcOf(w).error);
  }

  // Ending: the job ends.

  lemma EndingPhases(w: World, s: Step)
    requires Phases(w) && PcOk(w) && Enabled(w, s) && EndingStep(s)
    ensures Phases(Apply(w, s))
  {
  }

  lemma EndingRowsFit(w: World, s: Step)
    requires RowsFit(w) && Enabled(w, s) && EndingStep(s)
    ensures RowsFit(Apply(w, s))
  {
    SameRowsFit(w, Apply(w, s));
  }

  lemma DoneAccounted(w: World)
    requires Shape(w) && Accounted(w) && Enabled(w, CloseDone)
    ensures Accounted(Apply(w, CloseDone))
  {
    OwedStill(w, Apply(w, CloseDone));
  }

  lemma FinishedAccounted(w: World)
    requires Shape(w) && Accounted(w) && Enabled(w, Finish)
    ensures Accounted(Apply(w, Finish))
  {
    OwedStill(w, Apply(w, Finish));
  }

  lemma EndingPcOk(w: World, s: Step)
    requires OwnTasks(w.calls) && Shape(w) && Rowwise(w) && PcOk(w) && Accounted(w) && Enabled(w, s) && EndingStep(s)
    ensures PcOk(Apply(w, s))
  {
  }

  // Halting: a worker stops.

  lemma HaltingRowwise(w: World)
    requires Shape(w) && Rowwise(w) && PcOk(w) && Enabled(w, Stop)
    ensures Rowwise(Apply(w, Stop))
  {
  }

  /** What a late stop leaves: the rows it owed beside its own are abandoned. */
  lemma HaltedAccounted(w: World, v: World)
    requires Accounted(w) && !Waiting(w) && w.holder.Job? && v.holder == Job(w.holder.task, None)
    requires v.rows == w.rows && v.outcome == w.outcome && v.lateStop && forall t <- w.outcome :: t in w.rows
    requires v.abandoned == w.abandoned + set u | u in w.rows && u != w.holder.task && Owes(w, u)
    requires forall u <- w.rows | Owes(w, u) :: u in w.outcome && Open(w.rows[u])
    ensures Accounted(v)
  {
    forall t <- v.outcome | Open(v.rows[t]) ensures t in v.abandoned || Owes(v, t) {
      assert t in w.abandoned || Owes(w, t);
    }
  }

  lemma DrivingOwes(w: World)
    requires OwnTasks(w.calls) && Shape(w) && Rowwise(w) && PcOk(w) && At(w) && PcOf(w).Driving?
    ensures forall u <- w.rows | Owes(w, u) :: u in w.outcome && Open(w.rows[u])
  {
    forall u <- w.rows | Owes(w, u) ensures u in w.outcome && Open(w.rows[u]) {
      RowsBeforeVerdict(w, u);
    }
  }

  lemma EarlyHaltAccounted(w: World)
    requires OwnTasks(w.calls) && Shape(w) && Rowwise(w) && PcOk(w) && Accounted(w) && Enabled(w, Stop) && !StopsLate(w)
    ensures Accounted(Apply(w, Stop))
  {
  }

  lemma HaltingAccounted(w: World)
    requires OwnTasks(w.calls) && Shape(w) && Rowwise(w) && PcOk(w) && Accounted(w) && Enabled(w, Stop)
    ensures Accounted(Apply(w, Stop))
  {
    if StopsLate(w) {
      if PcOf(w).Driving? { DrivingOwes(w); }
      HaltedAccounted(w, Apply(w, Stop));
    } else {
      EarlyHaltAccounted(w);
    }
  }

  lemma HaltingPcOk(w: World)
    requires OwnTasks(w.calls) && Shape(w) && Rowwise(w) && PcOk(w) && Accounted(w) && Enabled(w, Stop)
    ensures PcOk(Apply(w, Stop))
  {
  }

  // Recovery: a sweep takes over, a user turn supersedes.

  lemma SweptRowwise(w: World, s: Step)
    requires Rowwise(w) && Enabled(w, s) && s.Sweep?
    ensures Rowwise(Apply(w, s))
  {
    SameRowsFit(w, Apply(w, s));
  }

  lemma SupersededRowwise(w: World)
    requires Shape(w) && Rowwise(w) && Enabled(w, Supersede)
    ensures Rowwise(Apply(w, Supersede))
  {
  }

  lemma SweptAccounted(w: World, s: Step)
    requires Shape(w) && PcOk(w) && Accounted(w) && Enabled(w, s) && s.Sweep?
    ensures Accounted(Apply(w, s))
  {
    OwedStill(w, Apply(w, s));
  }

  lemma SupersededAccounted(w: World)
    requires Shape(w) && Rowwise(w) && Accounted(w) && Enabled(w, Supersede)
    ensures Accounted(Apply(w, Supersede))
  {
  }

  lemma SweptPcOk(w: World, s: Step)
    requires Shape(w) && Rowwise(w) && PcOk(w) && Enabled(w, s) && s.Sweep?
    ensures PcOk(Apply(w, s))
  {
  }

  lemma SupersededPcOk(w: World)
    requires Enabled(w, Supersede)
    ensures PcOk(Apply(w, Supersede))
  {
  }

  lemma ShapeKept(w: World, s: Step)
    requires Protocol(w) && Enabled(w, s)
    ensures Shape(Apply(w, s))
  {
    if RunningStep(s) {
      RunningShape(w, s);
    } else if RecordingStep(s) {
      RecordingShape(w, s);
    } else if OpeningStep(s) {
      OpeningShape(w, s);
    } else if DriverStep(s) {
      DriverShape(w, s);
    } else if ClosingStep(s) {
      ClosingShape(w, s);
    } else {
      RecoveryShape(w, s);
    }
  }

  lemma OpeningsKept(w: World, s: Step)
    requires Protocol(w) && Enabled(w, s)
    ensures Openings(Apply(w, s))
  {
    if WorkerStep(s) {
      WorkerOpenings(w, s);
    } else if s == OpenTurn {
      TurnOpenedOpenings(w);
    } else if OpeningStep(s) {
      GatheringOpenings(w, s);
    } else if s == DriverSaves {
      SavedOpenings(w);
    } else if DriverEndStep(s) {
      DrivenOpenings(w, s);
    } else if ClosingStep(s) {
      ClosingOpenings(w, s);
    } else if s == Stop {
      HaltingOpenings(w);
    } else {
      TakeoverOpenings(w, s);
    }
  }

  lemma ToldKept(w: World, s: Step)
    requires Protocol(w) && Enabled(w, s)
    ensures Told(Apply(w, s))
  {
    if WorkerStep(s) {
      WorkerTold(w, s);
    } else if OpeningStep(s) {
      OpeningTold(w, s);
    } else if DriverStep(s) {
      DriverTold(w, s);
    } else if ClosingStep(s) {
      ClosingTold(w, s);
    } else if s == Stop {
      HaltingTold(w);
    } else {
      TakeoverTold(w, s);
    }
  }

  lemma LiveKept(w: World, s: Step)
    requires Protocol(w) && Enabled(w, s)
    ensures Live(Apply(w, s))
  {
    if s == Gather {
      LiveGathered(w);
    } else if WorkerStep(s) || OpeningStep(s) {
      LiveUnderWay(w, s);
    } else if DriverStep(s) {
      DriverLive(w, s);
    } else if ClosingStep(s) {
      ClosingLive(w, s);
    } else {
      RecoveryLive(w, s);
    }
  }

  lemma LightPartsKept(w: World, s: Step)
    requires Protocol(w) && Enabled(w, s)
    ensures var v := Apply(w, s); Shape(v) && Live(v) && Openings(v) && Told(v)
  {
    ShapeKept(w, s);
    LiveKept(w, s);
    OpeningsKept(w, s);
    ToldKept(w, s);
  }

  lemma WorkerRowParts(w: World, s: Step)
    requires Protocol(w) && Enabled(w, s) && WorkerStep(s)
    ensures var v := Apply(w, s); Rowwise(v) && Accounted(v) && PcOk(v)
  {
    if RunningStep(s) {
      RunningRowsFit(w, s);
      RunningPhases(w, s);
      RunningAccounted(w, s);
      RunningPcOk(w, s);
    } else {
      RecordingRowwise(w, s);
      RecordingAccounted(w, s);
      RecordingPcOk(w, s);
    }
  }

  lemma OpeningRowParts(w: World, s: Step)
    requires Protocol(w) && Enabled(w, s) && OpeningStep(s)
    ensures var v := Apply(w, s); Rowwise(v) && Accounted(v) && PcOk(v)
  {
    OpeningAccounted(w, s);
    if s == Gather {
      GatherRowwise(w);
      GatherPc(w);
    } else if s == OpenTurn {
      TurnOpenedRowwise(w);
      TurnOpenedPc(w);
    } else {
      assert s == MarkResuming;
      ResumingRowwise(w);
      ResumingPc(w);
    }
  }

  lemma DriverRowParts(w: World, s: Step)
    requires Protocol(w) && Enabled(w, s) && DriverStep(s)
    ensures var v := Apply(w, s); Rowwise(v) && Accounted(v) && PcOk(v)
  {
    if s.DriverSaves? {
      SavingRowwise(w);
      SavingAccounted(w);
      SavingPcOk(w);
    } else {
      DriverRowwise(w, s);
      DriverAccounted(w, s);
      DriverPcOk(w, s);
    }
  }

  lemma ClosingRowParts(w: World, s: Step)
    requires Protocol(w) && Enabled(w, s) && ClosingStep(s)
    ensures var v := Apply(w, s); Rowwise(v) && Accounted(v) && PcOk(v)
  {
    if s.CloseRow? {
      RowRowwise(w);
      RowAccounted(w);
      RowPcOk(w);
    } else {
      EndingRowsFit(w, s);
      EndingPhases(w, s);
      if s == CloseDone { DoneAccounted(w); } else { FinishedAccounted(w); }
      EndingPcOk(w, s);
    }
  }

  lemma TakeoverRowParts(w: World, s: Step)
    requires Protocol(w) && Enabled(w, s) && TakeoverStep(s)
    ensures var v := Apply(w, s); Rowwise(v) && Accounted(v) && PcOk(v)
  {
    if s.Sweep? {
      SweptRowwise(w, s);
      SweptAccounted(w, s);
      SweptPcOk(w, s);
    } else {
      assert s == Supersede;
      SupersededRowwise(w);
      SupersededAccounted(w);
      SupersededPcOk(w);
    }
  }

  lemma RecoveryRowParts(w: World, s: Step)
    requires Protocol(w) && Enabled(w, s) && RecoveryStep(s)
    ensures var v := Apply(w, s); Rowwise(v) && Accounted(v) && PcOk(v)
  {
    if s.Stop? {
      HaltingRowwise(w);
      HaltingAccounted(w);
      HaltingPcOk(w);
    } else {
      TakeoverRowParts(w, s);
    }
  }

  lemma RowPartsKept(w: World, s: Step)
    requires Protocol(w) && Enabled(w, s)
    ensures var v := Apply(w, s); Rowwise(v) && Accounted(v) && PcOk(v)
  {
    if WorkerStep(s) {
      WorkerRowParts(w, s);
    } else if OpeningStep(s) {
      OpeningRowParts(w, s);
    } else if DriverStep(s) {
      DriverRowParts(w, s);
    } else if ClosingStep(s) {
      ClosingRowParts(w, s);
    } else {
      RecoveryRowParts(w, s);
    }
  }

  lemma ParkedStepKeeps(w: World, s: Step)
    requires Protocol(w) && Enabled(w, s)
    ensures Protocol(Apply(w, s))
  {
    LightPartsKept(w, s);
    RowPartsKept(w, s);
  }

  lemma StepKeeps(w: World, s: Step)
    requires Inv(w) && Enabled(w, s)
    ensures Inv(Apply(w, s))
  {
    if s.Dispatch? {
      DispatchKeeps(w);
    } else if s.Park? {
      ParkKeeps(w);
    } else {
      ParkedStepKeeps(w, s);
    }
  }
}
