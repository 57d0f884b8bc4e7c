/** What every run of the durable-task protocol promises. */
module DurableRuns {
  import opened Wrappers
  import opened TaskRows
  import opened CompletionTurn
  import opened DurableProtocol
  import opened DurableSteps

  lemma {:induction false} RunKeeps(start: World, steps: seq<Step>)
    requires Initial(start) && Run(start, steps).Some?
    ensures Inv(Run(start, steps).value)
  {
    if steps == [] {
      assert Dispatching(start);
    } else {
      RunKeeps(start, steps[..|steps| - 1]);
      StepKeeps(Run(start, steps[..|steps| - 1]).value, steps[|steps| - 1]);
    }
  }

  // What every run keeps.

  predicate Quiescent(w: World) { w.holder.Free? && w.queued == {} }

  /** The row a task ends with, from what it recorded, which turn failed it and how the driver ended. */
  function FinalRow(w: World, t: TaskId): Row
    requires t in w.outcome && w.verdict != NotYet
  {
    match w.outcome[t]
    case Fell(_, error) => Row(Failed, "", error)
    case Succeeded(_, result) =>
      if t in w.spoiled then Row(Failed, result, w.spoiled[t])
      else if w.verdict.Returned? then Row(Complete, result, "")
      else Row(Failed, result, TurnFailure(w.verdict.error))
  }

  /** Every opened turn answers every parked call in call order, the first with what the tasks recorded and
      each later one with that or with the failure an earlier turn closed the task's row with. A turn is
      opened again only after a stop inside the driver, or after it raised and left the step parked. */
  lemma OpenedTurnsAnswerTheStep(start: World, steps: seq<Step>, w: World)
    requires Initial(start) && Run(start, steps) == Some(w)
    ensures |w.turns| <= w.interrupted + w.reopened + 1
    ensures w.turns != [] ==> FirstAnswers(w, w.turns[0])
    ensures forall k | 0 <= k < |w.turns| :: Spoke(w, w.turns[k])
    ensures forall k, i | 0 <= k < |w.turns| && 0 <= i < |w.calls| ::
              && |w.turns[k]| == |w.calls| && w.turns[k][i].task == w.calls[i].task
              && (w.turns[k][i].Succeeded? ==> w.turns[k][i].task in w.announced)
  {
    RunKeeps(start, steps);
    ResultsAnnouncedFirst(start, steps);
    forall k, i | 0 <= k < |w.turns| && 0 <= i < |w.calls|
      ensures |w.turns[k]| == |w.calls| && w.turns[k][i].task == w.calls[i].task
      ensures w.turns[k][i].Succeeded? ==> w.turns[k][i].task in w.announced
    {
      assert Spoke(w, w.turns[k]);
      assert RowMatches(w, w.calls[i].task);
    }
  }

  /** At rest the last turn says what the tasks answer, so every turn of the run said what they recorded
      exactly when no row a raised turn had closed was found by a stop. */
  lemma TurnsRepeatExactlyWhenUnspoiled(start: World, steps: seq<Step>, w: World)
    requires Initial(start) && Run(start, steps) == Some(w) && Quiescent(w) && w.checkpoint != Superseded
    ensures w.turns != [] && Answers(w, w.turns[|w.turns| - 1])
    ensures (forall k | 0 <= k < |w.turns| :: FirstAnswers(w, w.turns[k])) <==> w.spoiled == map[]
  {
    RunKeeps(start, steps);
    RestingTurns(w);
    if w.spoiled != map[] {
      SpoiledTurnDiffers(w, w.turns[|w.turns| - 1]);
    } else {
      forall k | 0 <= k < |w.turns| ensures FirstAnswers(w, w.turns[k]) { assert Spoke(w, w.turns[k]); }
    }
  }

  lemma RestingTurns(w: World)
    requires Live(w) && Openings(w) && Quiescent(w) && w.checkpoint in {Parked, Answered}
    ensures Opened(w) && w.turns != [] && Answers(w, w.turns[|w.turns| - 1])
    ensures forall k | 0 <= k < |w.turns| :: Spoke(w, w.turns[k])
  {
  }

  lemma SpoiledTurnDiffers(w: World, last: seq<Answer>)
    requires Shape(w) && RowsFit(w) && Answers(w, last) && w.spoiled != map[]
    ensures !FirstAnswers(w, last)
  {
    var t :| t in w.spoiled;
    assert RowMatches(w, t) && Owns(w.calls, t);
    var i :| 0 <= i < |w.calls| && w.calls[i].task == t;
    assert last[i] == Fell(t, w.spoiled[t]) && w.outcome[t].Succeeded?;
  }

  /** A row of a task the turn answered as a success, already failed. */
  ghost predicate ClosedUnderTurn(w: World, t: TaskId) {
    t in w.outcome && t in w.rows && Standing(w, t).Succeeded? && w.rows[t].status.Failed?
  }

  lemma FailedRowsAre(w: World)
    requires Shape(w) && RowsFit(w)
    ensures forall t :: t in FailedRows(w) <==> t in w.spoiled || ClosedUnderTurn(w, t)
    ensures forall t <- w.spoiled :: FailedRows(w)[t] == w.spoiled[t]
    ensures forall t | ClosedUnderTurn(w, t) :: t !in w.spoiled
  {
    forall t <- w.outcome ensures t in w.rows && RowMatches(w, t) { }
  }

  lemma StopSpoilsExactly(w: World)
    requires Shape(w) && RowsFit(w)
    ensures FailedRows(w) != w.spoiled <==> exists t <- w.outcome :: ClosedUnderTurn(w, t)
  {
    FailedRowsAre(w);
    if exists t <- w.outcome :: ClosedUnderTurn(w, t) {
      var t :| t in w.outcome && ClosedUnderTurn(w, t);
      assert t in FailedRows(w) && t !in w.spoiled;
    } else {
      assert FailedRows(w).Keys == w.spoiled.Keys;
    }
  }

  lemma OnlyStopsSpoil(w: World, s: Step)
    requires Enabled(w, s)
    ensures Apply(w, s).spoiled == if s.Stop? && StopsAfterRaise(w) then FailedRows(w) else w.spoiled
  {
  }

  /** Exactly one step spoils a row: a stop, once the driver raised and left the step parked, that finds a row
      of a task the turn answered as a success already failed. */
  lemma SpoilsExactlyWhenClosedAfterRaise(w: World, s: Step)
    requires Inv(w) && Enabled(w, s)
    ensures Apply(w, s).spoiled != w.spoiled <==>
            s.Stop? && StopsAfterRaise(w) && exists t <- w.outcome :: ClosedUnderTurn(w, t)
  {
    OnlyStopsSpoil(w, s);
    if Protocol(w) {
      StopSpoilsExactly(w);
    }
  }

  /** Once a turn is open every task has recorded its outcome, and every result is announced. */
  ghost predicate Spoken(w: World) {
    w.turns != [] ==> forall t <- w.outcome :: w.outcome[t].Succeeded? ==> t in w.announced
  }

  lemma OpenedAfterAllRecorded(w: World)
    requires Shape(w) && Openings(w) && w.turns != []
    ensures forall t <- w.rows :: t in w.outcome
  {
    assert FirstAnswers(w, w.turns[0]);
  }

  lemma OutcomesKept(w: World, s: Step)
    requires Enabled(w, s) && !RecordingStep(s)
    ensures Apply(w, s).outcome == w.outcome
  {
  }

  lemma AnnouncedKept(w: World, s: Step)
    requires Enabled(w, s)
    ensures w.announced <= Apply(w, s).announced
    ensures Apply(w, s).turns == w.turns || s == OpenTurn
  {
  }

  lemma OpeningIsSpoken(w: World)
    requires PcOk(w) && Told(w) && Enabled(w, OpenTurn)
    ensures Spoken(Apply(w, OpenTurn))
  {
  }

  lemma RecordsOnce(w: World, s: Step)
    requires PcOk(w) && Enabled(w, s) && RecordingStep(s)
    ensures w.holder.task in w.rows && w.holder.task !in w.outcome
  {
  }

  lemma SpokenKept(w: World, s: Step)
    requires Protocol(w) && Enabled(w, s) && Spoken(w)
    ensures Spoken(Apply(w, s))
  {
    AnnouncedKept(w, s);
    if s == OpenTurn {
      OpeningIsSpoken(w);
    } else if RecordingStep(s) {
      RecordsOnce(w, s);
      if w.turns != [] { OpenedAfterAllRecorded(w); }
    } else {
      OutcomesKept(w, s);
    }
  }

  lemma {:induction false} ResultsAnnouncedFirst(start: World, steps: seq<Step>)
    requires Initial(start) && Run(start, steps).Some?
    ensures Spoken(Run(start, steps).value)
  {
    if steps != [] {
      var front := steps[..|steps| - 1];
      RunKeeps(start, front);
      ResultsAnnouncedFirst(start, front);
      if Protocol(Run(start, front).value) {
        SpokenKept(Run(start, front).value, steps[|steps| - 1]);
      }
    }
  }

  lemma AtRest(w: World)
    requires Protocol(w) && Quiescent(w)
    ensures forall t <- w.rows :: t in w.outcome && RowMatches(w, t)
    ensures forall c <- w.calls :: c.task in w.rows
  {
    forall c <- w.calls ensures c.task in w.rows { assert Owns(w.calls, c.task); }
  }

  lemma RestingRow(w: World, t: TaskId)
    requires Live(w) && Accounted(w) && Quiescent(w) && w.checkpoint != Unsaved
    requires t in w.rows && t in w.outcome && RowMatches(w, t)
    ensures w.rows[t].status in {Complete, Failed} <==> t !in w.abandoned
  {
  }

  lemma RestingCount(w: World)
    requires Live(w) && Openings(w) && Quiescent(w) && w.checkpoint in {Parked, Answered}
    ensures |w.turns| == w.interrupted + w.reopened + 1
  {
  }

  /** When nothing is left to run, a row is closed exactly when it was not abandoned, and rows are
      abandoned only by a late stop or by a user turn that supersedes the parked step. */
  lemma RowsCloseUnlessAbandoned(start: World, steps: seq<Step>, w: World)
    requires Initial(start) && Run(start, steps) == Some(w) && Quiescent(w)
    ensures forall c <- w.calls :: c.task in w.rows
    ensures forall t <- w.rows :: w.rows[t].status in {Complete, Failed} <==> t !in w.abandoned
    ensures w.abandoned != {} ==> w.lateStop || w.checkpoint == Superseded
    ensures w.checkpoint != Superseded ==> |w.turns| == w.interrupted + w.reopened + 1
  {
    RunKeeps(start, steps);
    AtRest(w);
    forall t <- w.rows ensures w.rows[t].status in {Complete, Failed} <==> t !in w.abandoned {
      RestingRow(w, t);
    }
    if w.checkpoint != Superseded { RestingCount(w); }
  }

  /** With no late stop and no superseding turn, every row ends as its recorded outcome and the driver's
      verdict say, or with the failure of the turn that closed it before the step was opened again. */
  lemma RowsEndAsRecorded(start: World, steps: seq<Step>, w: World)
    requires Initial(start) && Run(start, steps) == Some(w) && Quiescent(w)
    requires !w.lateStop && w.checkpoint != Superseded
    ensures w.verdict != NotYet
    ensures forall t <- w.rows :: t in w.outcome && w.rows[t] == FinalRow(w, t)
    ensures |w.turns| == w.interrupted + w.reopened + 1
  {
    RunKeeps(start, steps);
    RowsCloseUnlessAbandoned(start, steps, w);
    forall t <- w.rows ensures t in w.outcome && w.rows[t] == FinalRow(w, t) {
      assert t in w.outcome && RowMatches(w, t);
    }
  }

  /** Crash recovery: of two runs whose tasks recorded the same outcomes and whose driver ended the same way,
      whatever stops and sweeps each had, the answers delivered last are the same exactly when the same rows
      were spoiled; then the rows are the same too, and with none spoiled every turn of both runs is. */
  lemma RecoveredRunsAgree(start: World, steps: seq<Step>, w: World, others: seq<Step>, v: World)
    requires Initial(start)
    requires Run(start, steps) == Some(w) && Quiescent(w) && !w.lateStop && w.checkpoint != Superseded
    requires Run(start, others) == Some(v) && Quiescent(v) && !v.lateStop && v.checkpoint != Superseded
    requires w.outcome == v.outcome && w.verdict == v.verdict
    ensures w.turns != [] && v.turns != []
    ensures w.spoiled == v.spoiled <==> w.turns[|w.turns| - 1] == v.turns[|v.turns| - 1]
    ensures w.spoiled == v.spoiled ==> w.rows == v.rows
    ensures w.spoiled == v.spoiled == map[] ==> forall a <- w.turns, b <- v.turns :: a == b
  {
    CallsNeverChange(start, steps);
    CallsNeverChange(start, others);
    TurnsRepeatExactlyWhenUnspoiled(start, steps, w);
    TurnsRepeatExactlyWhenUnspoiled(start, others, v);
    RunKeeps(start, steps);
    RunKeeps(start, others);
    SpoiledFromAnswers(w, v, w.turns[|w.turns| - 1], v.turns[|v.turns| - 1]);
    if w.spoiled == v.spoiled {
      RowsEndAsRecorded(start, steps, w);
      RowsEndAsRecorded(start, others, v);
      SameRows(w, v);
    }
    if w.spoiled == v.spoiled == map[] {
      SameTurns(w, v);
    }
  }

  lemma SpoiledFromAnswers(w: World, v: World, a: seq<Answer>, b: seq<Answer>)
    requires Shape(w) && Rowwise(w) && Shape(v) && Rowwise(v) && w.calls == v.calls && w.outcome == v.outcome
    requires Answers(w, a) && Answers(v, b)
    ensures w.spoiled == v.spoiled <==> a == b
  {
    if a == b {
      forall t ensures t in w.spoiled <==> t in v.spoiled {
        SpoiledTask(w, v, a, t);
        SpoiledTask(v, w, a, t);
      }
      forall t <- w.spoiled ensures w.spoiled[t] == v.spoiled[t] { SpoiledTask(w, v, a, t); }
    }
  }

  lemma SpoiledTask(w: World, v: World, a: seq<Answer>, t: TaskId)
    requires Shape(w) && Rowwise(w) && Shape(v) && Rowwise(v) && w.calls == v.calls && w.outcome == v.outcome
    requires Answers(w, a) && Answers(v, a)
    ensures t in w.spoiled ==> t in v.spoiled && w.spoiled[t] == v.spoiled[t]
  {
    if t in w.spoiled {
      assert RowMatches(w, t) && Owns(w.calls, t);
      var i :| 0 <= i < |w.calls| && w.calls[i].task == t;
      assert a[i] == Standing(w, t) == Standing(v, t);
    }
  }

  lemma SameRows(w: World, v: World)
    requires Shape(w) && Shape(v) && w.calls == v.calls
    requires w.outcome == v.outcome && w.verdict == v.verdict != NotYet && w.spoiled == v.spoiled
    requires forall t <- w.rows :: t in w.outcome && w.rows[t] == FinalRow(w, t)
    requires forall t <- v.rows :: t in v.outcome && v.rows[t] == FinalRow(v, t)
    ensures w.rows == v.rows
  {
    assert w.rows.Keys == v.rows.Keys;
  }

  lemma SameTurns(w: World, v: World)
    requires w.calls == v.calls && w.outcome == v.outcome
    requires forall k | 0 <= k < |w.turns| :: FirstAnswers(w, w.turns[k])
    requires forall k | 0 <= k < |v.turns| :: FirstAnswers(v, v.turns[k])
    ensures forall a <- w.turns, b <- v.turns :: a == b
  {
    forall a <- w.turns, b <- v.turns ensures a == b {
      assert FirstAnswers(w, a) && FirstAnswers(v, b);
    }
  }

  lemma CallsKept(w: World, s: Step)
    requires Enabled(w, s)
    ensures Apply(w, s).calls == w.calls
  {
  }

  lemma {:induction false} CallsNeverChange(start: World, steps: seq<Step>)
    requires Run(start, steps).Some?
    ensures Run(start, steps).value.calls == start.calls
  {
    if steps != [] {
      CallsNeverChange(start, steps[..|steps| - 1]);
      CallsKept(Run(start, steps[..|steps| - 1]).value, steps[|steps| - 1]);
    }
  }

  lemma CutRow(w: World, t: TaskId)
    requires Told(w) && w.holder.Free? && t in w.cut && t in w.rows
    requires t in w.outcome ==> RowMatches(w, t)
    ensures t in w.outcome && w.outcome[t].Fell? && w.rows[t] == Row(Failed, "", w.outcome[t].error)
  {
  }

  lemma CutTasksAreCalls(w: World)
    requires Protocol(w)
    ensures forall t <- w.cut :: t in w.rows && (t in w.outcome ==> w.outcome[t].Fell?)
  {
  }

  /** A task whose holder stopped before its row recorded anything is answered as failed. */
  lemma CutTasksFail(start: World, steps: seq<Step>, w: World)
    requires Initial(start) && Run(start, steps) == Some(w)
    ensures forall t <- w.cut :: t in w.outcome ==> w.outcome[t].Fell?
    ensures Quiescent(w) ==> forall t <- w.cut :: t in w.outcome && t in w.rows && w.rows[t] == Row(Failed, "", w.outcome[t].error)
  {
    RunKeeps(start, steps);
    if Protocol(w) {
      CutTasksAreCalls(w);
      if Quiescent(w) {
        AtRest(w);
        forall t <- w.cut ensures t in w.outcome && t in w.rows && w.rows[t] == Row(Failed, "", w.outcome[t].error) {
          CutRow(w, t);
        }
      }
    }
  }

  /** What a task first records is never replaced. */
  lemma OutcomesAreFinal(w: World, s: Step)
    requires Inv(w) && Enabled(w, s)
    ensures forall t <- w.outcome :: t in Apply(w, s).outcome && Apply(w, s).outcome[t] == w.outcome[t]
  {
    if RecordingStep(s) {
      RecordsOnce(w, s);
      RecordsOwnOutcome(w, s);
    } else {
      OutcomesKept(w, s);
    }
  }

  lemma RecordsOwnOutcome(w: World, s: Step)
    requires Enabled(w, s) && RecordingStep(s)
    ensures forall t <- w.outcome | t != w.holder.task :: t in Apply(w, s).outcome && Apply(w, s).outcome[t] == w.outcome[t]
  {
  }

  predicate WritesRow(s: Step) { s.Dispatch? || s.MarkRunning? || RecordingStep(s) || s.MarkResuming? || s.CloseRow? }

  lemma RowsKept(w: World, s: Step)
    requires Enabled(w, s) && !WritesRow(s)
    ensures Apply(w, s).rows == w.rows
  {
  }

  lemma WorkersKeepClosed(w: World, s: Step, t: TaskId)
    requires PcOk(w) && Enabled(w, s) && (s.MarkRunning? || RecordingStep(s)) && t in w.rows && !Open(w.rows[t])
    ensures t in Apply(w, s).rows && Apply(w, s).rows[t] == w.rows[t]
  {
  }

  lemma ResumingKeepsClosed(w: World, t: TaskId)
    requires Shape(w) && Rowwise(w) && PcOk(w) && Enabled(w, MarkResuming) && t in w.rows && !Open(w.rows[t])
    ensures t in Apply(w, MarkResuming).rows && Apply(w, MarkResuming).rows[t] == w.rows[t]
  {
    ResumingRow(w);
  }

  lemma ClosingKeepsClosed(w: World, t: TaskId)
    requires Shape(w) && Rowwise(w) && PcOk(w) && Enabled(w, CloseRow) && t in w.rows && !Open(w.rows[t])
    ensures t in Apply(w, CloseRow).rows && Apply(w, CloseRow).rows[t] == w.rows[t]
  {
    ClosingTask(w);
    ClosedRow(w);
  }

  lemma ParkedClosedRowsAreFinal(w: World, s: Step, t: TaskId)
    requires Shape(w) && Rowwise(w) && PcOk(w) && Enabled(w, s)
    requires t in w.rows && w.rows[t].status in {Complete, Failed}
    ensures t in Apply(w, s).rows && Apply(w, s).rows[t] == w.rows[t]
  {
    if !WritesRow(s) {
      RowsKept(w, s);
    } else if s == MarkResuming {
      ResumingKeepsClosed(w, t);
    } else if s == CloseRow {
      ClosingKeepsClosed(w, t);
    } else {
      WorkersKeepClosed(w, s, t);
    }
  }

  /** A failed row is never marked complete, and a completed row never fails. */
  lemma ClosedRowsAreFinal(w: World, s: Step)
    requires Inv(w) && Enabled(w, s)
    ensures forall t <- w.rows | w.rows[t].status in {Complete, Failed} ::
              t in Apply(w, s).rows && Apply(w, s).rows[t] == w.rows[t]
  {
    forall t <- w.rows | w.rows[t].status in {Complete, Failed}
      ensures t in Apply(w, s).rows && Apply(w, s).rows[t] == w.rows[t]
    {
      if !Dispatching(w) {
        ParkedClosedRowsAreFinal(w, s, t);
      }
    }
  }

  lemma {:induction false} ClosedRowsStayClosed(start: World, before: seq<Step>, after: seq<Step>, t: TaskId)
    requires Initial(start) && Run(start, before).Some? && Run(start, before + after).Some?
    requires var v := Run(start, before).value; t in v.rows && v.rows[t].status in {Complete, Failed}
    ensures var v, w := Run(start, before).value, Run(start, before + after).value; t in w.rows && w.rows[t] == v.rows[t]
  {
    if after == [] {
      assert before + after == before;
    } else {
      var all, front := before + after, after[..|after| - 1];
      assert all[..|all| - 1] == before + front;
      ClosedRowsStayClosed(start, before, front, t);
      RunKeeps(start, before + front);
      ClosedRowsAreFinal(Run(start, before + front).value, all[|all| - 1]);
    }
  }

  // Every state but a quiescent one can go on, and going on ends.

  predicate Forward(s: Step) { !s.Stop? && !s.Supersede? }

  function PcRank(pc: Option<Pc>): nat {
    match pc
    case None => 9
    case Some(Start) => 8
    case Some(Body) => 7
    case Some(Failing(_)) => 6
    case Some(Announcing(_, _)) => 5
    case Some(Gathering(_, _)) => 4
    case Some(MarkingResuming(_, _, _)) => 3
    case Some(Driving(_, _)) => 2
    case Some(Settling(_, _)) => 1
    case Some(Finishing) => 0
  }

  function JobsLeft(w: World): nat {
    match w.holder
    case ChatTurn(dispatched) => 3 * |w.calls| + 1 - (if dispatched <= |w.calls| then dispatched else 0)
    case Free => 2 * |w.queued|
    case Job(_, _) => 2 * |w.queued| + 1
  }

  function PcLeft(w: World): nat {
    if w.holder.Job? then PcRank(w.holder.pc) else 0
  }

  function TodoLeft(w: World): nat {
    if !At(w) then 0
    else match PcOf(w)
      case MarkingResuming(_, todo, _) => |todo|
      case Settling(todo, _) => |todo|
      case Driving(_, _) => if w.checkpoint == Parked then 1 else 0
      case _ => 0
  }

  /** The step the holder of a job takes next. */
  function NextOf(w: World): Step
    requires At(w)
  {
    match PcOf(w)
    case Start => MarkRunning
    case Body => BodyReturns("")
    case Failing(_) => MarkFailed
    case Announcing(_, _) => Announce
    case Gathering(_, _) => Gather
    case MarkingResuming(_, todo, _) => if todo == [] then OpenTurn else MarkResuming
    case Driving(_, _) => if w.checkpoint == Parked then DriverSaves else DriverReturns
    case Settling(todo, _) => if todo == [] then CloseDone else CloseRow
    case Finishing => Finish
  }

  lemma HolderGoesOn(w: World)
    requires At(w) && (PcOf(w).Driving? ==> w.checkpoint in {Parked, Answered})
    ensures Forward(NextOf(w)) && Enabled(w, NextOf(w))
  {
  }

  /** Until the protocol is quiescent some step other than a stop is enabled, and it leaves less to do. */
  lemma CanGoOn(w: World) returns (s: Step)
    requires Inv(w) && !Quiescent(w)
    ensures Forward(s) && Enabled(w, s)
  {
    match w.holder {
      case ChatTurn(k) => s := if k < |w.calls| then Dispatch else Park;
      case Free => var t :| t in w.queued; s := Begin(t);
      case Job(_, None) => s := Sweep("the worker running this task stopped");
      case Job(_, Some(_)) =>
        HolderGoesOn(w);
        s := NextOf(w);
    }
  }

  /** Only stops and superseding turns can keep the protocol from coming to rest. */
  lemma ForwardStepsRunOut(w: World, s: Step)
    requires Enabled(w, s) && Forward(s) && (w.holder.ChatTurn? ==> Dispatching(w))
    ensures LessLeft(w, Apply(w, s))
  {
    if s == Park {
      QueuedAtMost(w.calls, w.queued);
    } else if WorkerStep(s) {
      WorkerStepsRunOut(w, s);
    } else if OpeningStep(s) {
      OpeningStepsRunOut(w, s);
    } else if s != Dispatch {
      LateStepsRunOut(w, s);
    }
  }

  ghost predicate LessLeft(w: World, v: World) {
    || JobsLeft(v) < JobsLeft(w)
    || (JobsLeft(v) == JobsLeft(w) && PcLeft(v) < PcLeft(w))
    || (JobsLeft(v) == JobsLeft(w) && PcLeft(v) == PcLeft(w) && TodoLeft(v) < TodoLeft(w))
  }

  lemma WorkerStepsRunOut(w: World, s: Step)
    requires Enabled(w, s) && WorkerStep(s)
    ensures LessLeft(w, Apply(w, s))
  {
  }

  lemma OpeningStepsRunOut(w: World, s: Step)
    requires Enabled(w, s) && OpeningStep(s)
    ensures LessLeft(w, Apply(w, s))
  {
  }

  lemma LateStepsRunOut(w: World, s: Step)
    requires Enabled(w, s) && (DriverStep(s) || ClosingStep(s) || s.Sweep?)
    ensures LessLeft(w, Apply(w, s))
  {
  }

  lemma {:induction false} QueuedAtMost(calls: seq<DurableCall>, queued: set<TaskId>)
    requires forall t <- queued :: Owns(calls, t)
    ensures |queued| <= |calls|
  {
    if calls == [] {
      assert queued == {};
    } else {
      var t := calls[0].task;
      forall u <- queued - {t} ensures Owns(calls[1..], u) {
        var c :| c in calls && c.task == u;
        assert c in calls[1..];
      }
      QueuedAtMost(calls[1..], queued - {t});
      assert |queued| <= |queued - {t}| + 1;
    }
  }
}
