/** The two windows a stop must not fall in: between the saved checkpoint and the closed rows, and between a
    raise that left the step parked and the end of its job. */
module LateStops {
  import opened Wrappers
  import opened TaskRows
  import opened CompletionTurn
  import opened DurableProtocol
  import opened DurableRuns

  // Two calls are parked, and both tasks report.

  lemma Then(start: World, steps: seq<Step>, w: World, s: Step) returns (longer: seq<Step>, v: World)
    requires Run(start, steps) == Some(w) && Enabled(w, s)
    ensures longer == steps + [s] && v == Apply(w, s) && Run(start, longer) == Some(v)
  {
    longer, v := steps + [s], Apply(w, s);
    assert longer[..|longer| - 1] == steps;
  }

  const TWO_CALLS := [DurableCall("first", 0), DurableCall("second", 1)]

  const TWO_PARKED := World(TWO_CALLS, map[], {}, ChatTurn(0), Unsaved, [], map[], NotYet, {}, {}, 0, 0, map[], false, {})

  lemma Dispatched() returns (steps: seq<Step>, w: World)
    ensures Run(TWO_PARKED, steps) == Some(w)
    ensures w == TWO_PARKED.(rows := map[0 := FRESH_ROW, 1 := FRESH_ROW], queued := {0, 1}, holder := ChatTurn(2))
  {
    steps, w := [], TWO_PARKED;
    steps, w := Then(TWO_PARKED, steps, w, Dispatch);
    steps, w := Then(TWO_PARKED, steps, w, Dispatch);
  }

  /** Both calls are parked and nothing was lost so far. */
  predicate BothParked(w: World) {
    w.calls == TWO_CALLS && w.checkpoint == Parked && w.verdict == NotYet && w.abandoned == {} && !w.lateStop &&
    w.spoiled == map[] && w.reopened == 0 && w.interrupted == 0
  }

  lemma FirstRuns() returns (steps: seq<Step>, w: World)
    ensures Run(TWO_PARKED, steps) == Some(w) && BothParked(w) && w.turns == []
    ensures w.holder == Job(0, Some(Body)) && w.queued == {1}
    ensures w.rows == map[0 := FRESH_ROW.(status := Running), 1 := FRESH_ROW] && w.outcome == map[]
  {
    steps, w := Dispatched();
    steps, w := Then(TWO_PARKED, steps, w, Park);
    steps, w := Then(TWO_PARKED, steps, w, Begin(0));
    steps, w := Then(TWO_PARKED, steps, w, MarkRunning);
  }

  const ONE_READY: Rows := map[0 := Row(ResultReady, "x", ""), 1 := FRESH_ROW]
  const BOTH_READY: Rows := map[0 := Row(ResultReady, "x", ""), 1 := Row(ResultReady, "y", "")]
  const BOTH_RESUMING: Rows := map[0 := Row(Resuming, "x", ""), 1 := Row(Resuming, "y", "")]
  const BOTH_OUTCOMES: map<TaskId, Answer> := map[0 := Succeeded(0, "x"), 1 := Succeeded(1, "y")]

  lemma FirstRecords() returns (steps: seq<Step>, w: World)
    ensures Run(TWO_PARKED, steps) == Some(w) && BothParked(w) && w.turns == []
    ensures w.holder == Job(0, Some(Gathering(Succeeded(0, "x"), [0]))) && w.queued == {1}
    ensures w.rows == ONE_READY && w.outcome == map[0 := Succeeded(0, "x")]
  {
    steps, w := FirstRuns();
    steps, w := Then(TWO_PARKED, steps, w, BodyReturns("x"));
    steps, w := Then(TWO_PARKED, steps, w, Announce);
  }

  lemma OneIsMissing()
    ensures Gathered(ONE_READY, Succeeded(0, "x"), TaskIds(TWO_CALLS)) == None && Owns(TWO_CALLS, 0)
  {
    assert TWO_CALLS[0] in TWO_CALLS;
    assert TaskIds(TWO_CALLS)[1] in TaskIds(TWO_CALLS);
    assert AnswerNow(ONE_READY, Succeeded(0, "x"), 1) == None;
    GatheredInOrder(ONE_READY, Succeeded(0, "x"), TaskIds(TWO_CALLS));
  }

  /** The first task has reported, so its job leaves the turn to the second. */
  lemma FirstReports() returns (steps: seq<Step>, w: World)
    ensures Run(TWO_PARKED, steps) == Some(w) && BothParked(w) && w.turns == []
    ensures w.holder == Free && w.queued == {1} && w.rows == ONE_READY && w.outcome == map[0 := Succeeded(0, "x")]
  {
    steps, w := FirstRecords();
    OneIsMissing();
    steps, w := Then(TWO_PARKED, steps, w, Gather);
    steps, w := Then(TWO_PARKED, steps, w, Finish);
  }

  const BOTH_ANSWERS := [Succeeded(0, "x"), Succeeded(1, "y")]

  lemma BothGathered(rows: Rows)
    requires rows == map[0 := Row(ResultReady, "x", ""), 1 := Row(ResultReady, "y", "")]
    ensures Gathered(rows, Succeeded(1, "y"), TaskIds(TWO_CALLS)) == Some(BOTH_ANSWERS)
    ensures Delivered(BOTH_ANSWERS) == [0, 1]
  {
    var gathered := Gathered(rows, Succeeded(1, "y"), TaskIds(TWO_CALLS));
    GatheredInOrder(rows, Succeeded(1, "y"), TaskIds(TWO_CALLS));
    assert TaskIds(TWO_CALLS) == [0, 1];
    assert forall id <- TaskIds(TWO_CALLS) :: AnswerNow(rows, Succeeded(1, "y"), id).Some?;
    assert gathered.value == BOTH_ANSWERS;
    assert BOTH_ANSWERS[1..] == [Succeeded(1, "y")] && Delivered([Succeeded(1, "y")]) == [1];
  }

  lemma SecondRuns() returns (steps: seq<Step>, w: World)
    ensures Run(TWO_PARKED, steps) == Some(w) && BothParked(w) && w.turns == []
    ensures w.holder == Job(1, Some(Body)) && w.queued == {}
    ensures w.rows == ONE_READY[1 := FRESH_ROW.(status := Running)] && w.outcome == map[0 := Succeeded(0, "x")]
  {
    steps, w := FirstReports();
    steps, w := Then(TWO_PARKED, steps, w, Begin(1));
    steps, w := Then(TWO_PARKED, steps, w, MarkRunning);
  }

  lemma SecondReports() returns (steps: seq<Step>, w: World)
    ensures Run(TWO_PARKED, steps) == Some(w) && BothParked(w) && w.turns == []
    ensures w.holder == Job(1, Some(Gathering(Succeeded(1, "y"), [1]))) && w.queued == {}
    ensures w.rows == BOTH_READY && w.outcome == BOTH_OUTCOMES
  {
    steps, w := SecondRuns();
    steps, w := Then(TWO_PARKED, steps, w, BodyReturns("y"));
    steps, w := Then(TWO_PARKED, steps, w, Announce);
  }

  lemma SecondGathers() returns (steps: seq<Step>, w: World)
    ensures Run(TWO_PARKED, steps) == Some(w) && BothParked(w) && w.turns == []
    ensures w.holder == Job(1, Some(MarkingResuming(BOTH_ANSWERS, [0, 1], [1]))) && w.queued == {}
    ensures w.rows == BOTH_READY && w.outcome == BOTH_OUTCOMES
  {
    steps, w := SecondReports();
    BothGathered(w.rows);
    assert TWO_CALLS[1] in TWO_CALLS && Owns(w.calls, 1);
    steps, w := Then(TWO_PARKED, steps, w, Gather);
  }

  lemma SecondMarksFirst() returns (steps: seq<Step>, w: World)
    ensures Run(TWO_PARKED, steps) == Some(w) && BothParked(w) && w.turns == []
    ensures w.holder == Job(1, Some(MarkingResuming(BOTH_ANSWERS, [1], [1]))) && w.queued == {}
    ensures w.rows == BOTH_READY[0 := Row(Resuming, "x", "")] && w.outcome == BOTH_OUTCOMES
  {
    steps, w := SecondGathers();
    assert [0, 1][1..] == [1];
    steps, w := Then(TWO_PARKED, steps, w, MarkResuming);
  }

  lemma SecondMarks() returns (steps: seq<Step>, w: World)
    ensures Run(TWO_PARKED, steps) == Some(w) && BothParked(w) && w.turns == []
    ensures w.holder == Job(1, Some(MarkingResuming(BOTH_ANSWERS, [], [1]))) && w.queued == {}
    ensures w.rows == BOTH_RESUMING && w.outcome == BOTH_OUTCOMES
  {
    steps, w := SecondMarksFirst();
    assert [1][1..] == [];
    steps, w := Then(TWO_PARKED, steps, w, MarkResuming);
  }

  lemma SecondOpensTheTurn() returns (steps: seq<Step>, w: World)
    ensures Run(TWO_PARKED, steps) == Some(w) && BothParked(w) && w.turns == [BOTH_ANSWERS]
    ensures w.holder == Job(1, Some(Driving(BOTH_ANSWERS, [1]))) && w.queued == {}
    ensures w.rows == BOTH_RESUMING && w.outcome == BOTH_OUTCOMES
  {
    steps, w := SecondMarks();
    steps, w := Then(TWO_PARKED, steps, w, OpenTurn);
  }

  // A stop once the turn is saved.

  lemma SecondStopsLate() returns (steps: seq<Step>, w: World)
    ensures Run(TWO_PARKED, steps) == Some(w)
    ensures w.calls == TWO_CALLS && w.checkpoint == Answered && w.queued == {} && w.holder == Job(1, None) && w.rows == BOTH_RESUMING
  {
    steps, w := SecondOpensTheTurn();
    steps, w := Then(TWO_PARKED, steps, w, DriverSaves);
    steps, w := Then(TWO_PARKED, steps, w, Stop);
  }

  lemma SecondIsSwept() returns (steps: seq<Step>, w: World)
    ensures Run(TWO_PARKED, steps) == Some(w)
    ensures w.calls == TWO_CALLS && w.checkpoint == Answered && w.queued == {}
    ensures w.holder == Job(1, Some(Gathering(Succeeded(1, "y"), [1]))) && w.rows == BOTH_RESUMING
  {
    steps, w := SecondStopsLate();
    steps, w := Then(TWO_PARKED, steps, w, Sweep("stopped"));
    steps, w := Then(TWO_PARKED, steps, w, Announce);
  }

  lemma SecondIsSettled() returns (steps: seq<Step>, w: World)
    ensures Run(TWO_PARKED, steps) == Some(w)
    ensures w.checkpoint == Answered && w.queued == {} && w.holder == Job(1, Some(Settling([1], ""))) && w.rows == BOTH_RESUMING
  {
    steps, w := SecondIsSwept();
    steps, w := Then(TWO_PARKED, steps, w, Gather);
  }

  lemma FallbackIsClosed() returns (steps: seq<Step>, w: World)
    ensures Run(TWO_PARKED, steps) == Some(w)
    ensures w.checkpoint == Answered && w.queued == {} && w.holder == Job(1, Some(Settling([], "")))
    ensures w.rows == BOTH_RESUMING[1 := Row(Complete, "y", "")]
  {
    steps, w := SecondIsSettled();
    assert [1][1..] == [];
    steps, w := Then(TWO_PARKED, steps, w, CloseRow);
  }

  /** A worker that stops once the turn is saved leaves the other task's row open for good. */
  lemma LateStopLeavesARowOpen() returns (steps: seq<Step>, w: World)
    ensures Initial(TWO_PARKED) && Run(TWO_PARKED, steps) == Some(w) && Quiescent(w)
    ensures w.checkpoint == Answered && 0 in w.rows && w.rows[0].status == Resuming
    ensures 1 in w.rows && w.rows[1].status == Complete
  {
    steps, w := FallbackIsClosed();
    steps, w := Then(TWO_PARKED, steps, w, CloseDone);
    steps, w := Then(TWO_PARKED, steps, w, Finish);
  }

  // A stop once the driver raised and a row is closed.

  const BOOM := TurnFailure("boom")
  const SPOILED_ROWS: Rows := BOTH_RESUMING[0 := Row(Failed, "x", BOOM)]
  const SECOND_ANSWERS := [Fell(0, BOOM), Succeeded(1, "y")]

  /** The step is still parked after a turn that answered both calls, and no stop was late or inside the driver. */
  predicate StillParked(w: World) {
    w.calls == TWO_CALLS && w.checkpoint == Parked && w.queued == {} && w.interrupted == 0 && !w.lateStop && w.abandoned == {} &&
    w.outcome == BOTH_OUTCOMES && w.turns == [BOTH_ANSWERS]
  }

  lemma DriverRaisesUnsaved() returns (steps: seq<Step>, w: World)
    ensures Run(TWO_PARKED, steps) == Some(w) && StillParked(w) && w.verdict == Raised("boom") && w.reopened == 0
    ensures w.holder == Job(1, Some(Settling([0, 1], BOOM))) && w.rows == BOTH_RESUMING
  {
    steps, w := SecondOpensTheTurn();
    BothGathered(BOTH_READY);
    steps, w := Then(TWO_PARKED, steps, w, DriverRaises("boom"));
  }

  lemma FirstIsClosed() returns (steps: seq<Step>, w: World)
    ensures Run(TWO_PARKED, steps) == Some(w) && StillParked(w) && w.verdict == Raised("boom") && w.reopened == 0
    ensures w.holder == Job(1, Some(Settling([1], BOOM))) && w.rows == SPOILED_ROWS
  {
    steps, w := DriverRaisesUnsaved();
    assert [0, 1][1..] == [1];
    steps, w := Then(TWO_PARKED, steps, w, CloseRow);
  }

  lemma StopReopens() returns (steps: seq<Step>, w: World)
    ensures Run(TWO_PARKED, steps) == Some(w) && StillParked(w) && w.verdict == NotYet && w.reopened == 1
    ensures w.holder == Job(1, None) && w.rows == SPOILED_ROWS && w.spoiled == map[0 := BOOM]
  {
    steps, w := FirstIsClosed();
    assert FailedRows(w) == map[0 := BOOM];
    steps, w := Then(TWO_PARKED, steps, w, Stop);
  }

  lemma ReopenedIsSwept() returns (steps: seq<Step>, w: World)
    ensures Run(TWO_PARKED, steps) == Some(w) && StillParked(w) && w.verdict == NotYet && w.reopened == 1
    ensures w.holder == Job(1, Some(Gathering(Succeeded(1, "y"), [1]))) && w.rows == SPOILED_ROWS && w.spoiled == map[0 := BOOM]
  {
    steps, w := StopReopens();
    steps, w := Then(TWO_PARKED, steps, w, Sweep("stopped"));
    steps, w := Then(TWO_PARKED, steps, w, Announce);
  }

  lemma SpoiledGathered()
    ensures Gathered(SPOILED_ROWS, Succeeded(1, "y"), TaskIds(TWO_CALLS)) == Some(SECOND_ANSWERS)
    ensures Delivered(SECOND_ANSWERS) == [1] && Owns(TWO_CALLS, 1)
  {
    var gathered := Gathered(SPOILED_ROWS, Succeeded(1, "y"), TaskIds(TWO_CALLS));
    GatheredInOrder(SPOILED_ROWS, Succeeded(1, "y"), TaskIds(TWO_CALLS));
    assert TaskIds(TWO_CALLS) == [0, 1];
    assert forall id <- TaskIds(TWO_CALLS) :: AnswerNow(SPOILED_ROWS, Succeeded(1, "y"), id).Some?;
    assert gathered.value == SECOND_ANSWERS;
    assert SECOND_ANSWERS[1..] == [Succeeded(1, "y")] && Delivered([Succeeded(1, "y")]) == [1];
    assert TWO_CALLS[1] in TWO_CALLS;
  }

  lemma SecondTurnGathers() returns (steps: seq<Step>, w: World)
    ensures Run(TWO_PARKED, steps) == Some(w) && StillParked(w) && w.verdict == NotYet && w.reopened == 1
    ensures w.holder == Job(1, Some(MarkingResuming(SECOND_ANSWERS, [1], [1]))) && w.rows == SPOILED_ROWS && w.spoiled == map[0 := BOOM]
  {
    steps, w := ReopenedIsSwept();
    SpoiledGathered();
    steps, w := Then(TWO_PARKED, steps, w, Gather);
  }

  lemma SecondTurnOpens() returns (steps: seq<Step>, w: World)
    ensures Run(TWO_PARKED, steps) == Some(w)
    ensures w.checkpoint == Parked && w.queued == {} && w.turns == [BOTH_ANSWERS, SECOND_ANSWERS]
    ensures w.interrupted == 0 && w.reopened == 1 && !w.lateStop && w.abandoned == {}
    ensures w.holder == Job(1, Some(Driving(SECOND_ANSWERS, [1]))) && w.rows == SPOILED_ROWS
  {
    steps, w := SecondTurnGathers();
    assert [1][1..] == [];
    steps, w := Then(TWO_PARKED, steps, w, MarkResuming);
    assert w.rows == SPOILED_ROWS;
    steps, w := Then(TWO_PARKED, steps, w, OpenTurn);
  }

  lemma SecondTurnReturns() returns (steps: seq<Step>, w: World)
    ensures Run(TWO_PARKED, steps) == Some(w)
    ensures w.checkpoint == Answered && w.queued == {} && w.turns == [BOTH_ANSWERS, SECOND_ANSWERS]
    ensures w.interrupted == 0 && w.reopened == 1 && !w.lateStop && w.abandoned == {}
    ensures w.holder == Job(1, Some(Settling([1], ""))) && w.rows == SPOILED_ROWS
  {
    steps, w := SecondTurnOpens();
    SpoiledGathered();
    steps, w := Then(TWO_PARKED, steps, w, DriverSaves);
    steps, w := Then(TWO_PARKED, steps, w, DriverReturns);
  }

  lemma SecondTurnCloses() returns (steps: seq<Step>, w: World)
    ensures Run(TWO_PARKED, steps) == Some(w)
    ensures w.checkpoint == Answered && w.queued == {} && w.turns == [BOTH_ANSWERS, SECOND_ANSWERS]
    ensures w.interrupted == 0 && w.reopened == 1 && !w.lateStop && w.abandoned == {}
    ensures w.holder == Job(1, Some(Settling([], ""))) && w.rows == SPOILED_ROWS[1 := Row(Complete, "y", "")]
  {
    steps, w := SecondTurnReturns();
    assert [1][1..] == [];
    steps, w := Then(TWO_PARKED, steps, w, CloseRow);
  }

  /** A worker that stops while it fails the rows of a turn that raised has the step opened again: the second
      turn answers one call as failed that the first answered as a success, and the rows end apart. */
  lemma StopAfterRaiseSpoilsARow() returns (steps: seq<Step>, w: World)
    ensures Initial(TWO_PARKED) && Run(TWO_PARKED, steps) == Some(w) && Quiescent(w)
    ensures w.turns == [BOTH_ANSWERS, SECOND_ANSWERS] && SECOND_ANSWERS[0] != BOTH_ANSWERS[0]
    ensures w.interrupted == 0 && !w.lateStop && w.abandoned == {}
    ensures w.rows == map[0 := Row(Failed, "x", BOOM), 1 := Row(Complete, "y", "")]
  {
    steps, w := SecondTurnCloses();
    steps, w := Then(TWO_PARKED, steps, w, CloseDone);
    steps, w := Then(TWO_PARKED, steps, w, Finish);
  }
}
