/** The durable-task protocol as a step system: one model step parks several calls, their
    jobs run under the thread lock, workers stop at any point, and a sweep takes over. */
module DurableProtocol {
  import opened Wrappers
  import opened TaskRows
  import opened CompletionTurn

  /** What the thread's checkpoint says of the parked step. */
  datatype Checkpoint = Unsaved | Parked | Answered | Superseded

  /** How the host's driver ended the completion turn. */
  datatype Verdict = NotYet | Returned | Raised(error: string)

  /** Where the holder of a job is. */
  datatype Pc =
    | Start
    | Body
    | Failing(error: string)
    | Announcing(answer: Answer, fallback: seq<TaskId>)
    | Gathering(answer: Answer, fallback: seq<TaskId>)
    | MarkingResuming(answers: seq<Answer>, todo: seq<TaskId>, fallback: seq<TaskId>)
    | Driving(answers: seq<Answer>, fallback: seq<TaskId>)
    | Settling(todo: seq<TaskId>, error: string)
    | Finishing

  /** Who holds the thread lock. A job with no program counter is held by a worker that stopped. */
  datatype Holder = Free | ChatTurn(dispatched: nat) | Job(task: TaskId, pc: Option<Pc>)

  /** From `turns` on, the fields are history: what a step does to the fields before them depends on none. */
  datatype World = World(
    calls: seq<DurableCall>,
    rows: Rows,
    queued: set<TaskId>,
    holder: Holder,
    checkpoint: Checkpoint,
    turns: seq<seq<Answer>>,          // the answers of each completion turn the driver was handed
    outcome: map<TaskId, Answer>,     // what each row first recorded
    verdict: Verdict,
    announced: set<TaskId>,
    cut: set<TaskId>,                 // tasks whose holder stopped before the row recorded anything
    interrupted: nat,                 // stops inside the driver before the checkpoint was saved
    reopened: nat,                    // stops after the driver raised and left the step parked
    spoiled: map<TaskId, string>,     // rows such a stop found closed by the turn that raised, with the error
    lateStop: bool,                   // a stop after it was saved and before the rows were closed
    abandoned: set<TaskId>)           // open rows no later step writes

  datatype Step =
    | Dispatch | Park | Begin(task: TaskId) | MarkRunning | BodyReturns(result: Payload) | BodyRaises(error: string)
    | MarkFailed | Announce | Gather | MarkResuming | OpenTurn | DriverSaves | DriverReturns | DriverRaises(error: string)
    | CloseRow | CloseDone | Finish | Stop | Sweep(error: string) | Supersede

  ghost predicate Initial(w: World) {
    && |w.calls| >= 1 && OwnTasks(w.calls)
    && w == World(w.calls, map[], {}, ChatTurn(0), Unsaved, [], map[], NotYet, {}, {}, 0, 0, map[], false, {})
  }

  predicate At(w: World) { w.holder.Job? && w.holder.pc.Some? }

  function PcOf(w: World): Pc
    requires At(w)
  {
    w.holder.pc.value
  }

  function Moved(w: World, pc: Pc): World
    requires w.holder.Job?
  {
    w.(holder := w.holder.(pc := Some(pc)))
  }

  function TurnFailure(error: string): (message: string)
    ensures message != ""
  {
    "completion turn failed: " + error
  }

  predicate Open(row: Row) { Active(row.status) }

  /** What a task answers while its step is parked: what it first recorded, or the failure a turn closed its
      row with before the step was opened again. */
  function Standing(w: World, t: TaskId): Answer
    requires t in w.outcome
  {
    if t in w.spoiled then Fell(t, w.spoiled[t]) else w.outcome[t]
  }

  /** The rows whose closing the current holder still owes. */
  predicate Owes(w: World, t: TaskId) {
    w.holder.Job? &&
    match w.holder.pc
    case None => t == w.holder.task
    case Some(Settling(todo, _)) => t in todo
    case Some(Driving(_, _)) => t in w.outcome && Standing(w, t).Succeeded?
    case Some(Finishing) => false
    case Some(_) => t == w.holder.task
  }

  /** The sweep's first step reads the row and picks the path the dead worker left. */
  function SweepTarget(w: World, error: string): Pc
    requires w.holder.Job?
    requires w.holder.task in w.rows
  {
    var t, row := w.holder.task, w.rows[w.holder.task];
    if !Active(row.status) then Gathering(AsDurable(t, row), [])
    else if !Reported(row.status) then Failing(error)
    else Announcing(AsDurable(t, row), [t])
  }

  /** What the completion turn does with the parked step it reads. */
  function GatherTarget(w: World, answer: Answer, fallback: seq<TaskId>): Pc {
    if w.checkpoint != Parked || !Owns(w.calls, answer.task) then Settling(fallback, "")
    else match Gathered(w.rows, answer, TaskIds(w.calls))
      case None => Finishing
      case Some(answers) => MarkingResuming(answers, Delivered(answers), fallback)
  }

  /** The rows the settlement closes once the driver has ended. */
  function AfterDriver(answers: seq<Answer>, fallback: seq<TaskId>, error: string): Pc {
    Settling(if Delivered(answers) != [] then Delivered(answers) else fallback, error)
  }

  predicate Enabled(w: World, s: Step) {
    match s
    case Dispatch => w.holder.ChatTurn? && w.holder.dispatched < |w.calls|
    case Park => w.holder.ChatTurn? && w.holder.dispatched == |w.calls|
    case Begin(t) => w.holder.Free? && t in w.queued
    case MarkRunning => At(w) && PcOf(w).Start?
    case BodyReturns(_) => At(w) && PcOf(w).Body?
    case BodyRaises(_) => At(w) && PcOf(w).Body?
    case MarkFailed => At(w) && PcOf(w).Failing?
    case Announce => At(w) && PcOf(w).Announcing?
    case Gather => At(w) && PcOf(w).Gathering?
    case MarkResuming => At(w) && PcOf(w).MarkingResuming? && PcOf(w).todo != []
    case OpenTurn => At(w) && PcOf(w).MarkingResuming? && PcOf(w).todo == []
    case DriverSaves => At(w) && PcOf(w).Driving? && w.checkpoint == Parked
    case DriverReturns => At(w) && PcOf(w).Driving? && w.checkpoint == Answered
    case DriverRaises(_) => At(w) && PcOf(w).Driving?
    case CloseRow => At(w) && PcOf(w).Settling? && PcOf(w).todo != []
    case CloseDone => At(w) && PcOf(w).Settling? && PcOf(w).todo == []
    case Finish => At(w) && PcOf(w).Finishing?
    case Stop => At(w)
    case Sweep(_) => w.holder.Job? && w.holder.pc.None? && w.holder.task in w.rows
    case Supersede => w.holder.Free? && w.checkpoint == Parked
  }

  /** A stop in the window between the saved checkpoint and the last closed row. */
  predicate StopsLate(w: World)
    requires At(w)
  {
    || (PcOf(w).Driving? && w.checkpoint == Answered)
    || (PcOf(w).Settling? && PcOf(w).todo != [] && w.verdict != NotYet && w.checkpoint == Answered)
  }

  /** A stop once the driver raised and left the step parked: the sweep opens the step again. */
  predicate StopsAfterRaise(w: World) { w.checkpoint == Parked && w.verdict.Raised? }

  /** The successful tasks whose rows have failed, each with its row's error. */
  function FailedRows(w: World): map<TaskId, string> {
    map t | t in w.rows && t in w.outcome && w.outcome[t].Succeeded? && w.rows[t].status.Failed? :: w.rows[t].error
  }

  function Stopped(w: World): World
    requires At(w)
  {
    var t := w.holder.task;
    w.(holder := Job(t, None),
       cut := if t in w.outcome then w.cut else w.cut + {t},
       interrupted := if PcOf(w).Driving? && w.checkpoint == Parked then w.interrupted + 1 else w.interrupted,
       reopened := if StopsAfterRaise(w) then w.reopened + 1 else w.reopened,
       spoiled := if StopsAfterRaise(w) then FailedRows(w) else w.spoiled,
       verdict := if StopsAfterRaise(w) then NotYet else w.verdict,
       lateStop := w.lateStop || StopsLate(w),
       abandoned := if StopsLate(w) then w.abandoned + (set u | u in w.rows && u != t && Owes(w, u)) else w.abandoned)
  }

  function Apply(w: World, s: Step): World
    requires Enabled(w, s)
  {
    match s
    case Dispatch =>
      var t := w.calls[w.holder.dispatched].task;
      w.(rows := w.rows[t := FRESH_ROW], queued := w.queued + {t}, holder := ChatTurn(w.holder.dispatched + 1))
    case Park => w.(checkpoint := Parked, holder := Free)
    case Begin(t) => w.(queued := w.queued - {t}, holder := Job(t, Some(Start)))
    case MarkRunning => Moved(w, Body).(rows := WithRunning(w.rows, w.holder.task))
    case BodyReturns(result) =>
      var t := w.holder.task;
      Moved(w, Announcing(Succeeded(t, result), [t])).(
        rows := WithResult(w.rows, t, result), outcome := w.outcome[t := Succeeded(t, result)])
    case BodyRaises(error) => Moved(w, Failing(error))
    case MarkFailed =>
      var t, error := w.holder.task, PcOf(w).error;
      Moved(w, Announcing(Fell(t, error), [])).(
        rows := WithFailed(w.rows, t, error), outcome := w.outcome[t := Fell(t, error)])
    case Announce =>
      Moved(w, Gathering(PcOf(w).answer, PcOf(w).fallback)).(announced := w.announced + {w.holder.task})
    case Gather => Moved(w, GatherTarget(w, PcOf(w).answer, PcOf(w).fallback))
    case MarkResuming =>
      var pc := PcOf(w);
      Moved(w, MarkingResuming(pc.answers, pc.todo[1..], pc.fallback)).(rows := WithResuming(w.rows, pc.todo[0]))
    case OpenTurn => Moved(w, Driving(PcOf(w).answers, PcOf(w).fallback)).(turns := w.turns + [PcOf(w).answers])
    case DriverSaves => w.(checkpoint := Answered)
    case DriverReturns => Moved(w, AfterDriver(PcOf(w).answers, PcOf(w).fallback, "")).(verdict := Returned)
    case DriverRaises(error) =>
      Moved(w, AfterDriver(PcOf(w).answers, PcOf(w).fallback, TurnFailure(error))).(verdict := Raised(error))
    case CloseRow =>
      var pc := PcOf(w);
      Moved(w, Settling(pc.todo[1..], pc.error)).(rows := WithClosed(w.rows, pc.todo[0], pc.error))
    case CloseDone => Moved(w, Finishing)
    case Finish => w.(holder := Free)
    case Stop => Stopped(w)
    case Sweep(error) => Moved(w, SweepTarget(w, error))
    case Supersede =>
      w.(checkpoint := Superseded,
         abandoned := w.abandoned + (set t | t in w.rows && t !in w.queued && Open(w.rows[t])))
  }

  /** What a run of steps makes of `start`, or nothing when one of them was not enabled. */
  function Run(start: World, steps: seq<Step>): Option<World> {
    if steps == [] then Some(start)
    else
      var last := steps[|steps| - 1];
      match Run(start, steps[..|steps| - 1])
      case None => None
      case Some(w) => if Enabled(w, last) then Some(Apply(w, last)) else None
  }

  predicate Distinct(s: seq<TaskId>) {
    forall i, j | 0 <= i < j < |s| :: s[i] != s[j]
  }

  // The invariant, part by part.

  predicate Recorded(w: World, t: TaskId) { t in w.outcome }

  ghost predicate Dispatching(w: World) {
    && w.holder.ChatTurn? && w.holder.dispatched <= |w.calls|
    && w.queued == (set i | 0 <= i < w.holder.dispatched :: w.calls[i].task)
    && w.rows.Keys == w.queued && (forall t <- w.rows :: w.rows[t] == FRESH_ROW)
    && w == World(w.calls, w.rows, w.queued, w.holder, Unsaved, [], map[], NotYet, {}, {}, 0, 0, map[], false, {})
  }

  predicate Current(w: World, t: TaskId) { w.holder.Job? && w.holder.task == t }

  /** Rows, queue, lock and recorded outcomes fit together. */
  ghost predicate Shape(w: World) {
    && !w.holder.ChatTurn? && w.checkpoint != Unsaved
    && (forall t :: t in w.rows <==> Owns(w.calls, t))
    && (forall t <- w.queued :: t in w.rows && t !in w.outcome && !Current(w, t) && w.rows[t] == FRESH_ROW)
    && (forall t <- w.outcome :: t in w.rows)
    && (w.holder.Job? ==> w.holder.task in w.rows)
    && (forall t <- w.rows :: t in w.queued || t in w.outcome || Current(w, t))
  }

  /** What a recorded row holds, given what it first recorded, which turns failed it and how the driver ended. */
  ghost predicate RowMatches(w: World, t: TaskId)
    requires t in w.rows && t in w.outcome
  {
    var row, first := w.rows[t], w.outcome[t];
    && first.task == t
    && (t in w.spoiled ==> row.status.Failed? && first == Succeeded(t, row.result) && row.error == w.spoiled[t])
    && match row.status
       case Pending => false
       case Running => false
       case ResultReady => row.error == "" && first == Succeeded(t, row.result)
       case Resuming => row.error == "" && first == Succeeded(t, row.result)
       case Complete => row.error == "" && first == Succeeded(t, row.result) && (w.lateStop || w.verdict.Returned? || w.checkpoint == Superseded)
       case Failed =>
         || (first == Fell(t, row.error) && row.result == "")
         || (first == Succeeded(t, row.result) &&
             (t in w.spoiled || (w.verdict.Raised? && row.error == TurnFailure(w.verdict.error))))
  }

  ghost predicate RowsFit(w: World) {
    && (forall t <- w.outcome :: t in w.rows && RowMatches(w, t))
    && (forall t <- w.spoiled :: t in w.outcome)
  }

  /** How far the step has come, and what that leaves possible. */
  ghost predicate Phases(w: World) {
    && (w.verdict.Returned? ==> w.checkpoint == Answered)
    && (w.lateStop ==> w.checkpoint == Answered)
    && (w.checkpoint == Answered || w.verdict != NotYet ==> forall t <- w.rows :: t in w.outcome)
    && (w.checkpoint == Superseded && w.verdict != NotYet ==> !w.holder.Job?)
    && (w.checkpoint == Parked && w.verdict != NotYet && w.holder.Job? ==> At(w) && (PcOf(w).Settling? || PcOf(w).Finishing?))
    && (w.checkpoint == Answered && w.verdict == NotYet ==> w.lateStop || (At(w) && PcOf(w).Driving?))
  }

  ghost predicate Rowwise(w: World) { RowsFit(w) && Phases(w) }

  predicate Waiting(w: World) { w.checkpoint == Parked && w.verdict == NotYet }

  /** While the step waits for its answers nothing is lost, and someone is left to bring them. */
  ghost predicate Live(w: World) {
    Waiting(w) ==>
      && w.abandoned == {}
      && (w.queued != {} || (w.holder.Job? && w.holder.pc != Some(Finishing)))
  }

  /** After that, every open row is owed by the holder or abandoned, and abandoned rows stay open. */
  ghost predicate Accounted(w: World) {
    && (!Waiting(w) ==> forall t <- w.outcome :: t in w.rows && Open(w.rows[t]) ==> t in w.abandoned || Owes(w, t))
    && (forall t <- w.abandoned :: t in w.outcome && t in w.rows && Open(w.rows[t]) && !Owes(w, t) && !Current(w, t))
    && (w.abandoned != {} ==> w.lateStop || w.checkpoint == Superseded)
  }

  /** One answer per call, in call order, with what its task answers now. */
  ghost predicate Answers(w: World, answers: seq<Answer>) {
    && |answers| == |w.calls|
    && forall i | 0 <= i < |w.calls| :: w.calls[i].task in w.outcome && answers[i] == Standing(w, w.calls[i].task)
  }

  /** One answer per call, in call order, with what its task first recorded. */
  ghost predicate FirstAnswers(w: World, answers: seq<Answer>) {
    && |answers| == |w.calls|
    && forall i | 0 <= i < |w.calls| :: w.calls[i].task in w.outcome && answers[i] == w.outcome[w.calls[i].task]
  }

  /** One answer per call, in call order, with what its task first recorded or answers now. */
  ghost predicate Spoke(w: World, answers: seq<Answer>) {
    && |answers| == |w.calls|
    && forall i | 0 <= i < |w.calls| ::
         var t := w.calls[i].task;
         t in w.outcome && (answers[i] == w.outcome[t] || answers[i] == Standing(w, t))
  }

  ghost predicate FallbackOk(w: World, fallback: seq<TaskId>)
    requires w.holder.Job? && w.holder.task in w.rows
  {
    fallback == if Open(w.rows[w.holder.task]) then [w.holder.task] else []
  }

  /** What the holder's program counter promises. */
  ghost predicate PcOk(w: World) {
    w.holder.Job? ==>
      && w.holder.task in w.rows
      && var c, row := w.holder.task, w.rows[w.holder.task];
      && (c !in w.outcome ==>
            row.status in {Pending, Running} && row.result == row.error == "" && (w.holder.pc.None? || PcOf(w).Start? || PcOf(w).Body? || PcOf(w).Failing?))
      && (w.checkpoint == Answered && Open(row) && (w.holder.pc.None? || PcOf(w).Announcing? || PcOf(w).Gathering?) ==> w.lateStop)
      && (w.holder.pc.Some? ==>
            match PcOf(w)
            case Start => c !in w.outcome
            case Body => c !in w.outcome
            case Failing(_) => c !in w.outcome
            case Announcing(a, f) => c in w.outcome && a == AsDurable(c, row) && FallbackOk(w, f)
            case Gathering(a, f) => c in w.outcome && a == AsDurable(c, row) && FallbackOk(w, f)
            case MarkingResuming(answers, todo, f) =>
              && Waiting(w) && Answers(w, answers) && FallbackOk(w, f)
              && (forall t <- todo :: t in w.outcome && Standing(w, t).Succeeded?)
            case Driving(answers, f) =>
              && w.verdict == NotYet && w.checkpoint in {Parked, Answered} && Answers(w, answers) && FallbackOk(w, f)
              && !w.lateStop
            case Settling(todo, error) =>
              && !Waiting(w) && Distinct(todo)
              && (forall t <- todo :: t in w.outcome && t in w.rows && Open(w.rows[t]))
              && (w.verdict == NotYet ==> forall t <- todo :: t == c)
              && (error != "" ==> w.verdict.Raised? && error == TurnFailure(w.verdict.error))
              && (error == "" ==> w.lateStop || w.verdict.Returned? || w.checkpoint == Superseded || todo == [])
            case Finishing => true)
  }

  /** The turns the driver was handed. */
  ghost predicate Openings(w: World) {
    && (forall k | 0 <= k < |w.turns| :: Spoke(w, w.turns[k]))
    && |w.turns| == w.interrupted + w.reopened + (if Opened(w) then 1 else 0)
    && (w.turns == [] ==> w.spoiled == map[])
    && (w.turns != [] ==> FirstAnswers(w, w.turns[0]))
    && (Opened(w) ==> Answers(w, w.turns[|w.turns| - 1]))
  }

  /** The last turn is open, or its end stands. */
  predicate Opened(w: World) { w.checkpoint == Answered || w.verdict != NotYet || (At(w) && PcOf(w).Driving?) }

  /** A stored result is announced before anything reads it, and a job cut short never recorded one. */
  ghost predicate Told(w: World) {
    && (forall t <- w.outcome :: w.outcome[t].Succeeded? && t !in w.announced ==>
          Current(w, t) && t in w.rows && Open(w.rows[t]) && (w.holder.pc.None? || PcOf(w).Announcing?))
    && (forall t <- w.cut :: t in w.outcome ==> w.outcome[t].Fell?)
    && (forall t <- w.cut :: t !in w.outcome ==> Current(w, t) && (w.holder.pc.None? || PcOf(w).Failing?))
  }

  /** The invariant once the calls are parked. */
  ghost predicate Protocol(w: World) {
    && |w.calls| >= 1 && OwnTasks(w.calls)
    && Shape(w) && Rowwise(w) && Live(w) && Accounted(w) && PcOk(w) && Openings(w) && Told(w)
  }

  ghost predicate Inv(w: World) {
    |w.calls| >= 1 && OwnTasks(w.calls) && (Dispatching(w) || Protocol(w))
  }
}
