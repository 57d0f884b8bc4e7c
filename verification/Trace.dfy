/** A message's parts grouped into the runs of work a reader sees. */
module Trace {
  import opened Wrappers
  import opened Chunks
  import opened SubAgentSteps
  import T = TurnReducer

  datatype RowStatus =
    | RowRunning | RowOk | RowEmpty | RowWarn | RowError | RowCorrected | RowDenied | RowAwaiting | RowStopped

  datatype GroupState = GroupStarted | GroupCompleted | GroupFailed | GroupCancelled | GroupSuperseded

  const LEAD := "lead"
  const TURN_STOPPED := "data-turn-stopped"
  const TURN_FAILED := "data-turn-failed"
  const TURN_WITHDRAWN := "data-turn-withdrawn"

  /** A part as the trace reads it. `Quiet` is one it passes over; `SummaryLine` is a summary left beside its call. */
  datatype Part =
    | Prose(blank: bool)
    | Quiet
    | Tool(tool: string, call: string, phase: T.Phase, line: Option<T.Line>)
    | SummaryLine(fields: Option<SummaryFields>)
    | Dispatch(key: string, name: Option<string>, state: Option<GroupState>, tokens: Option<int>, cost: Option<string>)
    | StepPart(parent: string, step: Step)
    | Data(kind: string, data: Value)

  datatype Row = Row(call: string, tool: string, summary: Option<string>, status: RowStatus, input: Option<Value>, output: Value,
                     errorText: Option<string>)

  datatype Build = Build(key: string, name: string, rows: seq<Row>, steps: seq<Step>, tokens: int, cost: string, state: GroupState,
                         fromSteps: bool)

  datatype Run = Run(groups: seq<Build>, figures: seq<Part>)

  /** A finished group. `dispatch` marks one that a sub-agent's steps filled. */
  datatype Group = Group(key: string, name: string, rows: seq<Row>, tokens: int, cost: string, state: GroupState, dispatch: bool)

  datatype Trace = Trace(groups: seq<Group>, figures: seq<Part>, rowCount: nat, running: bool)

  /** The walk so far. The group under way is the last of the open run. */
  datatype Walk = Walk(traces: seq<Trace>, open: Option<Run>, lines: map<string, T.Line>)

  // Rows.

  function FailedStatus(status: Option<SummaryStatus>): RowStatus {
    if status == Some(SummaryCorrected) then RowCorrected else RowError
  }

  function AnsweredStatus(status: Option<SummaryStatus>): RowStatus {
    match status
    case Some(SummaryEmpty) => RowEmpty
    case Some(SummaryWarn) => RowWarn
    case _ => RowOk
  }

  function RowStatusOf(phase: T.Phase, status: Option<SummaryStatus>): RowStatus {
    match phase
    case InputStreaming(_) => RowRunning
    case InputReady(_) => RowRunning
    case ApprovalRequested(_, _) => RowAwaiting
    case Failed(_, _, _) => FailedStatus(status)
    case Denied(_, _) => RowDenied
    case Answered(_, _, _) => AnsweredStatus(status)
  }

  function ToolRow(p: Part): Row
    requires p.Tool?
  {
    var status := if p.line.Some? then Some(p.line.value.status) else None;
    Row(p.call, p.tool, if p.line.Some? then Some(p.line.value.summary) else None, RowStatusOf(p.phase, status), p.phase.input,
        if p.phase.Answered? then p.phase.output else Null, if p.phase.Failed? then Some(p.phase.errorText) else None)
  }

  function StepStatus(state: StepState): RowStatus {
    match state
    case Started => RowRunning
    case Completed => RowOk
    case Failed => RowError
    case Corrected => RowCorrected
    case Denied => RowDenied
  }

  function ItemRow(item: Item): Row
    requires item.ToolItem?
  {
    var unanswered := item.state.Failed? || item.state.Corrected?;
    Row(item.key, item.tool, if unanswered then None else item.result, StepStatus(item.state), Some(item.args), item.output,
        if unanswered then item.result else None)
  }

  function ItemRows(items: seq<Item>): seq<Row> {
    if items == [] then []
    else if items[|items| - 1].ToolItem? then ItemRows(items[..|items| - 1]) + [ItemRow(items[|items| - 1])]
    else ItemRows(items[..|items| - 1])
  }

  // The walk.

  function Finalized(b: Build): Group {
    Group(b.key, b.name, if b.fromSteps then ItemRows(MergedSteps(b.steps)) else b.rows, b.tokens, b.cost, b.state, b.fromSteps)
  }

  function FinalizedAll(builds: seq<Build>): seq<Group> {
    seq(|builds|, i requires 0 <= i < |builds| => Finalized(builds[i]))
  }

  function RowCount(groups: seq<Group>): nat {
    if groups == [] then 0 else RowCount(groups[..|groups| - 1]) + |groups[|groups| - 1].rows|
  }

  function RunClosed(w: Walk): Walk {
    if w.open.None? then w
    else
      var groups, figures := FinalizedAll(w.open.value.groups), w.open.value.figures;
      var closed := w.(open := None);
      if RowCount(groups) == 0 && figures == [] then closed
      else closed.(traces := w.traces + [Trace(groups, figures, RowCount(groups), false)])
  }

  function OpenRun(w: Walk): Run { if w.open.Some? then w.open.value else Run([], []) }

  /** The run with the group of a key under way: the last one, or a new one. */
  function WithGroup(run: Run, key: string, name: string): (grown: Run)
    ensures grown.groups != []
  {
    if run.groups != [] && run.groups[|run.groups| - 1].key == key then run
    else run.(groups := run.groups + [Build(key, name, [], [], 0, "0", GroupStarted, false)])
  }

  function LastReplaced(run: Run, b: Build): Run
    requires run.groups != []
  {
    run.(groups := run.groups[|run.groups| - 1 := b])
  }

  function Dispatched(b: Build, p: Part): Build
    requires p.Dispatch?
  {
    b.(fromSteps := true, name := if p.name.Some? then p.name.value else b.name, state := if p.state.Some? then p.state.value else b.state,
       tokens := if p.tokens.Some? then p.tokens.value else b.tokens, cost := if p.cost.Some? then p.cost.value else b.cost)
  }

  /** The first group of a key: the number of groups when there is none. */
  function GroupAt(groups: seq<Build>, key: string): (at: nat)
    ensures at <= |groups|
  {
    if groups == [] || groups[0].key == key then 0 else GroupAt(groups[1..], key) + 1
  }

  function StepPushed(w: Walk, parent: string, step: Step): Walk {
    if w.open.None? then w
    else
      var groups := w.open.value.groups;
      var at := GroupAt(groups, parent);
      if at == |groups| then w
      else w.(open := Some(w.open.value.(groups := groups[at := groups[at].(steps := groups[at].steps + [step])])))
  }

  function LineRead(fields: Option<SummaryFields>): Option<(string, T.Line)> {
    match fields
    case Some(SummaryFields(Some(call), Some(summary), raw)) =>
      var known := if raw.Some? then KnownStatus(raw.value) else None;
      Some((call, T.Line(summary, if known.Some? then known.value else SummaryOk)))
    case _ => None
  }

  function LineRecorded(lines: map<string, T.Line>, fields: Option<SummaryFields>): map<string, T.Line> {
    var line := LineRead(fields);
    if line.None? then lines else lines[line.value.0 := line.value.1]
  }

  function Visited(w: Walk, p: Part, kinds: set<string>): Walk {
    match p
    case Prose(blank) => if blank then w else RunClosed(w)
    case Quiet => w
    case Tool(_, _, _, _) =>
      var run := WithGroup(OpenRun(w), LEAD, LEAD);
      var b := run.groups[|run.groups| - 1];
      w.(open := Some(LastReplaced(run, b.(rows := b.rows + [ToolRow(p)]))))
    case SummaryLine(fields) => w.(lines := LineRecorded(w.lines, fields))
    case Dispatch(key, name, _, _, _) =>
      var run := WithGroup(OpenRun(w), key, if name.Some? then name.value else key);
      w.(open := Some(LastReplaced(run, Dispatched(run.groups[|run.groups| - 1], p))))
    case StepPart(parent, step) => StepPushed(w, parent, step)
    case Data(kind, _) =>
      if kind in kinds then w.(open := Some(OpenRun(w).(figures := OpenRun(w).figures + [p]))) else w
  }

  function WalkOf(parts: seq<Part>, kinds: set<string>): Walk {
    if parts == [] then Walk([], None, map[]) else Visited(WalkOf(parts[..|parts| - 1], kinds), parts[|parts| - 1], kinds)
  }

  // What is settled at the end.

  predicate Holds(parts: seq<Part>, kind: string) { exists p <- parts :: p.Data? && p.kind == kind }

  function ClosingState(parts: seq<Part>, turnEnded: bool): Option<GroupState> {
    if Holds(parts, TURN_STOPPED) then Some(GroupCancelled)
    else if Holds(parts, TURN_FAILED) || Holds(parts, TURN_WITHDRAWN) then Some(GroupFailed)
    else if turnEnded then Some(GroupSuperseded) else None
  }

  function StoppedRow(r: Row): Row { if r.status.RowRunning? then r.(status := RowStopped) else r }

  /** A dispatch the turn never resolved, read as its end says. */
  function ClosedGroup(g: Group, state: Option<GroupState>): Group {
    if state.None? || !g.dispatch || !g.state.GroupStarted? then g
    else
      g.(state := state.value,
         rows := if state.value.GroupSuperseded? then g.rows else seq(|g.rows|, i requires 0 <= i < |g.rows| => StoppedRow(g.rows[i])))
  }

  function LineFor(lines: map<string, T.Line>, call: string): Option<T.Line> {
    if call in lines then Some(lines[call]) else None
  }

  /** A row with the line its call was given, if it was given one. */
  function Dressed(r: Row, lines: map<string, T.Line>): Row {
    if r.call !in lines then r
    else
      var status := Some(lines[r.call].status);
      r.(summary := Some(lines[r.call].summary),
         status := if r.status.RowOk? then AnsweredStatus(status) else if r.status.RowError? then FailedStatus(status) else r.status)
  }

  function DressedRows(rows: seq<Row>, lines: map<string, T.Line>): seq<Row> {
    seq(|rows|, i requires 0 <= i < |rows| => Dressed(rows[i], lines))
  }

  predicate Live(g: Group) { exists r <- g.rows :: r.status.RowRunning? || r.status.RowAwaiting? }

  function Settled(g: Group, state: Option<GroupState>, lines: map<string, T.Line>): Group {
    var closed := ClosedGroup(g, state);
    closed.(rows := DressedRows(closed.rows, lines))
  }

  function SettledTrace(t: Trace, state: Option<GroupState>, lines: map<string, T.Line>): Trace {
    var groups := seq(|t.groups|, i requires 0 <= i < |t.groups| => Settled(t.groups[i], state, lines));
    t.(groups := groups, running := t.running || exists g <- groups :: Live(g))
  }

  function SettledTraces(traces: seq<Trace>, state: Option<GroupState>, lines: map<string, T.Line>): seq<Trace> {
    seq(|traces|, i requires 0 <= i < |traces| => SettledTrace(traces[i], state, lines))
  }

  function TraceOf(parts: seq<Part>, kinds: set<string>, turnEnded: bool): seq<Trace> {
    var w := RunClosed(WalkOf(parts, kinds));
    SettledTraces(w.traces, ClosingState(parts, turnEnded), w.lines)
  }

  class Walker {
    const kinds: set<string>
    var traces: seq<Trace>
    var open: Option<Run>
    var lines: map<string, T.Line>

    constructor (kinds: set<string>)
      ensures State() == Walk([], None, map[]) && this.kinds == kinds
    {
      this.kinds := kinds;
      traces, open, lines := [], None, map[];
    }

    function State(): Walk
      reads this
    {
      Walk(traces, open, lines)
    }

    method CloseRun()
      modifies this`traces, this`open
      ensures State() == RunClosed(old(State()))
    {
      if open.None? {
        return;
      }
      var groups: seq<Group>, rowCount: nat := [], 0;
      for i := 0 to |open.value.groups|
        invariant groups == FinalizedAll(open.value.groups[..i]) && rowCount == RowCount(groups)
      {
        var group := Finalized(open.value.groups[i]);
        assert (groups + [group])[..|groups|] == groups;
        rowCount := rowCount + |group.rows|;
        groups := groups + [group];
      }
      assert open.value.groups[..|open.value.groups|] == open.value.groups;
      var figures := open.value.figures;
      open := None;
      if rowCount == 0 && figures == [] {
        return;
      }
      traces := traces + [Trace(groups, figures, rowCount, false)];
    }

    method EnsureGroup(key: string, name: string) returns (run: Run)
      modifies this`open
      ensures run == WithGroup(OpenRun(old(State())), key, name) && open == Some(run)
    {
      run := if open.Some? then open.value else Run([], []);
      if run.groups == [] || run.groups[|run.groups| - 1].key != key {
        run := run.(groups := run.groups + [Build(key, name, [], [], 0, "0", GroupStarted, false)]);
      }
      open := Some(run);
    }

    method PushStep(parent: string, step: Step)
      modifies this`open
      ensures State() == StepPushed(old(State()), parent, step)
    {
      if open.None? {
        return;
      }
      var groups := open.value.groups;
      var at := 0;
      while at < |groups| && groups[at].key != parent
        invariant at <= |groups| && GroupAt(groups, parent) == at + GroupAt(groups[at..], parent)
      {
        assert groups[at..][1..] == groups[at + 1..];
        at := at + 1;
      }
      if at == |groups| {
        return;
      }
      open := Some(open.value.(groups := groups[at := groups[at].(steps := groups[at].steps + [step])]));
    }

    method Visit(p: Part)
      modifies this`traces, this`open, this`lines
      ensures State() == Visited(old(State()), p, kinds)
    {
      match p {
        case Prose(blank) =>
          if !blank {
            CloseRun();
          }
        case Quiet =>
        case Tool(_, _, _, _) =>
          var run := EnsureGroup(LEAD, LEAD);
          var b := run.groups[|run.groups| - 1];
          open := Some(LastReplaced(run, b.(rows := b.rows + [ToolRow(p)])));
        case SummaryLine(fields) =>
          var line := LineRead(fields);
          if line.Some? {
            lines := lines[line.value.0 := line.value.1];
          }
        case Dispatch(key, name, _, _, _) =>
          var run := EnsureGroup(key, if name.Some? then name.value else key);
          open := Some(LastReplaced(run, Dispatched(run.groups[|run.groups| - 1], p)));
        case StepPart(parent, step) => PushStep(parent, step);
        case Data(kind, _) =>
          if kind in kinds {
            var run := if open.Some? then open.value else Run([], []);
            open := Some(run.(figures := run.figures + [p]));
          }
      }
    }
  }

  method BuildTrace(parts: seq<Part>, kinds: set<string>, turnEnded: bool) returns (traces: seq<Trace>)
    ensures traces == TraceOf(parts, kinds, turnEnded)
  {
    var walker := new Walker(kinds);
    for i := 0 to |parts|
      invariant walker.State() == WalkOf(parts[..i], kinds) && walker.kinds == kinds
    {
      assert parts[..i + 1][..i] == parts[..i];
      walker.Visit(parts[i]);
    }
    assert parts[..|parts|] == parts;
    walker.CloseRun();
    var state := ClosingState(parts, turnEnded);
    traces := [];
    for i := 0 to |walker.traces|
      invariant traces == SettledTraces(walker.traces[..i], state, walker.lines)
    {
      traces := traces + [SettledTrace(walker.traces[i], state, walker.lines)];
    }
    assert walker.traces[..|walker.traces|] == walker.traces;
  }

  // Summaries folded onto their calls, or left beside them.

  /** The lines a message's summaries give its calls: the last one of each. */
  function LinesOf(parts: seq<Part>): map<string, T.Line> {
    if parts == [] then map[]
    else
      var before, p := LinesOf(parts[..|parts| - 1]), parts[|parts| - 1];
      if p.SummaryLine? then LineRecorded(before, p.fields) else before
  }

  function FoldedPart(p: Part, lines: map<string, T.Line>): Part {
    if p.Tool? && p.call in lines then p.(line := Some(lines[p.call])) else p
  }

  /** The message with each line on its call, and no summary beside it. */
  function Folded(parts: seq<Part>, lines: map<string, T.Line>): seq<Part> {
    if parts == [] then []
    else if parts[|parts| - 1].SummaryLine? then Folded(parts[..|parts| - 1], lines)
    else Folded(parts[..|parts| - 1], lines) + [FoldedPart(parts[|parts| - 1], lines)]
  }

  /** No call carries its line yet. */
  predicate Beside(parts: seq<Part>) { forall p <- parts :: p.Tool? ==> p.line == None }

  /** A step no line is for, wherever it stands among its sub-agent's steps. */
  ghost predicate Unlined(s: Step, lines: map<string, T.Line>) {
    s.kind.ToolStep? ==> forall at: nat :: Key(s, at) !in lines
  }

  ghost predicate StepsUnlined(parts: seq<Part>, lines: map<string, T.Line>) {
    forall p <- parts :: p.StepPart? ==> Unlined(p.step, lines)
  }

  // The folded walk is the other one dressed.

  function DressedBuild(b: Build, lines: map<string, T.Line>): Build { b.(rows := DressedRows(b.rows, lines)) }

  function DressedBuilds(bs: seq<Build>, lines: map<string, T.Line>): seq<Build> {
    seq(|bs|, i requires 0 <= i < |bs| => DressedBuild(bs[i], lines))
  }

  function DressedRun(run: Run, lines: map<string, T.Line>): Run { run.(groups := DressedBuilds(run.groups, lines)) }

  function DressedGroup(g: Group, lines: map<string, T.Line>): Group {
    if g.dispatch then g else g.(rows := DressedRows(g.rows, lines))
  }

  function DressedTrace(t: Trace, lines: map<string, T.Line>): Trace {
    t.(groups := seq(|t.groups|, i requires 0 <= i < |t.groups| => DressedGroup(t.groups[i], lines)))
  }

  function DressedTraces(ts: seq<Trace>, lines: map<string, T.Line>): seq<Trace> {
    seq(|ts|, i requires 0 <= i < |ts| => DressedTrace(ts[i], lines))
  }

  function DressedOpen(open: Option<Run>, lines: map<string, T.Line>): Option<Run> {
    if open.None? then None else Some(DressedRun(open.value, lines))
  }

  function DressedWalk(w: Walk, lines: map<string, T.Line>): Walk {
    Walk(DressedTraces(w.traces, lines), DressedOpen(w.open, lines), map[])
  }

  lemma {:induction false} DressedCounts(groups: seq<Group>, dressed: seq<Group>)
    requires |groups| == |dressed| && forall i | 0 <= i < |groups| :: |groups[i].rows| == |dressed[i].rows|
    ensures RowCount(groups) == RowCount(dressed)
  {
    if groups != [] {
      DressedCounts(groups[..|groups| - 1], dressed[..|dressed| - 1]);
    }
  }

  lemma FinalizedDressed(builds: seq<Build>, lines: map<string, T.Line>)
    ensures var groups, dressed := FinalizedAll(builds), FinalizedAll(DressedBuilds(builds, lines));
            |dressed| == |groups| && RowCount(dressed) == RowCount(groups) &&
            forall i | 0 <= i < |groups| :: dressed[i] == DressedGroup(groups[i], lines)
  {
    var groups, dressed := FinalizedAll(builds), FinalizedAll(DressedBuilds(builds, lines));
    assert forall i | 0 <= i < |groups| :: dressed[i] == DressedGroup(groups[i], lines);
    DressedCounts(groups, dressed);
  }

  lemma ClosingDressed(w: Walk, lines: map<string, T.Line>)
    ensures RunClosed(DressedWalk(w, lines)) == DressedWalk(RunClosed(w), lines)
  {
    if w.open.Some? {
      var builds := w.open.value.groups;
      var groups, dressed := FinalizedAll(builds), FinalizedAll(DressedBuilds(builds, lines));
      FinalizedDressed(builds, lines);
      var t := Trace(groups, w.open.value.figures, RowCount(groups), false);
      assert DressedTrace(t, lines).groups == dressed;
      assert DressedTraces(w.traces + [t], lines) == DressedTraces(w.traces, lines) + [DressedTrace(t, lines)];
    }
  }

  lemma GroupingDressed(run: Run, key: string, name: string, lines: map<string, T.Line>)
    ensures WithGroup(DressedRun(run, lines), key, name) == DressedRun(WithGroup(run, key, name), lines)
  {
    var b := Build(key, name, [], [], 0, "0", GroupStarted, false);
    assert DressedBuild(b, lines) == b;
    assert DressedBuilds(run.groups + [b], lines) == DressedBuilds(run.groups, lines) + [b];
  }

  lemma LastDressed(run: Run, b: Build, lines: map<string, T.Line>)
    requires run.groups != []
    ensures LastReplaced(DressedRun(run, lines), DressedBuild(b, lines)) == DressedRun(LastReplaced(run, b), lines)
  {
    assert LastReplaced(DressedRun(run, lines), DressedBuild(b, lines)).groups == DressedRun(LastReplaced(run, b), lines).groups;
  }

  lemma {:induction false} GroupAtDressed(groups: seq<Build>, dressed: seq<Build>, key: string)
    requires |groups| == |dressed| && forall i | 0 <= i < |groups| :: groups[i].key == dressed[i].key
    ensures GroupAt(groups, key) == GroupAt(dressed, key)
  {
    if groups != [] {
      GroupAtDressed(groups[1..], dressed[1..], key);
    }
  }

  lemma ToolVisitDressed(w: Walk, p: Part, kinds: set<string>, lines: map<string, T.Line>)
    requires p.Tool? && p.line == None
    ensures Visited(DressedWalk(w, lines), FoldedPart(p, lines), kinds) == DressedWalk(Visited(w, p, kinds), lines)
  {
    var run := WithGroup(OpenRun(w), LEAD, LEAD);
    assert OpenRun(DressedWalk(w, lines)) == DressedRun(OpenRun(w), lines);
    GroupingDressed(OpenRun(w), LEAD, LEAD, lines);
    var b, row := run.groups[|run.groups| - 1], ToolRow(p);
    assert ToolRow(FoldedPart(p, lines)) == Dressed(row, lines);
    assert DressedRows(b.rows + [row], lines) == DressedRows(b.rows, lines) + [Dressed(row, lines)];
    LastDressed(run, b.(rows := b.rows + [row]), lines);
  }

  lemma DispatchedDressed(b: Build, p: Part, lines: map<string, T.Line>)
    requires p.Dispatch?
    ensures Dispatched(DressedBuild(b, lines), p) == DressedBuild(Dispatched(b, p), lines)
  {
  }

  lemma OpenRunDressed(w: Walk, lines: map<string, T.Line>)
    ensures OpenRun(DressedWalk(w, lines)) == DressedRun(OpenRun(w), lines)
  {
  }

  lemma DispatchVisitDressed(w: Walk, p: Part, kinds: set<string>, lines: map<string, T.Line>)
    requires p.Dispatch?
    ensures Visited(DressedWalk(w, lines), p, kinds) == DressedWalk(Visited(w, p, kinds), lines)
  {
    var name := if p.name.Some? then p.name.value else p.key;
    var run := WithGroup(OpenRun(w), p.key, name);
    var b := run.groups[|run.groups| - 1];
    OpenRunDressed(w, lines);
    GroupingDressed(OpenRun(w), p.key, name, lines);
    DispatchedDressed(b, p, lines);
    LastDressed(run, Dispatched(b, p), lines);
  }

  lemma StepVisitDressed(w: Walk, parent: string, step: Step, lines: map<string, T.Line>)
    ensures StepPushed(DressedWalk(w, lines), parent, step) == DressedWalk(StepPushed(w, parent, step), lines)
  {
    if w.open.Some? {
      var groups := w.open.value.groups;
      var dressed := DressedBuilds(groups, lines);
      GroupAtDressed(groups, dressed, parent);
      var at := GroupAt(groups, parent);
      if at < |groups| {
        var b := groups[at].(steps := groups[at].steps + [step]);
        assert DressedBuilds(groups[at := b], lines) == dressed[at := DressedBuild(b, lines)];
      }
    }
  }

  lemma VisitDressed(w: Walk, p: Part, kinds: set<string>, lines: map<string, T.Line>)
    requires !p.SummaryLine? && (p.Tool? ==> p.line == None)
    ensures Visited(DressedWalk(w, lines), FoldedPart(p, lines), kinds) == DressedWalk(Visited(w, p, kinds), lines)
  {
    match p
    case Prose(_) => ClosingDressed(w, lines);
    case Quiet =>
    case Tool(_, _, _, _) => ToolVisitDressed(w, p, kinds, lines);
    case Dispatch(_, _, _, _, _) => DispatchVisitDressed(w, p, kinds, lines);
    case StepPart(parent, step) => StepVisitDressed(w, parent, step, lines);
    case Data(_, _) => assert DressedBuilds([], lines) == [];
  }

  lemma WalkSnoc(front: seq<Part>, p: Part, kinds: set<string>, lines: map<string, T.Line>)
    ensures WalkOf(front + [p], kinds) == Visited(WalkOf(front, kinds), p, kinds)
    ensures LinesOf(front + [p]) == if p.SummaryLine? then LineRecorded(LinesOf(front), p.fields) else LinesOf(front)
    ensures Folded(front + [p], lines) == if p.SummaryLine? then Folded(front, lines) else Folded(front, lines) + [FoldedPart(p, lines)]
  {
    assert (front + [p])[..|front|] == front;
  }

  /** The folded message is walked as the one beside, each call's row in its line. */
  ghost predicate WalksDressed(parts: seq<Part>, kinds: set<string>, lines: map<string, T.Line>) {
    && WalkOf(Folded(parts, lines), kinds) == DressedWalk(WalkOf(parts, kinds), lines)
    && WalkOf(parts, kinds).lines == LinesOf(parts)
  }

  lemma WalksDressedNext(front: seq<Part>, p: Part, kinds: set<string>, lines: map<string, T.Line>)
    requires WalksDressed(front, kinds, lines) && (p.Tool? ==> p.line == None)
    ensures WalksDressed(front + [p], kinds, lines)
  {
    WalkSnoc(front, p, kinds, lines);
    if !p.SummaryLine? {
      WalkSnoc(Folded(front, lines), FoldedPart(p, lines), kinds, lines);
      VisitDressed(WalkOf(front, kinds), p, kinds, lines);
    }
  }

  lemma {:induction false} WalkDressed(parts: seq<Part>, kinds: set<string>, lines: map<string, T.Line>)
    requires Beside(parts)
    ensures WalksDressed(parts, kinds, lines)
  {
    if parts != [] {
      var front, p := parts[..|parts| - 1], parts[|parts| - 1];
      assert p in parts && front + [p] == parts;
      WalkDressed(front, kinds, lines);
      WalksDressedNext(front, p, kinds, lines);
    } else {
      assert DressedTraces([], lines) == [];
    }
  }

  // No line is for a sub-agent's row.

  ghost predicate BuildUnlined(b: Build, lines: map<string, T.Line>) { forall s <- b.steps :: Unlined(s, lines) }

  predicate GroupUnlined(g: Group, lines: map<string, T.Line>) { g.dispatch ==> forall r <- g.rows :: r.call !in lines }

  ghost predicate WalkUnlined(w: Walk, lines: map<string, T.Line>) {
    && (w.open.Some? ==> forall b <- w.open.value.groups :: BuildUnlined(b, lines))
    && (forall t <- w.traces :: forall g <- t.groups :: GroupUnlined(g, lines))
  }

  lemma {:induction false} ItemRowsUnlined(items: seq<Item>, lines: map<string, T.Line>)
    requires forall item <- items :: item.ToolItem? ==> item.key !in lines
    ensures forall r <- ItemRows(items) :: r.call !in lines
  {
    if items != [] {
      ItemRowsUnlined(items[..|items| - 1], lines);
    }
  }

  lemma FinalizedUnlined(b: Build, lines: map<string, T.Line>)
    requires BuildUnlined(b, lines)
    ensures GroupUnlined(Finalized(b), lines)
  {
    var items := MergedSteps(b.steps);
    forall item <- items | item.ToolItem? ensures item.key !in lines {
      var at :| 0 <= at < |items| && items[at] == item;
      KeysComeFromSteps(b.steps, at);
      var i: nat :| i < |b.steps| && b.steps[i].kind.ToolStep? && item.key == Key(b.steps[i], i);
      assert Unlined(b.steps[i], lines);
    }
    ItemRowsUnlined(items, lines);
  }

  lemma ClosingUnlined(w: Walk, lines: map<string, T.Line>)
    requires WalkUnlined(w, lines)
    ensures WalkUnlined(RunClosed(w), lines)
  {
    if w.open.Some? {
      var builds := w.open.value.groups;
      forall g <- FinalizedAll(builds) ensures GroupUnlined(g, lines) {
        var i :| 0 <= i < |builds| && g == Finalized(builds[i]);
        FinalizedUnlined(builds[i], lines);
      }
    }
  }

  lemma VisitUnlined(w: Walk, p: Part, kinds: set<string>, lines: map<string, T.Line>)
    requires WalkUnlined(w, lines) && (p.StepPart? ==> Unlined(p.step, lines))
    ensures WalkUnlined(Visited(w, p, kinds), lines)
  {
    ClosingUnlined(w, lines);
    if p.Tool? {
      GroupUnlinedStill(w, LEAD, LEAD, lines);
    } else if p.Dispatch? {
      GroupUnlinedStill(w, p.key, if p.name.Some? then p.name.value else p.key, lines);
    } else if p.StepPart? && w.open.Some? && GroupAt(w.open.value.groups, p.parent) < |w.open.value.groups| {
      PushUnlined(w, p.parent, p.step, lines);
    }
  }

  lemma GroupUnlinedStill(w: Walk, key: string, name: string, lines: map<string, T.Line>)
    requires WalkUnlined(w, lines)
    ensures var run := WithGroup(OpenRun(w), key, name);
            forall b: Build | b.steps == run.groups[|run.groups| - 1].steps ::
              forall g <- LastReplaced(run, b).groups :: BuildUnlined(g, lines)
  {
    var run := WithGroup(OpenRun(w), key, name);
    forall b <- run.groups ensures BuildUnlined(b, lines) { }
    assert BuildUnlined(run.groups[|run.groups| - 1], lines);
  }

  lemma PushUnlined(w: Walk, parent: string, step: Step, lines: map<string, T.Line>)
    requires WalkUnlined(w, lines) && Unlined(step, lines)
    requires w.open.Some? && GroupAt(w.open.value.groups, parent) < |w.open.value.groups|
    ensures WalkUnlined(StepPushed(w, parent, step), lines)
  {
    var groups := w.open.value.groups;
    var at := GroupAt(groups, parent);
    var b := groups[at].(steps := groups[at].steps + [step]);
    assert groups[at] in groups;
    forall g <- groups[at := b] ensures BuildUnlined(g, lines) {
      if g == b {
        forall s <- b.steps ensures Unlined(s, lines) { assert s in groups[at].steps || s == step; }
      } else {
        assert g in groups;
      }
    }
  }

  lemma {:induction false} WalkStaysUnlined(parts: seq<Part>, kinds: set<string>, lines: map<string, T.Line>)
    requires StepsUnlined(parts, lines)
    ensures WalkUnlined(WalkOf(parts, kinds), lines)
  {
    if parts != [] {
      WalkStaysUnlined(parts[..|parts| - 1], kinds, lines);
      VisitUnlined(WalkOf(parts[..|parts| - 1], kinds), parts[|parts| - 1], kinds, lines);
    }
  }

  // The two readings.

  lemma SettledAlike(g: Group, state: Option<GroupState>, lines: map<string, T.Line>)
    requires GroupUnlined(g, lines)
    ensures Settled(DressedGroup(g, lines), state, map[]) == Settled(g, state, lines)
  {
    var closed := ClosedGroup(g, state);
    if g.dispatch {
      assert forall i | 0 <= i < |closed.rows| :: closed.rows[i].call == g.rows[i].call;
      assert DressedRows(closed.rows, lines) == closed.rows == DressedRows(closed.rows, map[]);
    } else {
      assert DressedRows(DressedRows(g.rows, lines), map[]) == DressedRows(g.rows, lines);
    }
  }

  lemma SettledTraceAlike(t: Trace, state: Option<GroupState>, lines: map<string, T.Line>)
    requires forall g <- t.groups :: GroupUnlined(g, lines)
    ensures SettledTrace(DressedTrace(t, lines), state, map[]) == SettledTrace(t, state, lines)
  {
    forall i | 0 <= i < |t.groups| ensures Settled(DressedGroup(t.groups[i], lines), state, map[]) == Settled(t.groups[i], state, lines) {
      SettledAlike(t.groups[i], state, lines);
    }
    assert SettledTrace(DressedTrace(t, lines), state, map[]).groups == SettledTrace(t, state, lines).groups;
  }

  lemma {:induction false} FoldingHoldsKinds(parts: seq<Part>, lines: map<string, T.Line>, kind: string)
    ensures Holds(Folded(parts, lines), kind) <==> Holds(parts, kind)
  {
    if parts != [] {
      var front, p := parts[..|parts| - 1], parts[|parts| - 1];
      FoldingHoldsKinds(front, lines, kind);
      assert forall q :: q in parts <==> q in front || q == p;
    }
  }

  /** A message reads the same with its summaries folded onto their calls as with them left beside. */
  lemma FoldedReadsAsBeside(parts: seq<Part>, kinds: set<string>, turnEnded: bool)
    requires Beside(parts) && StepsUnlined(parts, LinesOf(parts))
    ensures TraceOf(Folded(parts, LinesOf(parts)), kinds, turnEnded) == TraceOf(parts, kinds, turnEnded)
  {
    var lines := LinesOf(parts);
    WalkDressed(parts, kinds, lines);
    ClosingDressed(WalkOf(parts, kinds), lines);
    WalkStaysUnlined(parts, kinds, lines);
    ClosingUnlined(WalkOf(parts, kinds), lines);
    FoldingHoldsKinds(parts, lines, TURN_STOPPED);
    FoldingHoldsKinds(parts, lines, TURN_FAILED);
    FoldingHoldsKinds(parts, lines, TURN_WITHDRAWN);
    var w, state := RunClosed(WalkOf(parts, kinds)), ClosingState(parts, turnEnded);
    forall i | 0 <= i < |w.traces|
      ensures SettledTrace(DressedTrace(w.traces[i], lines), state, map[]) == SettledTrace(w.traces[i], state, lines)
    {
      SettledTraceAlike(w.traces[i], state, lines);
    }
    assert SettledTraces(DressedTraces(w.traces, lines), state, map[]) == SettledTraces(w.traces, state, lines);
  }
}
