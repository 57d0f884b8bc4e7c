/** What a trace shows of the calls of a message. */
module TraceRows {
  import opened Wrappers
  import opened Chunks
  import opened Trace
  import T = TurnReducer

  // One call.

  predicate Reads(line: Option<T.Line>, status: SummaryStatus) { line.Some? && line.value.status == status }

  /** The call's own line says so, or the one beside it does and the call's own does not say the other. */
  predicate ReadsFirst(line: Option<T.Line>, beside: Option<T.Line>, status: SummaryStatus, other: SummaryStatus) {
    Reads(line, status) || (Reads(beside, status) && !Reads(line, other))
  }

  /** A row of a call with its own line, if it has one, and the line left beside it, if there is one. */
  predicate Shows(row: Row, p: Part, beside: Option<T.Line>)
    requires p.Tool?
  {
    && row.call == p.call && row.tool == p.tool && row.input == p.phase.input
    && (row.status.RowAwaiting? <==> p.phase.ApprovalRequested?)
    && (row.status.RowDenied? <==> p.phase.Denied?)
    && (row.status.RowRunning? <==> p.phase.InputStreaming? || p.phase.InputReady?)
    && (row.status.RowError? || row.status.RowCorrected? <==> p.phase.Failed?)
    && (row.status.RowCorrected? <==> p.phase.Failed? && (Reads(p.line, SummaryCorrected) || Reads(beside, SummaryCorrected)))
    && (row.status.RowOk? || row.status.RowEmpty? || row.status.RowWarn? <==> p.phase.Answered?)
    && (row.status.RowEmpty? <==> p.phase.Answered? && ReadsFirst(p.line, beside, SummaryEmpty, SummaryWarn))
    && (row.status.RowWarn? <==> p.phase.Answered? && ReadsFirst(p.line, beside, SummaryWarn, SummaryEmpty))
    && row.output == (if p.phase.Answered? then p.phase.output else Null)
    && row.errorText == (if p.phase.Failed? then Some(p.phase.errorText) else None)
    && row.summary == (if beside.Some? then Some(beside.value.summary) else if p.line.Some? then Some(p.line.value.summary) else None)
  }

  lemma {:induction false} ToolRowShows(p: Part, lines: map<string, T.Line>)
    requires p.Tool?
    ensures Shows(Dressed(ToolRow(p), lines), p, LineFor(lines, p.call))
  {
    match p.phase
    case InputStreaming(_) =>
    case InputReady(_) =>
    case ApprovalRequested(_, _) =>
    case Denied(_, _) =>
    case Failed(_, _, _) =>
    case Answered(_, _, _) =>
  }

  // The lead's rows.

  /** The rows of the groups no dispatch filled, in order. */
  function GroupLead(groups: seq<Group>): seq<Row> {
    if groups == [] then []
    else GroupLead(groups[..|groups| - 1]) + if groups[|groups| - 1].dispatch then [] else groups[|groups| - 1].rows
  }

  function LeadRows(traces: seq<Trace>): seq<Row> {
    if traces == [] then [] else LeadRows(traces[..|traces| - 1]) + GroupLead(traces[|traces| - 1].groups)
  }

  function LeadOf(b: Build): seq<Row> { if b.fromSteps then [] else b.rows }

  function BuildLead(groups: seq<Build>): seq<Row> {
    if groups == [] then []
    else BuildLead(groups[..|groups| - 1]) + LeadOf(groups[|groups| - 1])
  }

  function OpenLead(w: Walk): seq<Row> { if w.open.None? then [] else BuildLead(w.open.value.groups) }

  /** The lead's rows as the walk stands. */
  function LeadSoFar(w: Walk): seq<Row> { LeadRows(w.traces) + OpenLead(w) }

  /** The calls of a message. */
  function Calls(parts: seq<Part>): (calls: seq<Part>)
    ensures forall p <- calls :: p.Tool?
  {
    if parts == [] then []
    else Calls(parts[..|parts| - 1]) + if parts[|parts| - 1].Tool? then [parts[|parts| - 1]] else []
  }

  function CallRows(calls: seq<Part>): seq<Row>
    requires forall p <- calls :: p.Tool?
  {
    seq(|calls|, i requires 0 <= i < |calls| => ToolRow(calls[i]))
  }

  // Calls a dispatch under the lead's key would hide.

  /** A part after which a call joins another group. */
  predicate Breaks(p: Part) { (p.Prose? && !p.blank) || (p.Dispatch? && p.key != LEAD) }

  predicate LeadDispatch(p: Part) { p.Dispatch? && p.key == LEAD }

  ghost predicate Between(parts: seq<Part>, i: nat, j: nat) {
    forall k | i < k < j && k < |parts| :: !Breaks(parts[k])
  }

  /** A call and a dispatch under the lead's key with nothing between them that ends the group. */
  ghost predicate Hidden(parts: seq<Part>, i: nat, j: nat) {
    i < |parts| && j < |parts| && parts[i].Tool? && LeadDispatch(parts[j]) && Between(parts, i, j) && Between(parts, j, i)
  }

  ghost predicate SomeHidden(parts: seq<Part>) { exists i: nat, j: nat :: Hidden(parts, i, j) }

  ghost predicate Standing(parts: seq<Part>, i: nat) { i < |parts| && Between(parts, i, |parts|) }

  ghost predicate LeadCalled(parts: seq<Part>) { exists i: nat :: Standing(parts, i) && parts[i].Tool? }

  ghost predicate LeadDispatched(parts: seq<Part>) { exists i: nat :: Standing(parts, i) && LeadDispatch(parts[i]) }

  lemma StandingNext(front: seq<Part>, p: Part)
    ensures forall i: nat | i < |front| :: Standing(front + [p], i) <==> Standing(front, i) && !Breaks(p)
    ensures Standing(front + [p], |front|)
  {
    var parts := front + [p];
    assert parts[|front|] == p;
    forall i: nat | i < |front| ensures Standing(parts, i) <==> Standing(front, i) && !Breaks(p) {
      if Standing(parts, i) {
        assert forall k | i < k < |front| :: parts[k] == front[k];
      }
    }
  }

  lemma LeadNext(front: seq<Part>, p: Part)
    ensures LeadCalled(front + [p]) <==> p.Tool? || (LeadCalled(front) && !Breaks(p))
    ensures LeadDispatched(front + [p]) <==> LeadDispatch(p) || (LeadDispatched(front) && !Breaks(p))
  {
    var parts := front + [p];
    StandingNext(front, p);
    if LeadCalled(front) && !Breaks(p) {
      var i: nat :| Standing(front, i) && front[i].Tool?;
      assert Standing(parts, i) && parts[i].Tool?;
    }
    if LeadDispatched(front) && !Breaks(p) {
      var i: nat :| Standing(front, i) && LeadDispatch(front[i]);
      assert Standing(parts, i) && LeadDispatch(parts[i]);
    }
    assert Standing(parts, |front|) && parts[|front|] == p;
  }

  lemma HiddenStill(front: seq<Part>, p: Part, i: nat, j: nat)
    requires i < |front| && j < |front|
    ensures Hidden(front + [p], i, j) <==> Hidden(front, i, j)
  {
    var parts := front + [p];
    assert forall k | 0 <= k < |front| :: parts[k] == front[k];
    if Hidden(front, i, j) {
      assert Between(parts, i, j) && Between(parts, j, i);
    }
    if Hidden(parts, i, j) {
      assert Between(front, i, j) && Between(front, j, i);
    }
  }

  lemma HiddenLast(front: seq<Part>, p: Part, i: nat)
    requires i < |front|
    ensures Hidden(front + [p], i, |front|) <==> front[i].Tool? && LeadDispatch(p) && Standing(front, i)
    ensures Hidden(front + [p], |front|, i) <==> p.Tool? && LeadDispatch(front[i]) && Standing(front, i)
  {
    var parts := front + [p];
    assert parts[i] == front[i] && parts[|front|] == p;
    assert Between(parts, |front|, i);
    assert Between(parts, i, |front|) <==> Between(front, i, |front|) by {
      assert forall k | 0 <= k < |front| :: parts[k] == front[k];
    }
  }

  lemma SomeHiddenNext(front: seq<Part>, p: Part)
    ensures SomeHidden(front + [p]) <==>
            SomeHidden(front) || (p.Tool? && LeadDispatched(front)) || (LeadDispatch(p) && LeadCalled(front))
  {
    var parts, n := front + [p], |front|;
    forall i: nat, j: nat | i < n && j < n ensures Hidden(parts, i, j) <==> Hidden(front, i, j) { HiddenStill(front, p, i, j); }
    forall i: nat | i < n ensures Hidden(parts, i, n) <==> front[i].Tool? && LeadDispatch(p) && Standing(front, i) { HiddenLast(front, p, i); }
    forall i: nat | i < n ensures Hidden(parts, n, i) <==> p.Tool? && LeadDispatch(front[i]) && Standing(front, i) { HiddenLast(front, p, i); }
    if SomeHidden(front) {
      var i: nat, j: nat :| Hidden(front, i, j);
      assert Hidden(parts, i, j);
    }
    if p.Tool? && LeadDispatched(front) {
      var i: nat :| Standing(front, i) && LeadDispatch(front[i]);
      assert Hidden(parts, n, i);
    }
    if LeadDispatch(p) && LeadCalled(front) {
      var i: nat :| Standing(front, i) && front[i].Tool?;
      assert Hidden(parts, i, n);
    }
  }

  // The walk keeps them.

  predicate AtLead(w: Walk) {
    w.open.Some? && w.open.value.groups != [] && w.open.value.groups[|w.open.value.groups| - 1].key == LEAD
  }

  function Held(w: Walk): Build
    requires AtLead(w)
  {
    w.open.value.groups[|w.open.value.groups| - 1]
  }

  /** Only a group under the lead's key holds calls. */
  ghost predicate OnlyLeadRows(w: Walk) { w.open.Some? ==> forall g <- w.open.value.groups :: g.rows != [] ==> g.key == LEAD }

  ghost predicate Tracks(w: Walk, called: bool, dispatched: bool) {
    && OnlyLeadRows(w)
    && (called <==> AtLead(w) && Held(w).rows != [])
    && (dispatched <==> AtLead(w) && Held(w).fromSteps)
  }

  /** The rows so far are the calls so far: fewer once one is hidden. */
  predicate Counts(rows: seq<Row>, calls: seq<Part>, hidden: bool)
    requires forall p <- calls :: p.Tool?
  {
    if hidden then |rows| < |calls| else rows == CallRows(calls)
  }

  lemma LastLead(groups: seq<Build>, b: Build)
    ensures BuildLead(groups + [b]) == BuildLead(groups) + LeadOf(b)
  {
    assert (groups + [b])[..|groups|] == groups;
  }

  function AllButLast(run: Run): seq<Build>
    requires run.groups != []
  {
    run.groups[..|run.groups| - 1]
  }

  function Regrouped(w: Walk, run: Run, b: Build): Walk
    requires run.groups != []
  {
    w.(open := Some(LastReplaced(run, b)))
  }

  function KeptLead(w: Walk, run: Run): seq<Row>
    requires run.groups != []
  {
    LeadRows(w.traces) + BuildLead(AllButLast(run))
  }

  lemma Associated(a: seq<Row>, b: seq<Row>, c: seq<Row>)
    ensures a + (b + c) == (a + b) + c
  {
  }

  lemma GroupBeforeRows(w: Walk, key: string, name: string)
    ensures var run := WithGroup(OpenRun(w), key, name);
            LeadSoFar(w) == KeptLead(w, run) + LeadOf(run.groups[|run.groups| - 1])
  {
    var run := WithGroup(OpenRun(w), key, name);
    var b := run.groups[|run.groups| - 1];
    assert AllButLast(run) + [b] == run.groups;
    LastLead(AllButLast(run), b);
    LastLead(OpenRun(w).groups, b);
    assert OpenLead(w) == BuildLead(OpenRun(w).groups);
    Associated(LeadRows(w.traces), BuildLead(AllButLast(run)), LeadOf(b));
  }

  /** The group of a key under way, as a part about to join it finds it. */
  lemma GroupBefore(w: Walk, key: string, name: string, called: bool, dispatched: bool)
    requires Tracks(w, called, dispatched)
    ensures var run := WithGroup(OpenRun(w), key, name);
            var b := run.groups[|run.groups| - 1];
            && b.key == key && (if key == LEAD then (called <==> b.rows != []) && (dispatched <==> b.fromSteps) else b.rows == [])
            && (forall g <- AllButLast(run) :: g.rows != [] ==> g.key == LEAD)
            && LeadSoFar(w) == KeptLead(w, run) + LeadOf(b)
  {
    var run := WithGroup(OpenRun(w), key, name);
    GroupBeforeRows(w, key, name);
    assert forall g <- AllButLast(run) :: g in OpenRun(w).groups;
  }

  lemma GroupAfter(w: Walk, run: Run, b: Build)
    requires run.groups != [] && (b.rows != [] ==> b.key == LEAD)
    requires forall g <- AllButLast(run) :: g.rows != [] ==> g.key == LEAD
    ensures Tracks(Regrouped(w, run, b), b.key == LEAD && b.rows != [], b.key == LEAD && b.fromSteps)
    ensures LeadSoFar(Regrouped(w, run, b)) == KeptLead(w, run) + LeadOf(b)
  {
    assert LastReplaced(run, b).groups == AllButLast(run) + [b];
    LastLead(AllButLast(run), b);
    Associated(LeadRows(w.traces), BuildLead(AllButLast(run)), LeadOf(b));
  }

  lemma GroupAfterOther(w: Walk, run: Run, b: Build)
    requires run.groups != [] && b.rows == [] && b.key != LEAD
    requires forall g <- AllButLast(run) :: g.rows != [] ==> g.key == LEAD
    ensures Tracks(Regrouped(w, run, b), false, false) && LeadSoFar(Regrouped(w, run, b)) == KeptLead(w, run)
  {
    GroupAfter(w, run, b);
    Shrinks(KeptLead(w, run), []);
  }

  lemma CallVisited(w: Walk, p: Part, kinds: set<string>, called: bool, dispatched: bool)
    requires p.Tool? && Tracks(w, called, dispatched)
    ensures Tracks(Visited(w, p, kinds), true, dispatched)
    ensures LeadSoFar(Visited(w, p, kinds)) == LeadSoFar(w) + if dispatched then [] else [ToolRow(p)]
  {
    var run := WithGroup(OpenRun(w), LEAD, LEAD);
    var b := run.groups[|run.groups| - 1];
    var more := b.(rows := b.rows + [ToolRow(p)]);
    GroupBefore(w, LEAD, LEAD, called, dispatched);
    GroupAfter(w, run, more);
    assert Visited(w, p, kinds) == Regrouped(w, run, more);
    Associated(KeptLead(w, run), LeadOf(b), if dispatched then [] else [ToolRow(p)]);
  }

  lemma Shrinks(kept: seq<Row>, rows: seq<Row>)
    ensures rows != [] ==> |kept + []| < |kept + rows|
    ensures kept + [] == kept
  {
  }

  function Joining(w: Walk, p: Part): Run
    requires p.Dispatch?
  {
    WithGroup(OpenRun(w), p.key, if p.name.Some? then p.name.value else p.key)
  }

  function JoinedGroup(w: Walk, p: Part): Build
    requires p.Dispatch?
  {
    Joining(w, p).groups[|Joining(w, p).groups| - 1]
  }

  lemma DispatchVisits(w: Walk, p: Part, kinds: set<string>)
    requires p.Dispatch?
    ensures Visited(w, p, kinds) == Regrouped(w, Joining(w, p), Dispatched(JoinedGroup(w, p), p))
  {
  }

  lemma LeadDispatchVisited(w: Walk, p: Part, kinds: set<string>, called: bool, dispatched: bool)
    requires LeadDispatch(p) && Tracks(w, called, dispatched)
    ensures Tracks(Visited(w, p, kinds), called, true)
    ensures called && !dispatched ==> |LeadSoFar(Visited(w, p, kinds))| < |LeadSoFar(w)|
    ensures !called || dispatched ==> LeadSoFar(Visited(w, p, kinds)) == LeadSoFar(w)
  {
    var run, b := Joining(w, p), JoinedGroup(w, p);
    GroupBefore(w, p.key, if p.name.Some? then p.name.value else p.key, called, dispatched);
    GroupAfter(w, run, Dispatched(b, p));
    DispatchVisits(w, p, kinds);
    Shrinks(KeptLead(w, run), LeadOf(b));
  }

  lemma OtherDispatchVisited(w: Walk, p: Part, kinds: set<string>, called: bool, dispatched: bool)
    requires p.Dispatch? && p.key != LEAD && Tracks(w, called, dispatched)
    ensures Tracks(Visited(w, p, kinds), false, false)
    ensures LeadSoFar(Visited(w, p, kinds)) == LeadSoFar(w)
  {
    var run, b := Joining(w, p), JoinedGroup(w, p);
    GroupBefore(w, p.key, if p.name.Some? then p.name.value else p.key, called, dispatched);
    GroupAfterOther(w, run, Dispatched(b, p));
    DispatchVisits(w, p, kinds);
    Shrinks(KeptLead(w, run), LeadOf(b));
  }

  lemma {:induction false} SteppedLead(groups: seq<Build>, at: nat, b: Build)
    requires at < |groups| && b.rows == groups[at].rows && b.fromSteps == groups[at].fromSteps
    ensures BuildLead(groups[at := b]) == BuildLead(groups)
  {
    var front := groups[..|groups| - 1];
    if at < |front| {
      assert groups[at := b][..|front|] == front[at := b];
      SteppedLead(front, at, b);
    } else {
      assert groups[at := b][..|front|] == front;
    }
  }

  lemma StepVisited(w: Walk, parent: string, step: SubAgentSteps.Step, called: bool, dispatched: bool)
    requires Tracks(w, called, dispatched)
    ensures Tracks(StepPushed(w, parent, step), called, dispatched)
    ensures LeadSoFar(StepPushed(w, parent, step)) == LeadSoFar(w)
  {
    if w.open.Some? && GroupAt(w.open.value.groups, parent) < |w.open.value.groups| {
      var groups := w.open.value.groups;
      var at := GroupAt(groups, parent);
      var b := groups[at].(steps := groups[at].steps + [step]);
      SteppedLead(groups, at, b);
      assert forall g <- groups[at := b] :: g == b || g in groups;
      assert groups[at] in groups;
    }
  }

  lemma {:induction false} FinalizedLead(builds: seq<Build>)
    ensures GroupLead(FinalizedAll(builds)) == BuildLead(builds)
    ensures RowCount(FinalizedAll(builds)) == 0 ==> BuildLead(builds) == []
  {
    if builds != [] {
      var front := builds[..|builds| - 1];
      FinalizedLead(front);
      assert FinalizedAll(builds)[..|front|] == FinalizedAll(front);
    }
  }

  lemma ClosedLead(w: Walk)
    ensures LeadSoFar(RunClosed(w)) == LeadSoFar(w) && RunClosed(w).open.None?
  {
    if w.open.Some? {
      var groups := FinalizedAll(w.open.value.groups);
      FinalizedLead(w.open.value.groups);
      var t := Trace(groups, w.open.value.figures, RowCount(groups), false);
      assert (w.traces + [t])[..|w.traces|] == w.traces;
    }
  }

  lemma HiddenWhereBoth(parts: seq<Part>)
    requires LeadCalled(parts) && LeadDispatched(parts)
    ensures SomeHidden(parts)
  {
    var i: nat :| Standing(parts, i) && parts[i].Tool?;
    var j: nat :| Standing(parts, j) && LeadDispatch(parts[j]);
    assert Hidden(parts, i, j);
  }

  /** What holds of the walk of a message so far. */
  ghost predicate KeepsSome(w: Walk, calls: seq<Part>, called: bool, dispatched: bool, hidden: bool)
    requires forall p <- calls :: p.Tool?
  {
    Tracks(w, called, dispatched) && Counts(LeadSoFar(w), calls, hidden)
  }

  ghost predicate KeepsCalls(parts: seq<Part>, kinds: set<string>) {
    KeepsSome(WalkOf(parts, kinds), Calls(parts), LeadCalled(parts), LeadDispatched(parts), SomeHidden(parts))
  }

  lemma CallsNext(front: seq<Part>, p: Part, kinds: set<string>)
    ensures Calls(front + [p]) == Calls(front) + if p.Tool? then [p] else []
    ensures WalkOf(front + [p], kinds) == Visited(WalkOf(front, kinds), p, kinds)
  {
    assert (front + [p])[..|front|] == front;
  }

  lemma CallRowsNext(calls: seq<Part>, p: Part)
    requires p.Tool? && forall q <- calls :: q.Tool?
    ensures CallRows(calls + [p]) == CallRows(calls) + [ToolRow(p)]
  {
  }

  lemma CountsCall(rows: seq<Row>, calls: seq<Part>, p: Part, dispatched: bool, hidden: bool)
    requires p.Tool? && (forall q <- calls :: q.Tool?) && Counts(rows, calls, hidden)
    ensures Counts(rows + if dispatched then [] else [ToolRow(p)], calls + [p], hidden || dispatched)
  {
    CallRowsNext(calls, p);
  }

  lemma KeepsSomeCall(w: Walk, p: Part, kinds: set<string>, calls: seq<Part>, called: bool, dispatched: bool, hidden: bool)
    requires p.Tool? && (forall q <- calls :: q.Tool?) && KeepsSome(w, calls, called, dispatched, hidden)
    ensures KeepsSome(Visited(w, p, kinds), calls + [p], true, dispatched, hidden || dispatched)
  {
    CallVisited(w, p, kinds, called, dispatched);
    CountsCall(LeadSoFar(w), calls, p, dispatched, hidden);
  }

  lemma KeepsSomeLead(w: Walk, p: Part, kinds: set<string>, calls: seq<Part>, called: bool, dispatched: bool, hidden: bool)
    requires LeadDispatch(p) && (forall q <- calls :: q.Tool?) && KeepsSome(w, calls, called, dispatched, hidden)
    requires called && dispatched ==> hidden
    ensures KeepsSome(Visited(w, p, kinds), calls, called, true, hidden || called)
  {
    LeadDispatchVisited(w, p, kinds, called, dispatched);
    assert |CallRows(calls)| == |calls|;
  }

  /** Of a part that is no call and no dispatch under the lead's key. */
  lemma KeepsSomeOther(w: Walk, p: Part, kinds: set<string>, calls: seq<Part>, called: bool, dispatched: bool, hidden: bool)
    requires !p.Tool? && !LeadDispatch(p) && (forall q <- calls :: q.Tool?) && KeepsSome(w, calls, called, dispatched, hidden)
    ensures KeepsSome(Visited(w, p, kinds), calls, called && !Breaks(p), dispatched && !Breaks(p), hidden)
  {
    if p.Dispatch? {
      OtherDispatchVisited(w, p, kinds, called, dispatched);
    } else if p.StepPart? {
      StepVisited(w, p.parent, p.step, called, dispatched);
    } else if Breaks(p) {
      ClosedLead(w);
    }
  }

  lemma KeepsCallsNext(front: seq<Part>, p: Part, kinds: set<string>)
    requires KeepsCalls(front, kinds)
    ensures KeepsCalls(front + [p], kinds)
  {
    LeadNext(front, p);
    SomeHiddenNext(front, p);
    CallsNext(front, p, kinds);
    if LeadCalled(front) && LeadDispatched(front) {
      HiddenWhereBoth(front);
    }
    var w, calls, called, dispatched := WalkOf(front, kinds), Calls(front), LeadCalled(front), LeadDispatched(front);
    if p.Tool? {
      KeepsSomeCall(w, p, kinds, calls, called, dispatched, SomeHidden(front));
    } else if LeadDispatch(p) {
      KeepsSomeLead(w, p, kinds, calls, called, dispatched, SomeHidden(front));
    } else {
      KeepsSomeOther(w, p, kinds, calls, called, dispatched, SomeHidden(front));
    }
  }

  lemma {:induction false} WalkKeepsCalls(parts: seq<Part>, kinds: set<string>)
    ensures KeepsCalls(parts, kinds)
  {
    if parts != [] {
      var front, p := parts[..|parts| - 1], parts[|parts| - 1];
      assert parts == front + [p];
      WalkKeepsCalls(front, kinds);
      KeepsCallsNext(front, p, kinds);
    }
  }

  // The lines left beside the calls.

  /** A summary that gives a call a line, its status read as fine where the wire names none of the known ones. */
  predicate Gives(p: Part, call: string, line: T.Line) {
    && p.SummaryLine? && p.fields.Some? && p.fields.value.call == Some(call) && p.fields.value.summary == Some(line.summary)
    && line.status == (
         if p.fields.value.status == Some("empty") then SummaryEmpty
         else if p.fields.value.status == Some("warn") then SummaryWarn
         else if p.fields.value.status == Some("corrected") then SummaryCorrected
         else SummaryOk)
  }

  ghost predicate GivesSome(p: Part, call: string) { exists line :: Gives(p, call, line) }

  ghost predicate LastGiven(parts: seq<Part>, i: nat, call: string, line: T.Line) {
    i < |parts| && Gives(parts[i], call, line) && forall j | i < j < |parts| :: !GivesSome(parts[j], call)
  }

  ghost predicate NoneGiven(parts: seq<Part>, call: string) { forall p <- parts :: !GivesSome(p, call) }

  /** The line of a call is the one the last summary for it gives. */
  ghost predicate LineIsLast(parts: seq<Part>, lines: map<string, T.Line>, call: string) {
    if call in lines then exists i: nat :: LastGiven(parts, i, call, lines[call]) else NoneGiven(parts, call)
  }

  ghost predicate LinesAreLast(parts: seq<Part>, lines: map<string, T.Line>) { forall call :: LineIsLast(parts, lines, call) }

  lemma LineReadGives(p: Part, call: string, line: T.Line)
    requires p.SummaryLine?
    ensures LineRead(p.fields) == Some((call, line)) <==> Gives(p, call, line)
  {
  }

  function Recorded(lines: map<string, T.Line>, p: Part): map<string, T.Line> {
    if p.SummaryLine? then LineRecorded(lines, p.fields) else lines
  }

  lemma RecordedGives(lines: map<string, T.Line>, p: Part, call: string)
    ensures GivesSome(p, call) ==> call in Recorded(lines, p) && Gives(p, call, Recorded(lines, p)[call])
    ensures !GivesSome(p, call) ==> (call in Recorded(lines, p) <==> call in lines)
    ensures !GivesSome(p, call) && call in lines ==> Recorded(lines, p)[call] == lines[call]
  {
    if GivesSome(p, call) {
      var line :| Gives(p, call, line);
      LineReadGives(p, call, line);
    } else if p.SummaryLine? && LineRead(p.fields).Some? {
      LineReadGives(p, LineRead(p.fields).value.0, LineRead(p.fields).value.1);
    }
  }

  lemma LineNext(front: seq<Part>, p: Part, lines: map<string, T.Line>, call: string)
    requires LineIsLast(front, lines, call)
    ensures LineIsLast(front + [p], Recorded(lines, p), call)
  {
    var parts, more := front + [p], Recorded(lines, p);
    RecordedGives(lines, p, call);
    if GivesSome(p, call) {
      assert LastGiven(parts, |front|, call, more[call]);
    } else if call in lines {
      var i: nat :| LastGiven(front, i, call, lines[call]);
      assert LastGiven(parts, i, call, more[call]);
    }
  }

  lemma {:induction false} WalkReadsLines(parts: seq<Part>, kinds: set<string>)
    ensures LinesAreLast(parts, WalkOf(parts, kinds).lines)
  {
    if parts != [] {
      var front, p := parts[..|parts| - 1], parts[|parts| - 1];
      var lines := WalkOf(front, kinds).lines;
      WalkReadsLines(front, kinds);
      VisitRecords(WalkOf(front, kinds), p, kinds);
      forall call ensures LineIsLast(parts, Recorded(lines, p), call) {
        assert parts == front + [p];
        LineNext(front, p, lines, call);
      }
    } else {
      assert forall call :: NoneGiven(parts, call);
    }
  }

  lemma VisitRecords(w: Walk, p: Part, kinds: set<string>)
    ensures Visited(w, p, kinds).lines == Recorded(w.lines, p)
  {
  }

  // The message's calls are its lead rows.

  lemma {:induction false} SettledLead(groups: seq<Group>, settled: seq<Group>, state: Option<GroupState>, lines: map<string, T.Line>)
    requires |settled| == |groups| && forall i | 0 <= i < |groups| :: settled[i] == Settled(groups[i], state, lines)
    ensures GroupLead(settled) == DressedRows(GroupLead(groups), lines)
  {
    if groups != [] {
      var front, g := groups[..|groups| - 1], groups[|groups| - 1];
      SettledLead(front, settled[..|front|], state, lines);
      DressedMore(GroupLead(front), if g.dispatch then [] else g.rows, lines);
    }
  }

  lemma DressedMore(a: seq<Row>, b: seq<Row>, lines: map<string, T.Line>)
    ensures DressedRows(a + b, lines) == DressedRows(a, lines) + DressedRows(b, lines)
  {
  }

  lemma {:induction false} SettledTracesLead(traces: seq<Trace>, state: Option<GroupState>, lines: map<string, T.Line>)
    ensures LeadRows(SettledTraces(traces, state, lines)) == DressedRows(LeadRows(traces), lines)
  {
    if traces != [] {
      var front, t := traces[..|traces| - 1], traces[|traces| - 1];
      SettledTracesLead(front, state, lines);
      assert SettledTraces(traces, state, lines)[..|front|] == SettledTraces(front, state, lines);
      SettledLead(t.groups, SettledTrace(t, state, lines).groups, state, lines);
      DressedMore(LeadRows(front), GroupLead(t.groups), lines);
    }
  }

  /** Each call has its row, in order and only once, with the line the last summary beside gave it. */
  ghost predicate ShowsCalls(rows: seq<Row>, parts: seq<Part>, lines: map<string, T.Line>) {
    && |rows| == |Calls(parts)|
    && forall i | 0 <= i < |rows| :: Shows(rows[i], Calls(parts)[i], LineFor(lines, Calls(parts)[i].call))
  }

  lemma CallRowsShow(parts: seq<Part>, lines: map<string, T.Line>)
    ensures ShowsCalls(DressedRows(CallRows(Calls(parts)), lines), parts, lines)
  {
    var calls := Calls(parts);
    forall i | 0 <= i < |calls| ensures Shows(DressedRows(CallRows(calls), lines)[i], calls[i], LineFor(lines, calls[i].call)) {
      ToolRowShows(calls[i], lines);
    }
  }

  lemma RowsShown(parts: seq<Part>, rows: seq<Row>, lines: map<string, T.Line>, hidden: bool)
    requires Counts(rows, Calls(parts), hidden)
    ensures ShowsCalls(DressedRows(rows, lines), parts, lines) <==> !hidden
  {
    CallRowsShow(parts, lines);
  }

  /** The lead rows of a message's traces are its calls, unless a dispatch under the lead's key hides one. */
  lemma CallsAreShownExactly(parts: seq<Part>, kinds: set<string>, turnEnded: bool, lines: map<string, T.Line>)
    requires LinesAreLast(parts, lines)
    ensures ShowsCalls(LeadRows(TraceOf(parts, kinds, turnEnded)), parts, lines) <==> !SomeHidden(parts)
  {
    var walk := WalkOf(parts, kinds);
    WalkKeepsCalls(parts, kinds);
    ClosedLead(walk);
    WalkReadsLines(parts, kinds);
    LinesAgree(parts, lines, walk.lines);
    SettledTracesLead(RunClosed(walk).traces, ClosingState(parts, turnEnded), lines);
    assert LeadSoFar(RunClosed(walk)) == LeadRows(RunClosed(walk).traces);
    RowsShown(parts, LeadSoFar(walk), lines, SomeHidden(parts));
  }

  lemma LineAgrees(parts: seq<Part>, a: map<string, T.Line>, b: map<string, T.Line>, call: string)
    requires LineIsLast(parts, a, call) && LineIsLast(parts, b, call)
    ensures LineFor(a, call) == LineFor(b, call)
  {
    if call in a && call in b {
      var i: nat :| LastGiven(parts, i, call, a[call]);
      var j: nat :| LastGiven(parts, j, call, b[call]);
      assert GivesSome(parts[i], call) && GivesSome(parts[j], call);
    } else if call in a {
      var i: nat :| LastGiven(parts, i, call, a[call]);
      assert GivesSome(parts[i], call);
    } else if call in b {
      var i: nat :| LastGiven(parts, i, call, b[call]);
      assert GivesSome(parts[i], call);
    }
  }

  lemma LinesAgree(parts: seq<Part>, a: map<string, T.Line>, b: map<string, T.Line>)
    requires LinesAreLast(parts, a) && LinesAreLast(parts, b)
    ensures a == b
  {
    forall call ensures LineFor(a, call) == LineFor(b, call) {
      assert LineIsLast(parts, a, call) && LineIsLast(parts, b, call);
      LineAgrees(parts, a, b, call);
    }
    assert forall call | call in a :: LineFor(a, call) == LineFor(b, call);
    assert forall call | call in b :: LineFor(a, call) == LineFor(b, call);
  }

  // What runs.

  predicate RunsOrAwaits(r: Row) { r.status.RowRunning? || r.status.RowAwaiting? }

  ghost predicate SomeRuns(t: Trace) { exists g <- t.groups :: exists r <- g.rows :: RunsOrAwaits(r) }

  lemma {:induction false} WalkIsQuiet(parts: seq<Part>, kinds: set<string>)
    ensures forall t <- WalkOf(parts, kinds).traces :: !t.running
  {
    if parts != [] {
      var front, p := parts[..|parts| - 1], parts[|parts| - 1];
      WalkIsQuiet(front, kinds);
      assert WalkOf(parts, kinds).traces == WalkOf(front, kinds).traces || WalkOf(parts, kinds) == RunClosed(WalkOf(front, kinds));
    }
  }

  /** A trace runs exactly when a row of it runs or waits for an approval. */
  lemma RunsExactlyWhileARowDoes(parts: seq<Part>, kinds: set<string>, turnEnded: bool)
    ensures forall t <- TraceOf(parts, kinds, turnEnded) :: t.running <==> SomeRuns(t)
  {
    WalkIsQuiet(parts, kinds);
    var w, state := RunClosed(WalkOf(parts, kinds)), ClosingState(parts, turnEnded);
    forall t <- TraceOf(parts, kinds, turnEnded) ensures t.running <==> SomeRuns(t) {
      var i :| 0 <= i < |w.traces| && t == SettledTrace(w.traces[i], state, w.lines);
      assert !w.traces[i].running;
      assert forall g <- t.groups :: Live(g) <==> exists r <- g.rows :: RunsOrAwaits(r);
    }
  }
}
