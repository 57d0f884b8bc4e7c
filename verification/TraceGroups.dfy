/** What a trace shows of a stretch of work: its groups, the rows of its sub-agents and its figures. */
module TraceGroups {
  import opened Wrappers
  import opened Chunks
  import opened SubAgentSteps
  import opened Trace
  import opened TraceRows
  import T = TurnReducer

  // The rows of a sub-agent.

  /** A row of a sub-agent's call, which began at a step: as the call's last step says, unless its dispatch was closed. */
  ghost predicate SubShows(row: Row, steps: seq<Step>, first: nat, stopped: bool, beside: Option<T.Line>) {
    && First(steps, first, row.call) && row.tool == Or(steps[first].tool, "unknown")
    && row.input == Some(LastArgs(steps, row.call)) && row.output == LastOutput(steps, row.call)
    && exists last: nat :: Last(steps, last, row.call) &&
         SubSays(row, steps[last].state, LastResult(steps, row.call, steps[first].resultSummary), stopped, beside)
  }

  predicate SubSays(row: Row, state: StepState, result: Option<string>, stopped: bool, beside: Option<T.Line>) {
    && !row.status.RowAwaiting?
    && (row.status.RowRunning? <==> state.Started? && !stopped)
    && (row.status.RowStopped? <==> state.Started? && stopped)
    && (row.status.RowDenied? <==> state.Denied?)
    && (row.status.RowCorrected? <==> state.Corrected? || (state.Failed? && Reads(beside, SummaryCorrected)))
    && (row.status.RowError? <==> state.Failed? && !Reads(beside, SummaryCorrected))
    && (row.status.RowEmpty? <==> state.Completed? && Reads(beside, SummaryEmpty))
    && (row.status.RowWarn? <==> state.Completed? && Reads(beside, SummaryWarn))
    && row.errorText == (if state.Failed? || state.Corrected? then result else None)
    && row.summary == (if beside.Some? then Some(beside.value.summary) else if state.Failed? || state.Corrected? then None else result)
  }

  function Ended(row: Row, stopped: bool): Row { if stopped then StoppedRow(row) else row }

  lemma {:induction false} ItemRowSays(item: Item, state: StepState, stopped: bool, lines: map<string, T.Line>)
    requires item.ToolItem? && item.state == state
    ensures SubSays(Dressed(Ended(ItemRow(item), stopped), lines), state, item.result, stopped, LineFor(lines, item.key))
  {
    match state
    case Started =>
    case Completed =>
    case Failed =>
    case Corrected =>
    case Denied =>
  }

  lemma ItemRowShows(item: Item, steps: seq<Step>, first: nat, stopped: bool, lines: map<string, T.Line>)
    requires TellsCall(item, steps, first)
    ensures SubShows(Dressed(Ended(ItemRow(item), stopped), lines), steps, first, stopped, LineFor(lines, item.key))
  {
    var last: nat :| Last(steps, last, item.key) && item.state == steps[last].state;
    ItemRowSays(item, item.state, stopped, lines);
  }

  /** The steps that begin a call. */
  function CallsAmong(steps: seq<Step>, begins: seq<nat>): seq<nat> {
    if begins == [] then []
    else
      var last := begins[|begins| - 1];
      CallsAmong(steps, begins[..|begins| - 1]) + if last < |steps| && steps[last].kind.ToolStep? then [last] else []
  }

  ghost function CallSteps(steps: seq<Step>): seq<nat> { CallsAmong(steps, Beginnings(steps)) }

  ghost predicate RowsOfCalls(rows: seq<Row>, steps: seq<Step>, calls: seq<nat>, stopped: bool, lines: map<string, T.Line>) {
    && |rows| == |calls|
    && forall k | 0 <= k < |rows| :: SubShows(rows[k], steps, calls[k], stopped, LineFor(lines, rows[k].call))
  }

  function EndedRows(rows: seq<Row>, stopped: bool, lines: map<string, T.Line>): seq<Row> {
    seq(|rows|, i requires 0 <= i < |rows| => Dressed(Ended(rows[i], stopped), lines))
  }

  lemma {:induction false} ItemRowsShow(items: seq<Item>, steps: seq<Step>, begins: seq<nat>, stopped: bool, lines: map<string, T.Line>)
    requires AllTell(items, steps, begins)
    ensures RowsOfCalls(EndedRows(ItemRows(items), stopped, lines), steps, CallsAmong(steps, begins), stopped, lines)
  {
    if items != [] {
      var front, item := items[..|items| - 1], items[|items| - 1];
      var before, first := begins[..|begins| - 1], begins[|begins| - 1];
      ItemRowsShow(front, steps, before, stopped, lines);
      assert Tells(item, steps, first);
      if item.ToolItem? {
        ItemRowShows(item, steps, first, stopped, lines);
        assert EndedRows(ItemRows(items), stopped, lines) ==
               EndedRows(ItemRows(front), stopped, lines) + [Dressed(Ended(ItemRow(item), stopped), lines)];
      }
    }
  }

  /** Whether a dispatch's open rows are read as stopped: the turn ended without it, and not by another taking its place. */
  predicate Stops(said: GroupState, closing: Option<GroupState>) { said.GroupStarted? && closing.Some? && !closing.value.GroupSuperseded? }

  /** Each call of a dispatch has its row, in the order they began. */
  lemma SubAgentRowsShow(b: Build, closing: Option<GroupState>, lines: map<string, T.Line>)
    requires b.fromSteps
    ensures RowsOfCalls(Settled(Finalized(b), closing, lines).rows, b.steps, CallSteps(b.steps), Stops(b.state, closing), lines)
  {
    var stopped, rows := Stops(b.state, closing), ItemRows(MergedSteps(b.steps));
    ItemsTellTheirSteps(b.steps);
    ItemRowsShow(MergedSteps(b.steps), b.steps, Beginnings(b.steps), stopped, lines);
    assert Settled(Finalized(b), closing, lines).rows == EndedRows(rows, stopped, lines);
  }

  lemma {:induction false} CallsAmongAre(steps: seq<Step>, begins: seq<nat>, i: nat)
    ensures i in CallsAmong(steps, begins) <==> i in begins && i < |steps| && steps[i].kind.ToolStep?
  {
    if begins != [] {
      var front, last := begins[..|begins| - 1], begins[|begins| - 1];
      CallsAmongAre(steps, front, i);
      assert begins == front + [last];
    }
  }

  predicate Ascends(at: seq<nat>) { forall j, k | 0 <= j < k < |at| :: at[j] < at[k] }

  lemma AscendsMore(at: seq<nat>, last: nat)
    requires Ascends(at) && forall i <- at :: i < last
    ensures Ascends(at + [last])
  {
    forall j, k | 0 <= j < k < |at + [last]| ensures (at + [last])[j] < (at + [last])[k] {
      assert at[j] in at;
    }
  }

  lemma {:induction false} CallsAmongAscend(steps: seq<Step>, begins: seq<nat>)
    requires Ascends(begins)
    ensures Ascends(CallsAmong(steps, begins))
  {
    if begins != [] {
      var front, last := begins[..|begins| - 1], begins[|begins| - 1];
      CallsAmongAscend(steps, front);
      forall i <- CallsAmong(steps, front) ensures i < last {
        CallsAmongAre(steps, front, i);
        var k :| 0 <= k < |front| && front[k] == i;
        assert begins[k] < begins[|front|];
      }
      AscendsMore(CallsAmong(steps, front), last);
    }
  }

  /** They are the steps that begin a call, each once and in order. */
  lemma CallStepsInOrder(steps: seq<Step>)
    ensures Ascends(CallSteps(steps))
    ensures forall i: nat :: i in CallSteps(steps) <==> i < |steps| && steps[i].kind.ToolStep? && First(steps, i, Key(steps[i], i))
  {
    BeginningsInOrder(steps);
    CallsAmongAscend(steps, Beginnings(steps));
    forall i: nat ensures i in CallSteps(steps) <==> i < |steps| && steps[i].kind.ToolStep? && First(steps, i, Key(steps[i], i)) {
      CallsAmongAre(steps, Beginnings(steps), i);
    }
  }

  // The groups of a stretch.

  /** Words that frame the work. */
  predicate Frames(p: Part) { p.Prose? && !p.blank }

  predicate Stretch(parts: seq<Part>) { forall p <- parts :: !Frames(p) }

  /** The key of the group a part joins, if it joins one. */
  function GroupKey(p: Part): Option<string> {
    if p.Tool? then Some(LEAD) else if p.Dispatch? then Some(p.key) else None
  }

  function KeyAt(parts: seq<Part>, i: nat): Option<string> { if i < |parts| then GroupKey(parts[i]) else None }

  /** Positions of parts that join one group, in order. */
  ghost predicate Within(parts: seq<Part>, block: seq<nat>) {
    && block != [] && KeyAt(parts, block[0]).Some?
    && (forall k | 0 <= k < |block| :: KeyAt(parts, block[k]) == KeyAt(parts, block[0]))
    && (forall j, k | 0 <= j < k < |block| :: block[j] < block[k])
  }

  predicate Follows(parts: seq<Part>, before: seq<nat>, block: seq<nat>) {
    before != [] && block != [] && before[|before| - 1] < block[0] && KeyAt(parts, before[0]) != KeyAt(parts, block[0])
  }

  ghost predicate Grouped(blocks: seq<seq<nat>>, i: nat) { exists g | 0 <= g < |blocks| :: i in blocks[g] }

  ghost predicate IsCut(parts: seq<Part>, blocks: seq<seq<nat>>) {
    && (forall g | 0 <= g < |blocks| :: Within(parts, blocks[g]))
    && (forall g | 0 < g < |blocks| :: Follows(parts, blocks[g - 1], blocks[g]))
  }

  /** The parts that join a group are cut, in order, exactly where the key changes. */
  ghost predicate IsGrouping(parts: seq<Part>, blocks: seq<seq<nat>>) {
    && IsCut(parts, blocks)
    && (forall i: nat :: KeyAt(parts, i).Some? ==> Grouped(blocks, i))
  }

  function Blocks(parts: seq<Part>): seq<seq<nat>> {
    if parts == [] then [] else BlocksWith(Blocks(parts[..|parts| - 1]), parts, |parts| - 1)
  }

  function BlocksWith(blocks: seq<seq<nat>>, parts: seq<Part>, n: nat): seq<seq<nat>> {
    if KeyAt(parts, n).None? then blocks
    else if blocks != [] && blocks[|blocks| - 1] != [] && KeyAt(parts, blocks[|blocks| - 1][0]) == KeyAt(parts, n)
    then LastGrown(blocks, n) else blocks + [[n]]
  }

  lemma WithinStill(front: seq<Part>, p: Part, block: seq<nat>)
    requires Within(front, block)
    ensures Within(front + [p], block) && KeyAt(front + [p], block[0]) == KeyAt(front, block[0])
    ensures forall k | 0 <= k < |block| :: block[k] < |front|
  {
    assert forall k | 0 <= k < |block| :: KeyAt(front, block[k]).Some? && KeyAt(front + [p], block[k]) == KeyAt(front, block[k]);
  }

  lemma WithinMore(front: seq<Part>, p: Part, block: seq<nat>)
    requires Within(front, block) && GroupKey(p) == KeyAt(front, block[0])
    ensures Within(front + [p], block + [|front|])
  {
    WithinStill(front, p, block);
  }

  lemma GroupedMore(blocks: seq<seq<nat>>, more: seq<seq<nat>>, i: nat)
    requires Grouped(blocks, i) && |blocks| <= |more|
    requires forall g | 0 <= g < |blocks| :: blocks[g] <= more[g]
    ensures Grouped(more, i)
  {
    var g :| 0 <= g < |blocks| && i in blocks[g];
    assert i in more[g];
  }

  lemma CutStill(front: seq<Part>, p: Part, blocks: seq<seq<nat>>)
    requires IsCut(front, blocks)
    ensures IsCut(front + [p], blocks)
    ensures forall g | 0 <= g < |blocks| :: Within(front, blocks[g]) && blocks[g][|blocks[g]| - 1] < |front|
  {
    forall g | 0 <= g < |blocks|
      ensures Within(front + [p], blocks[g]) && blocks[g][|blocks[g]| - 1] < |front|
      ensures KeyAt(front + [p], blocks[g][0]) == KeyAt(front, blocks[g][0])
    {
      WithinStill(front, p, blocks[g]);
    }
    forall g | 0 < g < |blocks| ensures Follows(front + [p], blocks[g - 1], blocks[g]) {
      assert Follows(front, blocks[g - 1], blocks[g]);
    }
  }

  lemma CutJoined(parts: seq<Part>, blocks: seq<seq<nat>>, n: nat)
    requires IsCut(parts, blocks) && blocks != []
    requires Within(parts, blocks[|blocks| - 1] + [n])
    ensures IsCut(parts, LastGrown(blocks, n))
  {
    var more := LastGrown(blocks, n);
    forall g | 0 < g < |more| ensures Follows(parts, more[g - 1], more[g]) {
      assert Follows(parts, blocks[g - 1], blocks[g]);
    }
  }

  lemma CutOpened(parts: seq<Part>, blocks: seq<seq<nat>>, n: nat)
    requires IsCut(parts, blocks) && KeyAt(parts, n).Some?
    requires blocks != [] ==> Follows(parts, blocks[|blocks| - 1], [n])
    ensures IsCut(parts, blocks + [[n]])
  {
  }

  lemma StillGrouped(front: seq<Part>, p: Part, blocks: seq<seq<nat>>, more: seq<seq<nat>>)
    requires (forall i: nat :: KeyAt(front, i).Some? ==> Grouped(blocks, i)) && |blocks| <= |more|
    requires forall g | 0 <= g < |blocks| :: blocks[g] <= more[g]
    requires GroupKey(p).Some? ==> Grouped(more, |front|)
    ensures forall i: nat :: KeyAt(front + [p], i).Some? ==> Grouped(more, i)
  {
    forall i: nat | KeyAt(front + [p], i).Some? ensures Grouped(more, i) {
      if i < |front| {
        assert KeyAt(front, i).Some?;
        GroupedMore(blocks, more, i);
      }
    }
  }

  function LastGrown(blocks: seq<seq<nat>>, n: nat): seq<seq<nat>>
    requires blocks != []
  {
    blocks[|blocks| - 1 := blocks[|blocks| - 1] + [n]]
  }

  lemma LastGrows(blocks: seq<seq<nat>>, n: nat)
    requires blocks != []
    ensures forall g | 0 <= g < |blocks| :: blocks[g] <= LastGrown(blocks, n)[g]
    ensures Grouped(LastGrown(blocks, n), n)
  {
    assert n in LastGrown(blocks, n)[|blocks| - 1];
  }

  lemma GroupingJoined(front: seq<Part>, p: Part, blocks: seq<seq<nat>>)
    requires IsGrouping(front, blocks) && blocks != []
    requires Within(front, blocks[|blocks| - 1]) && GroupKey(p) == KeyAt(front, blocks[|blocks| - 1][0])
    ensures IsGrouping(front + [p], LastGrown(blocks, |front|))
  {
    CutStill(front, p, blocks);
    WithinMore(front, p, blocks[|blocks| - 1]);
    CutJoined(front + [p], blocks, |front|);
    LastGrows(blocks, |front|);
    StillGrouped(front, p, blocks, LastGrown(blocks, |front|));
  }

  lemma GroupingOpened(front: seq<Part>, p: Part, blocks: seq<seq<nat>>)
    requires IsGrouping(front, blocks) && GroupKey(p).Some?
    requires blocks != [] ==> Within(front, blocks[|blocks| - 1]) && GroupKey(p) != KeyAt(front, blocks[|blocks| - 1][0])
    ensures IsGrouping(front + [p], blocks + [[|front|]])
  {
    var more := blocks + [[|front|]];
    CutStill(front, p, blocks);
    if blocks != [] {
      WithinStill(front, p, blocks[|blocks| - 1]);
    }
    CutOpened(front + [p], blocks, |front|);
    assert |front| in more[|blocks|];
    StillGrouped(front, p, blocks, more);
  }

  lemma GroupingNext(front: seq<Part>, p: Part, blocks: seq<seq<nat>>)
    requires IsGrouping(front, blocks)
    ensures IsGrouping(front + [p], BlocksWith(blocks, front + [p], |front|))
  {
    assert KeyAt(front + [p], |front|) == GroupKey(p);
    if blocks != [] {
      WithinStill(front, p, blocks[|blocks| - 1]);
    }
    if GroupKey(p).None? {
      CutStill(front, p, blocks);
      StillGrouped(front, p, blocks, blocks);
    } else if blocks != [] && GroupKey(p) == KeyAt(front, blocks[|blocks| - 1][0]) {
      GroupingJoined(front, p, blocks);
    } else {
      GroupingOpened(front, p, blocks);
    }
  }

  lemma {:induction false} BlocksGroup(parts: seq<Part>)
    ensures IsGrouping(parts, Blocks(parts))
  {
    if parts != [] {
      var front, p := parts[..|parts| - 1], parts[|parts| - 1];
      BlocksGroup(front);
      assert parts == front + [p];
      GroupingNext(front, p, Blocks(front));
    }
  }

  // What a group holds of its parts.

  /** The calls among some parts. */
  function CallsAt(parts: seq<Part>, block: seq<nat>): (calls: seq<Part>)
    ensures forall p <- calls :: p.Tool?
  {
    if block == [] then []
    else
      var i := block[|block| - 1];
      CallsAt(parts, block[..|block| - 1]) + if i < |parts| && parts[i].Tool? then [parts[i]] else []
  }

  predicate DispatchAt(parts: seq<Part>, i: nat) { i < |parts| && parts[i].Dispatch? }

  /** The last that the dispatches among some parts say of a thing. */
  function Said<A>(parts: seq<Part>, block: seq<nat>, says: Part -> Option<A>, otherwise: A): A {
    if block == [] then otherwise
    else
      var i := block[|block| - 1];
      if DispatchAt(parts, i) && says(parts[i]).Some? then says(parts[i]).value else Said(parts, block[..|block| - 1], says, otherwise)
  }

  function NameOf(p: Part): Option<string> { if p.Dispatch? then p.name else None }
  function StateOf(p: Part): Option<GroupState> { if p.Dispatch? then p.state else None }
  function TokensOf(p: Part): Option<int> { if p.Dispatch? then p.tokens else None }
  function CostOf(p: Part): Option<string> { if p.Dispatch? then p.cost else None }

  /** The steps of a key that come after a position. */
  function StepsFor(parts: seq<Part>, key: string, from: nat): seq<Step> {
    if parts == [] then []
    else
      var p := parts[|parts| - 1];
      StepsFor(parts[..|parts| - 1], key, from) + if p.StepPart? && p.parent == key && from < |parts| - 1 then [p.step] else []
  }

  ghost predicate Dispatches(parts: seq<Part>, block: seq<nat>) { exists k | 0 <= k < |block| :: DispatchAt(parts, block[k]) }

  ghost predicate Carries(b: Build, parts: seq<Part>, block: seq<nat>) {
    && (b.fromSteps <==> Dispatches(parts, block))
    && b.rows == CallRows(CallsAt(parts, block))
    && b.name == Said(parts, block, NameOf, b.key) && b.state == Said(parts, block, StateOf, GroupStarted)
    && b.tokens == Said(parts, block, TokensOf, 0) && b.cost == Said(parts, block, CostOf, "0")
  }

  /** A group is of its parts. The steps under its key are those of the first group with that key. */
  ghost predicate GroupTells(b: Build, parts: seq<Part>, block: seq<nat>, first: bool) {
    && Within(parts, block) && KeyAt(parts, block[0]) == Some(b.key)
    && Carries(b, parts, block)
    && b.steps == if first then StepsFor(parts, b.key, block[0]) else []
  }

  predicate FirstUnder(groups: seq<Build>, g: nat)
    requires g < |groups|
  {
    forall h | 0 <= h < g :: groups[h].key != groups[g].key
  }

  ghost predicate TellsAt(groups: seq<Build>, parts: seq<Part>, blocks: seq<seq<nat>>, g: nat)
    requires g < |groups| && g < |blocks|
  {
    GroupTells(groups[g], parts, blocks[g], FirstUnder(groups, g))
  }

  ghost predicate GroupsTell(groups: seq<Build>, parts: seq<Part>, blocks: seq<seq<nat>>) {
    |groups| == |blocks| && forall g: nat | g < |groups| :: TellsAt(groups, parts, blocks, g)
  }

  lemma {:induction false} CallsAtStill(front: seq<Part>, p: Part, block: seq<nat>)
    requires forall k | 0 <= k < |block| :: block[k] < |front|
    ensures CallsAt(front + [p], block) == CallsAt(front, block)
  {
    if block != [] {
      CallsAtStill(front, p, block[..|block| - 1]);
    }
  }

  lemma {:induction false} SaidStill<A>(front: seq<Part>, p: Part, block: seq<nat>, says: Part -> Option<A>, otherwise: A)
    requires forall k | 0 <= k < |block| :: block[k] < |front|
    ensures Said(front + [p], block, says, otherwise) == Said(front, block, says, otherwise)
  {
    if block != [] {
      SaidStill(front, p, block[..|block| - 1], says, otherwise);
    }
  }

  lemma HoldsStill(b: Build, front: seq<Part>, p: Part, block: seq<nat>)
    requires Carries(b, front, block) && forall k | 0 <= k < |block| :: block[k] < |front|
    ensures Carries(b, front + [p], block)
  {
    CallsAtStill(front, p, block);
    SaidStill(front, p, block, NameOf, b.key);
    SaidStill(front, p, block, StateOf, GroupStarted);
    SaidStill(front, p, block, TokensOf, 0);
    SaidStill(front, p, block, CostOf, "0");
    assert forall k | 0 <= k < |block| :: DispatchAt(front + [p], block[k]) <==> DispatchAt(front, block[k]);
  }

  lemma SaidMore<A>(parts: seq<Part>, block: seq<nat>, n: nat, says: Part -> Option<A>, otherwise: A)
    ensures Said(parts, block + [n], says, otherwise) ==
            if DispatchAt(parts, n) && says(parts[n]).Some? then says(parts[n]).value else Said(parts, block, says, otherwise)
  {
    assert (block + [n])[..|block|] == block;
  }

  lemma CallsAtMore(parts: seq<Part>, block: seq<nat>, n: nat)
    requires n < |parts|
    ensures CallsAt(parts, block + [n]) == CallsAt(parts, block) + if parts[n].Tool? then [parts[n]] else []
  {
    assert (block + [n])[..|block|] == block;
  }

  lemma DispatchesMore(parts: seq<Part>, block: seq<nat>, n: nat)
    ensures Dispatches(parts, block + [n]) <==> Dispatches(parts, block) || DispatchAt(parts, n)
  {
    var more := block + [n];
    assert more[|block|] == n;
    assert forall k | 0 <= k < |block| :: more[k] == block[k];
    if Dispatches(parts, block) {
      var k :| 0 <= k < |block| && DispatchAt(parts, block[k]);
      assert DispatchAt(parts, more[k]);
    }
  }

  /** A group with a further part of its key. */
  function JoinedBy(b: Build, p: Part): Build
    requires GroupKey(p).Some?
  {
    if p.Tool? then b.(rows := b.rows + [ToolRow(p)]) else Dispatched(b, p)
  }

  lemma JoinedHolds(b: Build, parts: seq<Part>, block: seq<nat>, n: nat)
    requires Carries(b, parts, block) && n < |parts| && GroupKey(parts[n]).Some?
    ensures Carries(JoinedBy(b, parts[n]), parts, block + [n])
  {
    CallsAtMore(parts, block, n);
    DispatchesMore(parts, block, n);
    SaidMore(parts, block, n, NameOf, b.key);
    SaidMore(parts, block, n, StateOf, GroupStarted);
    SaidMore(parts, block, n, TokensOf, 0);
    SaidMore(parts, block, n, CostOf, "0");
    if parts[n].Tool? {
      CallRowsNext(CallsAt(parts, block), parts[n]);
    }
  }

  lemma StepsNext(front: seq<Part>, p: Part, key: string, from: nat)
    ensures StepsFor(front + [p], key, from) ==
            StepsFor(front, key, from) + if p.StepPart? && p.parent == key && from < |front| then [p.step] else []
  {
    assert (front + [p])[..|front|] == front;
  }

  lemma TellsStill(b: Build, front: seq<Part>, p: Part, block: seq<nat>, first: bool)
    requires GroupTells(b, front, block, first) && !(first && p.StepPart? && p.parent == b.key)
    ensures GroupTells(b, front + [p], block, first)
  {
    WithinStill(front, p, block);
    HoldsStill(b, front, p, block);
    StepsNext(front, p, b.key, block[0]);
  }

  lemma StepTells(b: Build, front: seq<Part>, p: Part, block: seq<nat>)
    requires GroupTells(b, front, block, true) && p.StepPart? && p.parent == b.key
    ensures GroupTells(b.(steps := b.steps + [p.step]), front + [p], block, true)
  {
    WithinStill(front, p, block);
    HoldsStill(b, front, p, block);
    StepsNext(front, p, b.key, block[0]);
  }

  lemma JoinTells(b: Build, front: seq<Part>, p: Part, block: seq<nat>, first: bool)
    requires GroupTells(b, front, block, first) && GroupKey(p) == Some(b.key)
    ensures GroupTells(JoinedBy(b, p), front + [p], block + [|front|], first)
  {
    WithinMore(front, p, block);
    WithinStill(front, p, block);
    HoldsStill(b, front, p, block);
    JoinedHolds(b, front + [p], block, |front|);
    StepsNext(front, p, b.key, block[0]);
  }

  lemma {:induction false} NoStepsYet(parts: seq<Part>, key: string, from: nat)
    requires |parts| <= from + 1
    ensures StepsFor(parts, key, from) == []
  {
    if parts != [] {
      NoStepsYet(parts[..|parts| - 1], key, from);
    }
  }

  function NewGroup(key: string, name: string): Build { Build(key, name, [], [], 0, "0", GroupStarted, false) }

  /** A group is named by its first part, whatever it is named when it opens. */
  lemma OpeningName(p: Part, name: string)
    requires GroupKey(p).Some? && (name == GroupKey(p).value || NameOf(p) == Some(name))
    ensures JoinedBy(NewGroup(GroupKey(p).value, name), p) == JoinedBy(NewGroup(GroupKey(p).value, GroupKey(p).value), p)
  {
  }

  lemma NothingYet(key: string, parts: seq<Part>)
    ensures Carries(NewGroup(key, key), parts, [])
  {
    assert CallRows([]) == [];
  }

  lemma OpenCarries(parts: seq<Part>, n: nat, key: string)
    requires n < |parts| && GroupKey(parts[n]) == Some(key)
    ensures Carries(JoinedBy(NewGroup(key, key), parts[n]), parts, [n])
  {
    NothingYet(key, parts);
    JoinedHolds(NewGroup(key, key), parts, [], n);
    OnePart(parts, n);
  }

  lemma OpenTells(front: seq<Part>, p: Part, name: string, first: bool)
    requires GroupKey(p).Some? && (name == GroupKey(p).value || NameOf(p) == Some(name))
    ensures GroupTells(JoinedBy(NewGroup(GroupKey(p).value, name), p), front + [p], [|front|], first)
  {
    OpeningName(p, name);
    OpenCarries(front + [p], |front|, GroupKey(p).value);
    NoStepsYet(front + [p], GroupKey(p).value, |front|);
    OnePart(front + [p], |front|);
  }

  lemma OnePart(parts: seq<Part>, n: nat)
    requires KeyAt(parts, n).Some?
    ensures Within(parts, [n]) && [] + [n] == [n]
  {
  }

  // The walk of a stretch.

  /** The groups under way. */
  function Open(w: Walk): seq<Build> { OpenRun(w).groups }

  /** A stretch is one run: no trace is done before it ends. */
  ghost predicate StretchTells(w: Walk, parts: seq<Part>, kinds: set<string>) {
    w.traces == [] && GroupsTell(Open(w), parts, Blocks(parts)) && OpenRun(w).figures == Figures(parts, kinds)
  }

  /** What is drawn beside the groups. */
  function Figures(parts: seq<Part>, kinds: set<string>): seq<Part> {
    if parts == [] then []
    else
      var p := parts[|parts| - 1];
      Figures(parts[..|parts| - 1], kinds) + if p.Data? && p.kind in kinds then [p] else []
  }

  lemma StillTell(groups: seq<Build>, front: seq<Part>, p: Part, blocks: seq<seq<nat>>)
    requires GroupsTell(groups, front, blocks) && !p.StepPart?
    ensures GroupsTell(groups, front + [p], blocks)
  {
    forall g: nat | g < |groups| ensures TellsAt(groups, front + [p], blocks, g) {
      assert TellsAt(groups, front, blocks, g);
      TellsStill(groups[g], front, p, blocks[g], FirstUnder(groups, g));
    }
  }

  lemma {:induction false} GroupAtIsFirst(groups: seq<Build>, key: string)
    ensures var at := GroupAt(groups, key);
            && (at < |groups| ==> groups[at].key == key)
            && forall h | 0 <= h < at :: groups[h].key != key
  {
    if groups != [] && groups[0].key != key {
      GroupAtIsFirst(groups[1..], key);
      assert forall h | 0 < h < GroupAt(groups, key) :: groups[h] == groups[1..][h - 1];
    }
  }

  lemma SameKeys(a: seq<Build>, b: seq<Build>, g: nat)
    requires g < |a| && g < |b| && forall h | 0 <= h <= g :: a[h].key == b[h].key
    ensures FirstUnder(a, g) <==> FirstUnder(b, g)
  {
  }

  lemma StepsTell(groups: seq<Build>, front: seq<Part>, p: Part, blocks: seq<seq<nat>>)
    requires GroupsTell(groups, front, blocks) && p.StepPart?
    ensures var at := GroupAt(groups, p.parent);
            var more := if at == |groups| then groups else groups[at := groups[at].(steps := groups[at].steps + [p.step])];
            GroupsTell(more, front + [p], blocks)
  {
    var at := GroupAt(groups, p.parent);
    var more := if at == |groups| then groups else groups[at := groups[at].(steps := groups[at].steps + [p.step])];
    GroupAtIsFirst(groups, p.parent);
    forall g: nat | g < |groups| ensures TellsAt(more, front + [p], blocks, g) {
      assert TellsAt(groups, front, blocks, g);
      SameKeys(groups, more, g);
      if g == at {
        StepTells(groups[g], front, p, blocks[g]);
      } else {
        TellsStill(groups[g], front, p, blocks[g], FirstUnder(groups, g));
      }
    }
  }

  predicate Same(groups: seq<Build>, after: seq<Build>, blocks: seq<seq<nat>>, more: seq<seq<nat>>, n: nat) {
    && n <= |groups| && n <= |after| && n <= |blocks| && n <= |more|
    && forall h | 0 <= h < n :: after[h] == groups[h] && more[h] == blocks[h]
  }

  lemma FirstOfSame(groups: seq<Build>, after: seq<Build>, blocks: seq<seq<nat>>, more: seq<seq<nat>>, n: nat, g: nat)
    requires Same(groups, after, blocks, more, n) && g < n
    ensures FirstUnder(after, g) == FirstUnder(groups, g)
  {
  }

  lemma AllTellWithLast(groups: seq<Build>, after: seq<Build>, parts: seq<Part>, blocks: seq<seq<nat>>, more: seq<seq<nat>>, n: nat)
    requires GroupsTell(groups, parts, blocks) && |after| == |more| == n + 1 && Same(groups, after, blocks, more, n)
    requires GroupTells(after[n], parts, more[n], FirstUnder(after, n))
    ensures GroupsTell(after, parts, more)
  {
    forall g: nat | g < |after| ensures TellsAt(after, parts, more, g) {
      if g < n {
        FirstOfSame(groups, after, blocks, more, n, g);
        assert TellsAt(groups, parts, blocks, g);
      }
    }
  }

  lemma LastBlock(groups: seq<Build>, front: seq<Part>, p: Part, blocks: seq<seq<nat>>)
    requires GroupsTell(groups, front, blocks) && groups != []
    ensures var last := |groups| - 1;
            && GroupTells(groups[last], front, blocks[last], FirstUnder(groups, last))
            && blocks[last] != [] && KeyAt(front + [p], blocks[last][0]) == Some(groups[last].key)
  {
    var last := |groups| - 1;
    assert TellsAt(groups, front, blocks, last);
    WithinStill(front, p, blocks[last]);
  }

  lemma LastJoinTells(groups: seq<Build>, front: seq<Part>, p: Part, blocks: seq<seq<nat>>)
    requires GroupsTell(groups, front, blocks) && groups != [] && GroupKey(p) == Some(groups[|groups| - 1].key)
    ensures GroupsTell(groups[|groups| - 1 := JoinedBy(groups[|groups| - 1], p)], front + [p], LastGrown(blocks, |front|))
  {
    var last := |groups| - 1;
    var b := JoinedBy(groups[last], p);
    LastBlock(groups, front, p, blocks);
    JoinTells(groups[last], front, p, blocks[last], FirstUnder(groups, last));
    SameKeys(groups, groups[last := b], last);
    StillTell(groups, front, p, blocks);
    AllTellWithLast(groups, groups[last := b], front + [p], blocks, LastGrown(blocks, |front|), last);
  }

  lemma NewGroupTells(groups: seq<Build>, front: seq<Part>, p: Part, blocks: seq<seq<nat>>, name: string)
    requires GroupsTell(groups, front, blocks) && GroupKey(p).Some? && (name == GroupKey(p).value || NameOf(p) == Some(name))
    ensures GroupsTell(groups + [JoinedBy(NewGroup(GroupKey(p).value, name), p)], front + [p], blocks + [[|front|]])
  {
    var after := groups + [JoinedBy(NewGroup(GroupKey(p).value, name), p)];
    OpenTells(front, p, name, FirstUnder(after, |groups|));
    StillTell(groups, front, p, blocks);
    AllTellWithLast(groups, after, front + [p], blocks, blocks + [[|front|]], |groups|);
  }

  lemma BlocksJoined(groups: seq<Build>, front: seq<Part>, p: Part, blocks: seq<seq<nat>>)
    requires GroupsTell(groups, front, blocks) && GroupKey(p).Some?
    ensures BlocksWith(blocks, front + [p], |front|) ==
            if groups != [] && GroupKey(p) == Some(groups[|groups| - 1].key)
            then LastGrown(blocks, |front|) else blocks + [[|front|]]
  {
    assert KeyAt(front + [p], |front|) == GroupKey(p);
    if groups != [] {
      LastBlock(groups, front, p, blocks);
    }
  }

  lemma JoinsTell(run: Run, front: seq<Part>, p: Part, blocks: seq<seq<nat>>, name: string)
    requires GroupsTell(run.groups, front, blocks) && GroupKey(p).Some?
    requires name == GroupKey(p).value || NameOf(p) == Some(name)
    ensures var grown := WithGroup(run, GroupKey(p).value, name);
            var b := grown.groups[|grown.groups| - 1];
            GroupsTell(LastReplaced(grown, JoinedBy(b, p)).groups, front + [p], BlocksWith(blocks, front + [p], |front|))
  {
    BlocksJoined(run.groups, front, p, blocks);
    if run.groups != [] && GroupKey(p) == Some(run.groups[|run.groups| - 1].key) {
      LastJoinTells(run.groups, front, p, blocks);
    } else {
      NewGroupTells(run.groups, front, p, blocks, name);
      GrownLast(run.groups, NewGroup(GroupKey(p).value, name), JoinedBy(NewGroup(GroupKey(p).value, name), p));
    }
  }

  lemma GrownLast(groups: seq<Build>, b: Build, more: Build)
    ensures (groups + [b])[|groups + [b]| - 1 := more] == groups + [more]
  {
  }

  lemma StretchNext(front: seq<Part>, p: Part, kinds: set<string>)
    ensures WalkOf(front + [p], kinds) == Visited(WalkOf(front, kinds), p, kinds)
    ensures Blocks(front + [p]) == BlocksWith(Blocks(front), front + [p], |front|)
    ensures Figures(front + [p], kinds) == Figures(front, kinds) + if p.Data? && p.kind in kinds then [p] else []
  {
    assert (front + [p])[..|front|] == front;
  }

  lemma StretchTellsNext(front: seq<Part>, p: Part, kinds: set<string>)
    requires StretchTells(WalkOf(front, kinds), front, kinds) && !Frames(p)
    ensures StretchTells(WalkOf(front + [p], kinds), front + [p], kinds)
  {
    var w, blocks := WalkOf(front, kinds), Blocks(front);
    StretchNext(front, p, kinds);
    assert KeyAt(front + [p], |front|) == GroupKey(p);
    if p.StepPart? {
      StepsTell(Open(w), front, p, blocks);
    } else if p.Tool? {
      JoinsTell(OpenRun(w), front, p, blocks, LEAD);
    } else if p.Dispatch? {
      JoinsTell(OpenRun(w), front, p, blocks, if p.name.Some? then p.name.value else p.key);
    } else {
      StillTell(Open(w), front, p, blocks);
    }
  }

  lemma {:induction false} StretchesTell(parts: seq<Part>, kinds: set<string>)
    requires Stretch(parts)
    ensures StretchTells(WalkOf(parts, kinds), parts, kinds)
  {
    if parts != [] {
      var front, p := parts[..|parts| - 1], parts[|parts| - 1];
      assert parts == front + [p];
      StretchesTell(front, kinds);
      StretchTellsNext(front, p, kinds);
    }
  }

  // A message is its stretches.

  lemma VisitedUnder(w: Walk, v: Walk, before: seq<Trace>, p: Part, kinds: set<string>)
    requires w.traces == before + v.traces && w.open == v.open
    ensures Visited(w, p, kinds).traces == before + Visited(v, p, kinds).traces && Visited(w, p, kinds).open == Visited(v, p, kinds).open
  {
    ClosedUnder(w, v, before);
  }

  lemma ClosedUnder(w: Walk, v: Walk, before: seq<Trace>)
    requires w.traces == before + v.traces && w.open == v.open
    ensures RunClosed(w).traces == before + RunClosed(v).traces && RunClosed(w).open == RunClosed(v).open
  {
  }

  lemma {:induction false} WalkAfterFrame(a: seq<Part>, frame: Part, b: seq<Part>, kinds: set<string>)
    requires Frames(frame)
    ensures var w, v := WalkOf(a + [frame] + b, kinds), WalkOf(b, kinds);
            w.traces == RunClosed(WalkOf(a, kinds)).traces + v.traces && w.open == v.open
  {
    if b == [] {
      StretchNext(a, frame, kinds);
      assert a + [frame] + b == a + [frame];
    } else {
      var front, p := b[..|b| - 1], b[|b| - 1];
      WalkAfterFrame(a, frame, front, kinds);
      assert a + [frame] + b == (a + [frame] + front) + [p] && b == front + [p];
      StretchNext(a + [frame] + front, p, kinds);
      StretchNext(front, p, kinds);
      VisitedUnder(WalkOf(a + [frame] + front, kinds), WalkOf(front, kinds), RunClosed(WalkOf(a, kinds)).traces, p, kinds);
    }
  }

  /** The runs of a message before anything is settled. */
  function Runs(parts: seq<Part>, kinds: set<string>): seq<Trace> { RunClosed(WalkOf(parts, kinds)).traces }

  /** Words cut the work: the runs on either side of them are those of each side by itself. */
  lemma WordsCutTheWork(a: seq<Part>, frame: Part, b: seq<Part>, kinds: set<string>)
    requires Frames(frame)
    ensures Runs(a + [frame] + b, kinds) == Runs(a, kinds) + Runs(b, kinds)
  {
    WalkAfterFrame(a, frame, b, kinds);
    ClosedUnder(WalkOf(a + [frame] + b, kinds), WalkOf(b, kinds), Runs(a, kinds));
  }

  ghost predicate EndsFramed(a: seq<Part>) { a == [] || Frames(a[|a| - 1]) }

  ghost predicate BeginsFramed(c: seq<Part>) { c == [] || Frames(c[0]) }

  lemma RunsBefore(a: seq<Part>, b: seq<Part>, kinds: set<string>)
    requires EndsFramed(a)
    ensures Runs(a + b, kinds) == Runs(a, kinds) + Runs(b, kinds)
  {
    if a != [] {
      var front, frame := a[..|a| - 1], a[|a| - 1];
      WordsCutTheWork(front, frame, b, kinds);
      WordsCutTheWork(front, frame, [], kinds);
      assert front + [frame] + [] == a && front + [frame] + b == a + b;
    } else {
      assert a + b == b;
    }
  }

  lemma RunsAfter(b: seq<Part>, c: seq<Part>, kinds: set<string>)
    requires BeginsFramed(c)
    ensures Runs(b + c, kinds) == Runs(b, kinds) + Runs(c, kinds)
  {
    if c != [] {
      var frame, rest := c[0], c[1..];
      WordsCutTheWork(b, frame, rest, kinds);
      WordsCutTheWork([], frame, rest, kinds);
      assert [] + [frame] + rest == c && b + [frame] + rest == b + c;
    } else {
      assert b + c == b;
    }
  }

  // What a reader is shown of a stretch.

  /** How the turn's end reads a dispatch it left unresolved. */
  predicate Closes(closing: Option<GroupState>, parts: seq<Part>, turnEnded: bool) {
    && (closing == Some(GroupCancelled) <==> Marked(parts, TURN_STOPPED))
    && (closing == Some(GroupFailed) <==>
        !Marked(parts, TURN_STOPPED) && (Marked(parts, TURN_FAILED) || Marked(parts, TURN_WITHDRAWN)))
    && (closing == Some(GroupSuperseded) <==> closing.Some? && !closing.value.GroupCancelled? && !closing.value.GroupFailed?)
    && (closing.Some? <==>
        turnEnded || Marked(parts, TURN_STOPPED) || Marked(parts, TURN_FAILED) || Marked(parts, TURN_WITHDRAWN))
  }

  predicate Marked(parts: seq<Part>, kind: string) { exists i | 0 <= i < |parts| :: parts[i].Data? && parts[i].kind == kind }

  predicate FirstWith(groups: seq<Group>, g: nat)
    requires g < |groups|
  {
    forall h | 0 <= h < g :: groups[h].key != groups[g].key
  }

  ghost predicate ShowsCallsOf(rows: seq<Row>, calls: seq<Part>, lines: map<string, T.Line>)
    requires forall p <- calls :: p.Tool?
  {
    |rows| == |calls| && forall k | 0 <= k < |rows| :: Shows(rows[k], calls[k], LineFor(lines, calls[k].call))
  }

  /** A group says what its parts said last, and has a row for each of its calls. */
  ghost predicate GroupShows(g: Group, parts: seq<Part>, block: seq<nat>, first: bool, closing: Option<GroupState>, lines: map<string, T.Line>) {
    && block != [] && KeyAt(parts, block[0]) == Some(g.key)
    && (g.dispatch <==> Dispatches(parts, block))
    && g.name == Said(parts, block, NameOf, g.key)
    && g.tokens == Said(parts, block, TokensOf, 0) && g.cost == Said(parts, block, CostOf, "0")
    && var said, steps := Said(parts, block, StateOf, GroupStarted), if first then StepsFor(parts, g.key, block[0]) else [];
       && g.state == (if g.dispatch && said.GroupStarted? && closing.Some? then closing.value else said)
       && if g.dispatch then RowsOfCalls(g.rows, steps, CallSteps(steps), Stops(said, closing), lines)
          else ShowsCallsOf(g.rows, CallsAt(parts, block), lines)
  }

  ghost predicate TraceShows(t: Trace, parts: seq<Part>, kinds: set<string>, closing: Option<GroupState>, lines: map<string, T.Line>) {
    && t.figures == Figures(parts, kinds) && t.rowCount == RowCount(t.groups) && |t.groups| == |Blocks(parts)|
    && forall g: nat | g < |t.groups| :: GroupShows(t.groups[g], parts, Blocks(parts)[g], FirstWith(t.groups, g), closing, lines)
  }

  lemma CallRowsShown(calls: seq<Part>, lines: map<string, T.Line>)
    requires forall p <- calls :: p.Tool?
    ensures ShowsCallsOf(DressedRows(CallRows(calls), lines), calls, lines)
  {
    forall k | 0 <= k < |calls| ensures Shows(DressedRows(CallRows(calls), lines)[k], calls[k], LineFor(lines, calls[k].call)) {
      ToolRowShows(calls[k], lines);
    }
  }

  lemma GroupIsShown(b: Build, parts: seq<Part>, block: seq<nat>, first: bool, closing: Option<GroupState>, lines: map<string, T.Line>)
    requires GroupTells(b, parts, block, first)
    ensures GroupShows(Settled(Finalized(b), closing, lines), parts, block, first, closing, lines)
  {
    if b.fromSteps {
      SubAgentRowsShow(b, closing, lines);
    } else {
      CallRowsShown(CallsAt(parts, block), lines);
    }
  }

  /** A settled group has the rows it had. */
  lemma SettledKeeps(g: Group, closing: Option<GroupState>, lines: map<string, T.Line>)
    ensures Settled(g, closing, lines).key == g.key && |Settled(g, closing, lines).rows| == |g.rows|
  {
  }

  lemma SettledCounts(t: Trace, closing: Option<GroupState>, lines: map<string, T.Line>)
    ensures RowCount(SettledTrace(t, closing, lines).groups) == RowCount(t.groups)
  {
    var groups := SettledTrace(t, closing, lines).groups;
    forall i | 0 <= i < |t.groups| ensures |t.groups[i].rows| == |groups[i].rows| { SettledKeeps(t.groups[i], closing, lines); }
    DressedCounts(t.groups, groups);
  }

  lemma RunIsShown(run: Run, parts: seq<Part>, kinds: set<string>, closing: Option<GroupState>, lines: map<string, T.Line>)
    requires GroupsTell(run.groups, parts, Blocks(parts)) && run.figures == Figures(parts, kinds)
    ensures var groups := FinalizedAll(run.groups);
            TraceShows(SettledTrace(Trace(groups, run.figures, RowCount(groups), false), closing, lines), parts, kinds, closing, lines)
  {
    var groups := FinalizedAll(run.groups);
    var t := Trace(groups, run.figures, RowCount(groups), false);
    var settled := SettledTrace(t, closing, lines).groups;
    SettledCounts(t, closing, lines);
    forall g: nat | g < |groups| ensures GroupShows(settled[g], parts, Blocks(parts)[g], FirstWith(settled, g), closing, lines) {
      assert TellsAt(run.groups, parts, Blocks(parts), g);
      forall h: nat | h < |groups| ensures settled[h].key == run.groups[h].key { SettledKeeps(groups[h], closing, lines); }
      GroupIsShown(run.groups[g], parts, Blocks(parts)[g], FirstUnder(run.groups, g), closing, lines);
    }
  }

  /** A stretch with something to show: a figure, a call of the message, or a call of a sub-agent. */
  ghost predicate HasWork(parts: seq<Part>, kinds: set<string>) {
    Figures(parts, kinds) != [] || exists g: nat :: g < |Blocks(parts)| && WorkAt(parts, g)
  }

  ghost predicate WorkAt(parts: seq<Part>, g: nat)
    requires g < |Blocks(parts)|
  {
    if Dispatches(parts, Blocks(parts)[g]) then FirstBlock(parts, g) && CallSteps(StepsOf(parts, Blocks(parts)[g])) != []
    else CallsAt(parts, Blocks(parts)[g]) != []
  }

  function StepsOf(parts: seq<Part>, block: seq<nat>): seq<Step> {
    if block == [] || KeyAt(parts, block[0]).None? then [] else StepsFor(parts, KeyAt(parts, block[0]).value, block[0])
  }

  predicate HeadsAlike(parts: seq<Part>, a: seq<nat>, b: seq<nat>) { a != [] && b != [] && KeyAt(parts, a[0]) == KeyAt(parts, b[0]) }

  ghost predicate FirstBlock(parts: seq<Part>, g: nat)
    requires g < |Blocks(parts)|
  {
    forall h | 0 <= h < g :: !HeadsAlike(parts, Blocks(parts)[h], Blocks(parts)[g])
  }

  lemma {:induction false} NoRows(groups: seq<Group>)
    ensures RowCount(groups) == 0 <==> forall g | 0 <= g < |groups| :: groups[g].rows == []
  {
    if groups != [] {
      var front := groups[..|groups| - 1];
      NoRows(front);
      assert groups == front + [groups[|front|]];
      assert forall g | 0 <= g < |front| :: front[g] == groups[g];
    }
  }

  lemma FirstAlike(groups: seq<Build>, parts: seq<Part>, g: nat)
    requires GroupsTell(groups, parts, Blocks(parts)) && g < |groups|
    ensures FirstUnder(groups, g) <==> FirstBlock(parts, g)
  {
    var blocks := Blocks(parts);
    forall h: nat | h <= g ensures blocks[h] != [] && KeyAt(parts, blocks[h][0]) == Some(groups[h].key) {
      assert TellsAt(groups, parts, blocks, h);
    }
    forall h: nat | h < g ensures groups[h].key == groups[g].key <==> HeadsAlike(parts, blocks[h], blocks[g]) { }
  }

  lemma RowsWhereWork(groups: seq<Build>, parts: seq<Part>, g: nat)
    requires GroupsTell(groups, parts, Blocks(parts)) && g < |groups|
    ensures Finalized(groups[g]).rows != [] <==> WorkAt(parts, g)
  {
    var b := groups[g];
    assert TellsAt(groups, parts, Blocks(parts), g);
    FirstAlike(groups, parts, g);
    if b.fromSteps {
      SubAgentRowsShow(b, None, map[]);
      SettledKeeps(Finalized(b), None, map[]);
      assert CallSteps([]) == [];
    }
  }

  /** The run a stretch leaves, if it leaves one. */
  lemma StretchLeaves(parts: seq<Part>, kinds: set<string>, closing: Option<GroupState>, lines: map<string, T.Line>)
    requires Stretch(parts)
    ensures var runs := Runs(parts, kinds);
            if HasWork(parts, kinds) then |runs| == 1 && TraceShows(SettledTrace(runs[0], closing, lines), parts, kinds, closing, lines)
            else runs == []
  {
    var w := WalkOf(parts, kinds);
    StretchesTell(parts, kinds);
    var run := OpenRun(w);
    RunIsShown(run, parts, kinds, closing, lines);
    NoRows(FinalizedAll(run.groups));
    forall g: nat | g < |run.groups| ensures Finalized(run.groups[g]).rows != [] <==> WorkAt(parts, g) {
      RowsWhereWork(run.groups, parts, g);
    }
    assert RowCount(FinalizedAll(run.groups)) == 0 && run.figures == [] <==> !HasWork(parts, kinds);
  }

  /**
   * Words cut a message into stretches. Each with some work is one trace, after those of what comes before it: its figures,
   * a group for every run of parts under one key, and in each group a row for every call.
   */
  lemma StretchesAreShown(a: seq<Part>, b: seq<Part>, c: seq<Part>, kinds: set<string>, turnEnded: bool, lines: map<string, T.Line>)
    requires EndsFramed(a) && Stretch(b) && BeginsFramed(c) && LinesAreLast(a + b + c, lines)
    ensures var parts, closing := a + b + c, ClosingState(a + b + c, turnEnded);
            var traces, at := TraceOf(parts, kinds, turnEnded), |Runs(a, kinds)|;
            && Closes(closing, parts, turnEnded)
            && |traces| == at + (if HasWork(b, kinds) then 1 else 0) + |Runs(c, kinds)|
            && (HasWork(b, kinds) ==> TraceShows(traces[at], b, kinds, closing, lines))
  {
    var parts, closing := a + b + c, ClosingState(a + b + c, turnEnded);
    RunsAfter(a + b, c, kinds);
    RunsBefore(a, b, kinds);
    WalkReadsLines(parts, kinds);
    LinesAgree(parts, lines, WalkOf(parts, kinds).lines);
    StretchLeaves(b, kinds, closing, lines);
    ClosingMeans(parts, turnEnded);
    assert TraceOf(parts, kinds, turnEnded) == SettledTraces(Runs(parts, kinds), closing, lines);
  }

  lemma ClosingMeans(parts: seq<Part>, turnEnded: bool)
    ensures Closes(ClosingState(parts, turnEnded), parts, turnEnded)
  {
    forall kind: string ensures Holds(parts, kind) <==> Marked(parts, kind) {
      if Holds(parts, kind) {
        var p :| p in parts && p.Data? && p.kind == kind;
        var i :| 0 <= i < |parts| && parts[i] == p;
      }
    }
  }
}
