/** A sub-agent's raw steps collapsed into the items a reader sees. */
module SubAgentSteps {
  import opened Wrappers
  import opened Chunks
  import Frames

  datatype StepKind = ToolStep | ReasoningStep | TextStep

  datatype StepState = Started | Completed | Failed | Corrected | Denied

  datatype Step = Step(kind: StepKind, state: StepState, call: Option<string>, tool: Option<string>, args: Value,
                       resultSummary: Option<string>, result: Value, text: string)

  datatype Item =
    | ToolItem(key: string, tool: string, args: Value, result: Option<string>, output: Value, state: StepState)
    | TextItem(kind: StepKind, key: string, text: string)

  function Or(name: Option<string>, other: string): string { if name.Some? then name.value else other }

  /** What the tool step at a position is known by. */
  function Key(s: Step, at: nat): string {
    if s.call.Some? then s.call.value else Or(s.tool, "tool") + "-" + Frames.Decimal(at)
  }

  function KindName(kind: StepKind): string {
    match kind
    case ToolStep => "tool"
    case ReasoningStep => "reasoning"
    case TextStep => "text"
  }

  function NewItem(s: Step, at: nat): Item {
    if s.kind.ToolStep? then ToolItem(Key(s, at), Or(s.tool, "unknown"), s.args, s.resultSummary, s.result, s.state)
    else TextItem(s.kind, KindName(s.kind) + "-" + Frames.Decimal(at), s.text)
  }

  /** A tool's item once a later step of the same call has said more. */
  function Joined(item: Item, s: Step): Item {
    if item.TextItem? then item
    else
      item.(args := if s.args == Null then item.args else s.args,
            result := if s.resultSummary.None? || s.resultSummary.value == "" then item.result else s.resultSummary,
            output := if s.result == Null then item.output else s.result,
            state := s.state)
  }

  /** The position of the tool item with a key: the number of items when there is none. */
  function At(items: seq<Item>, key: string): (at: nat)
    ensures at <= |items| && (at < |items| ==> items[at].ToolItem? && items[at].key == key)
    ensures forall i | 0 <= i < at :: !(items[i].ToolItem? && items[i].key == key)
  {
    if items == [] || (items[0].ToolItem? && items[0].key == key) then 0
    else
      var at := At(items[1..], key);
      assert forall i | 0 < i < at + 1 :: items[i] == items[1..][i - 1];
      at + 1
  }

  /** Each step joins its call's item, and opens one where there is none. */
  function MergedSteps(steps: seq<Step>): seq<Item> {
    if steps == [] then []
    else
      var items, s, i := MergedSteps(steps[..|steps| - 1]), steps[|steps| - 1], |steps| - 1;
      if !s.kind.ToolStep? then items + [NewItem(s, i)]
      else
        var at := At(items, Key(s, i));
        if at < |items| then items[at := Joined(items[at], s)] else items + [NewItem(s, i)]
  }

  lemma AtReplaced(items: seq<Item>, at: nat, item: Item, key: string)
    requires at < |items| && items[at].ToolItem? && item.ToolItem? && item.key == items[at].key
    ensures At(items[at := item], key) == At(items, key)
  {
    var more := items[at := item];
    var i, j := At(items, key), At(more, key);
    forall k | 0 <= k < |items|
      ensures (more[k].ToolItem? <==> items[k].ToolItem?) && (items[k].ToolItem? ==> more[k].key == items[k].key)
    {
    }
  }

  lemma AtAppended(items: seq<Item>, item: Item, key: string)
    ensures At(items + [item], key) ==
            if At(items, key) < |items| then At(items, key)
            else if item.ToolItem? && item.key == key then |items| else |items| + 1
  {
    var more := items + [item];
    var i, j := At(items, key), At(more, key);
    assert forall k | 0 <= k < |items| :: more[k] == items[k];
    assert more[|items|] == item;
  }

  method MergeSubAgentSteps(steps: seq<Step>) returns (items: seq<Item>)
    ensures items == MergedSteps(steps)
  {
    items := [];
    var toolIndex: map<string, nat> := map[];
    for i := 0 to |steps|
      invariant items == MergedSteps(steps[..i])
      invariant forall key :: key in toolIndex <==> At(items, key) < |items|
      invariant forall key <- toolIndex :: toolIndex[key] == At(items, key)
    {
      assert steps[..i + 1][..i] == steps[..i];
      var s := steps[i];
      ghost var before := items;
      if !s.kind.ToolStep? {
        items := items + [NewItem(s, i)];
        forall key ensures (At(items, key) < |items| <==> At(before, key) < |before|) && (key in toolIndex ==> At(items, key) == At(before, key)) {
          AtAppended(before, NewItem(s, i), key);
        }
        continue;
      }
      var id := Key(s, i);
      if id !in toolIndex {
        items := items + [NewItem(s, i)];
        toolIndex := toolIndex[id := |items| - 1];
        forall key ensures (key in toolIndex <==> At(items, key) < |items|) && (key in toolIndex ==> toolIndex[key] == At(items, key)) {
          AtAppended(before, NewItem(s, i), key);
        }
        continue;
      }
      var at := toolIndex[id];
      items := items[at := Joined(items[at], s)];
      forall key ensures At(items, key) == At(before, key) { AtReplaced(before, at, Joined(before[at], s), key); }
    }
    assert steps[..|steps|] == steps;
  }

  // What the merge keeps.

  /** A call has one item. */
  ghost predicate Distinct(items: seq<Item>) {
    forall i, j | 0 <= i < j < |items| && items[i].ToolItem? && items[j].ToolItem? :: items[i].key != items[j].key
  }

  /** Whatever key an item is found under stays found. */
  lemma StaysKnown(front: seq<Step>, s: Step, key: string)
    requires At(MergedSteps(front), key) < |MergedSteps(front)| || (s.kind.ToolStep? && key == Key(s, |front|))
    ensures At(MergedSteps(front + [s]), key) < |MergedSteps(front + [s])|
  {
    var items, n := MergedSteps(front), |front|;
    assert (front + [s])[..n] == front;
    if s.kind.ToolStep? && At(items, Key(s, n)) < |items| {
      var at := At(items, Key(s, n));
      AtReplaced(items, at, Joined(items[at], s), key);
    } else {
      AtAppended(items, NewItem(s, n), key);
    }
  }

  lemma StaysDistinct(front: seq<Step>, s: Step)
    requires Distinct(MergedSteps(front))
    ensures Distinct(MergedSteps(front + [s]))
  {
    var items, n := MergedSteps(front), |front|;
    assert (front + [s])[..n] == front;
    if s.kind.ToolStep? && At(items, Key(s, n)) == |items| {
      forall i | 0 <= i < |items| && items[i].ToolItem? ensures items[i].key != Key(s, n) { }
    }
  }

  lemma {:induction false} OneItemPerCall(steps: seq<Step>)
    ensures Distinct(MergedSteps(steps))
    ensures forall i | 0 <= i < |steps| && steps[i].kind.ToolStep? ::
              At(MergedSteps(steps), Key(steps[i], i)) < |MergedSteps(steps)|
  {
    if steps != [] {
      var front, s := steps[..|steps| - 1], steps[|steps| - 1];
      OneItemPerCall(front);
      assert steps == front + [s];
      StaysDistinct(front, s);
      forall i: nat | i < |steps| && steps[i].kind.ToolStep? ensures At(MergedSteps(steps), Key(steps[i], i)) < |MergedSteps(steps)| {
        if i < |front| { assert front[i] == steps[i]; }
        StaysKnown(front, s, Key(steps[i], i));
      }
    }
  }

  /** Every tool item bears the key of one of the tool steps. */
  lemma {:induction false} KeysComeFromSteps(steps: seq<Step>, at: nat)
    requires at < |MergedSteps(steps)| && MergedSteps(steps)[at].ToolItem?
    ensures exists i: nat | i < |steps| && steps[i].kind.ToolStep? :: MergedSteps(steps)[at].key == Key(steps[i], i)
  {
    var front, s, n := steps[..|steps| - 1], steps[|steps| - 1], |steps| - 1;
    var items := MergedSteps(front);
    if at < |items| {
      KeysComeFromSteps(front, at);
      var i: nat :| i < |front| && front[i].kind.ToolStep? && items[at].key == Key(front[i], i);
      assert steps[i] == front[i];
    } else {
      assert MergedSteps(steps)[at].key == Key(steps[n], n);
    }
  }

  // What an item tells of its steps.

  /** Step `i` is of the call with a key. */
  predicate Of(steps: seq<Step>, i: nat, key: string) { i < |steps| && steps[i].kind.ToolStep? && Key(steps[i], i) == key }

  ghost predicate First(steps: seq<Step>, i: nat, key: string) { Of(steps, i, key) && forall j: nat | j < i :: !Of(steps, j, key) }

  ghost predicate Last(steps: seq<Step>, i: nat, key: string) { Of(steps, i, key) && forall j: nat | i < j :: !Of(steps, j, key) }

  /** The last of a call's arguments, and likewise its output and its result. */
  function LastArgs(steps: seq<Step>, key: string): Value {
    if steps == [] then Null
    else if Of(steps, |steps| - 1, key) && steps[|steps| - 1].args != Null then steps[|steps| - 1].args
    else LastArgs(steps[..|steps| - 1], key)
  }

  function LastOutput(steps: seq<Step>, key: string): Value {
    if steps == [] then Null
    else if Of(steps, |steps| - 1, key) && steps[|steps| - 1].result != Null then steps[|steps| - 1].result
    else LastOutput(steps[..|steps| - 1], key)
  }

  predicate SaysResult(s: Step) { s.resultSummary.Some? && s.resultSummary.value != "" }

  /** The last result that is not empty: the first step's where none is. */
  function LastResult(steps: seq<Step>, key: string, first: Option<string>): Option<string> {
    if steps == [] then first
    else if Of(steps, |steps| - 1, key) && SaysResult(steps[|steps| - 1]) then steps[|steps| - 1].resultSummary
    else LastResult(steps[..|steps| - 1], key, first)
  }

  /** An item of a call that began at a step: named by that step, ending as the call's last step says. */
  ghost predicate TellsCall(item: Item, steps: seq<Step>, first: nat) {
    && item.ToolItem? && First(steps, first, item.key)
    && item.tool == Or(steps[first].tool, "unknown")
    && (exists last: nat :: Last(steps, last, item.key) && item.state == steps[last].state)
    && item.args == LastArgs(steps, item.key) && item.output == LastOutput(steps, item.key)
    && item.result == LastResult(steps, item.key, steps[first].resultSummary)
  }

  /** What is said or thought is an item of its own. */
  predicate TellsText(item: Item, steps: seq<Step>, at: nat) {
    && at < |steps| && !steps[at].kind.ToolStep?
    && item == TextItem(steps[at].kind, KindName(steps[at].kind) + "-" + Frames.Decimal(at), steps[at].text)
  }

  ghost predicate Tells(item: Item, steps: seq<Step>, at: nat) { TellsCall(item, steps, at) || TellsText(item, steps, at) }

  /** A step that has an item of its own: what is said, and the first step of a call. */
  ghost predicate Begins(steps: seq<Step>, i: nat) {
    i < |steps| && (steps[i].kind.ToolStep? ==> First(steps, i, Key(steps[i], i)))
  }

  ghost function Beginnings(steps: seq<Step>): (begins: seq<nat>)
    ensures forall i <- begins :: i < |steps|
  {
    if steps == [] then [] else
      var before := Beginnings(steps[..|steps| - 1]);
      if Begins(steps, |steps| - 1) then before + [|steps| - 1] else before
  }

  /** They are the steps that begin an item, each once and in order. */
  lemma {:induction false} BeginningsInOrder(steps: seq<Step>)
    ensures var begins := Beginnings(steps);
            && (forall i: nat :: i in begins <==> Begins(steps, i))
            && (forall j, k | 0 <= j < k < |begins| :: begins[j] < begins[k])
  {
    if steps != [] {
      var front := steps[..|steps| - 1];
      BeginningsInOrder(front);
      assert front + [steps[|front|]] == steps;
      forall i: nat | i < |front| ensures Begins(steps, i) <==> Begins(front, i) { FrontBegins(front, steps[|front|], i); }
      var before := Beginnings(front);
      assert forall k | 0 <= k < |before| :: before[k] in before && before[k] < |front|;
    }
  }

  lemma FrontOf(front: seq<Step>, s: Step)
    ensures forall j: nat, key | j < |front| :: Of(front + [s], j, key) <==> Of(front, j, key)
  {
    forall j: nat, key | j < |front| ensures Of(front + [s], j, key) <==> Of(front, j, key) { assert (front + [s])[j] == front[j]; }
  }

  lemma FrontBegins(front: seq<Step>, s: Step, i: nat)
    requires i < |front|
    ensures forall key :: First(front + [s], i, key) <==> First(front, i, key)
    ensures Begins(front + [s], i) <==> Begins(front, i)
  {
    FrontOf(front, s);
    assert (front + [s])[i] == front[i];
    forall key ensures First(front + [s], i, key) <==> First(front, i, key) {
      if First(front, i, key) {
        assert forall j: nat | j < i :: !Of(front + [s], j, key);
      }
      if First(front + [s], i, key) {
        assert forall j: nat | j < i :: !Of(front, j, key);
      }
    }
  }

  lemma NextSaid(front: seq<Step>, s: Step, key: string, first: Option<string>)
    ensures var steps := front + [s];
            var more := Of(steps, |front|, key);
            && LastArgs(steps, key) == (if more && s.args != Null then s.args else LastArgs(front, key))
            && LastOutput(steps, key) == (if more && s.result != Null then s.result else LastOutput(front, key))
            && LastResult(steps, key, first) == (if more && SaysResult(s) then s.resultSummary else LastResult(front, key, first))
  {
    assert (front + [s])[..|front|] == front;
  }

  /** A step of another call leaves an item as it was. */
  lemma TellsStill(item: Item, front: seq<Step>, s: Step, at: nat)
    requires Tells(item, front, at) && (item.ToolItem? ==> !Of(front + [s], |front|, item.key))
    ensures Tells(item, front + [s], at)
  {
    var steps := front + [s];
    if TellsText(item, front, at) {
      assert TellsText(item, steps, at);
    } else {
      FrontOf(front, s);
      FrontBegins(front, s, at);
      NextSaid(front, s, item.key, front[at].resultSummary);
      var last: nat :| Last(front, last, item.key) && item.state == front[last].state;
      assert forall j: nat | last < j :: !Of(steps, j, item.key);
      assert Last(steps, last, item.key);
      assert TellsCall(item, steps, at);
    }
  }

  /** A further step of a call is its last. */
  lemma JoinedTells(item: Item, front: seq<Step>, s: Step, at: nat)
    requires TellsCall(item, front, at) && Of(front + [s], |front|, item.key)
    ensures TellsCall(Joined(item, s), front + [s], at)
  {
    var steps := front + [s];
    FrontOf(front, s);
    FrontBegins(front, s, at);
    NextSaid(front, s, item.key, front[at].resultSummary);
    assert Last(steps, |front|, item.key);
  }

  lemma OpenedTells(front: seq<Step>, s: Step)
    requires Begins(front + [s], |front|)
    ensures Tells(NewItem(s, |front|), front + [s], |front|)
  {
    var steps, n, item := front + [s], |front|, NewItem(s, |front|);
    if s.kind.ToolStep? {
      SaidOnce(front, s, item.key);
      assert Last(steps, n, item.key);
      assert TellsCall(item, steps, n);
    } else {
      assert TellsText(item, steps, n);
    }
  }

  lemma SaidOnce(front: seq<Step>, s: Step, key: string)
    requires First(front + [s], |front|, key)
    ensures var steps := front + [s];
            LastArgs(steps, key) == s.args && LastOutput(steps, key) == s.result && LastResult(steps, key, s.resultSummary) == s.resultSummary
  {
    NextSaid(front, s, key, s.resultSummary);
    FrontOf(front, s);
    forall j: nat ensures !Of(front, j, key) {
      if j < |front| { assert !Of(front + [s], j, key); }
    }
    Unsaid(front, key, s.resultSummary);
  }

  lemma {:induction false} Unsaid(steps: seq<Step>, key: string, first: Option<string>)
    requires forall j: nat :: !Of(steps, j, key)
    ensures LastArgs(steps, key) == Null && LastOutput(steps, key) == Null && LastResult(steps, key, first) == first
  {
    if steps != [] {
      var front := steps[..|steps| - 1];
      forall j: nat ensures !Of(front, j, key) { assert !Of(steps, j, key); }
      Unsaid(front, key, first);
    }
  }

  ghost predicate AllTell(items: seq<Item>, steps: seq<Step>, begins: seq<nat>) {
    |items| == |begins| && forall k | 0 <= k < |items| :: Tells(items[k], steps, begins[k])
  }

  lemma JoiningTells(front: seq<Step>, s: Step, items: seq<Item>, begins: seq<nat>, at: nat)
    requires AllTell(items, front, begins) && Distinct(items)
    requires at < |items| && items[at].ToolItem? && Of(front + [s], |front|, items[at].key)
    ensures AllTell(items[at := Joined(items[at], s)], front + [s], begins)
  {
    assert Tells(items[at], front, begins[at]);
    JoinedTells(items[at], front, s, begins[at]);
    forall k | 0 <= k < |items| && k != at ensures Tells(items[k], front + [s], begins[k]) {
      TellsStill(items[k], front, s, begins[k]);
    }
  }

  lemma OpeningTells(front: seq<Step>, s: Step, items: seq<Item>, begins: seq<nat>)
    requires AllTell(items, front, begins) && Begins(front + [s], |front|)
    ensures AllTell(items + [NewItem(s, |front|)], front + [s], begins + [|front|])
  {
    OpenedTells(front, s);
    FrontOf(front, s);
    forall k | 0 <= k < |items| ensures Tells(items[k], front + [s], begins[k]) {
      assert Tells(items[k], front, begins[k]);
      TellsStill(items[k], front, s, begins[k]);
    }
  }

  /** A step opens an item exactly when no item is under its key. */
  lemma BeginsWhereUnknown(front: seq<Step>, s: Step)
    requires s.kind.ToolStep?
    ensures Begins(front + [s], |front|) <==> At(MergedSteps(front), Key(s, |front|)) == |MergedSteps(front)|
  {
    var items, n := MergedSteps(front), |front|;
    var at := At(items, Key(s, n));
    FrontOf(front, s);
    if at < |items| {
      KeysComeFromSteps(front, at);
      var i: nat :| i < n && front[i].kind.ToolStep? && items[at].key == Key(front[i], i);
      assert Of(front + [s], i, Key(s, n));
    } else {
      OneItemPerCall(front);
      forall j: nat | j < n ensures !Of(front + [s], j, Key(s, n)) {
        if front[j].kind.ToolStep? { assert At(items, Key(front[j], j)) < |items|; }
      }
    }
  }

  lemma NextTells(front: seq<Step>, s: Step)
    requires AllTell(MergedSteps(front), front, Beginnings(front))
    ensures AllTell(MergedSteps(front + [s]), front + [s], Beginnings(front + [s]))
  {
    var items, begins := MergedSteps(front), Beginnings(front);
    assert (front + [s])[..|front|] == front;
    var at := if s.kind.ToolStep? then At(items, Key(s, |front|)) else |items|;
    if s.kind.ToolStep? {
      BeginsWhereUnknown(front, s);
    }
    if at < |items| {
      OneItemPerCall(front);
      JoiningTells(front, s, items, begins, at);
    } else {
      OpeningTells(front, s, items, begins);
    }
  }

  /** The items are the steps that begin one, in order: each call's ends as its last step says, and each text's is its own. */
  lemma {:induction false} ItemsTellTheirSteps(steps: seq<Step>)
    ensures AllTell(MergedSteps(steps), steps, Beginnings(steps))
  {
    if steps != [] {
      var front, s := steps[..|steps| - 1], steps[|steps| - 1];
      ItemsTellTheirSteps(front);
      assert steps == front + [s];
      NextTells(front, s);
    }
  }
}
