/** The circuit breaker for a run that reads one tool too often. */
module RepetitionGuard {
  import opened Wrappers

  datatype Rule = IdenticalArguments | CallCap

  /** The head of a digest of a call's arguments: equal exactly where the arguments are. */
  type Fingerprint = text: string | |text| == 16 witness seq(16, _ => '0')

  datatype Call = Call(tool: string, fingerprint: Fingerprint, id: string, step: int)

  datatype Block = Block(tool: string, count: int, escalated: bool, rule: Rule)

  datatype Settings = Settings(readOnly: set<string>, caps: map<string, int>, threshold: int)

  predicate Usable(s: Settings) { forall tool <- s.caps :: s.caps[tool] >= 0 }

  // What a history of calls says of its last one.

  function Count(h: seq<Call>, tool: string): nat {
    if h == [] then 0 else Count(h[..|h| - 1], tool) + (if h[|h| - 1].tool == tool then 1 else 0)
  }

  predicate OverCap(h: seq<Call>, s: Settings)
    requires h != []
  {
    var tool := h[|h| - 1].tool;
    tool in s.caps && Count(h, tool) > s.caps[tool]
  }

  /** The calls their tool's cap did not refuse. */
  function Admitted(h: seq<Call>, s: Settings): seq<Call> {
    if h == [] then []
    else if OverCap(h, s) then Admitted(h[..|h| - 1], s)
    else Admitted(h[..|h| - 1], s) + [h[|h| - 1]]
  }

  lemma AdmittedAfter(before: seq<Call>, c: Call, s: Settings)
    ensures var h := before + [c];
            h[..|before|] == before && Admitted(h, s) == Admitted(before, s) + if OverCap(h, s) then [] else [c]
  {
    assert (before + [c])[..|before|] == before;
    assert Admitted(before, s) + [] == Admitted(before, s);
  }

  predicate SameRead(a: Call, b: Call) { a.tool == b.tool && a.fingerprint == b.fingerprint }

  /** How many equal read-only calls a list ends on. */
  function Streak(calls: seq<Call>, s: Settings): (streak: nat)
    ensures streak <= |calls|
  {
    if calls == [] then 0
    else
      var front, last := calls[..|calls| - 1], calls[|calls| - 1];
      if last.tool !in s.readOnly then 0
      else if front != [] && SameRead(front[|front| - 1], last) then Streak(front, s) + 1
      else 1
  }

  /** How many calls of a streak pass before the rule speaks up. */
  function Grace(s: Settings): nat { if s.threshold <= 1 then 0 else s.threshold - 1 }

  /** The step of the streak's first refused call. */
  function RepeatWarned(calls: seq<Call>, s: Settings): Option<int> {
    var streak := Streak(calls, s);
    if streak > Grace(s) then Some(calls[|calls| - streak + Grace(s)].step) else None
  }

  /** The step of a tool's first call past its cap. */
  function CapWarned(h: seq<Call>, s: Settings, tool: string): Option<int> {
    if h == [] then None
    else
      var before := CapWarned(h[..|h| - 1], s, tool);
      if before.None? && h[|h| - 1].tool == tool && OverCap(h, s) then Some(h[|h| - 1].step) else before
  }

  /** How often each capped tool was called. */
  function Tallies(h: seq<Call>, s: Settings): map<string, nat> {
    if h == [] then map[]
    else
      var before, tool := Tallies(h[..|h| - 1], s), h[|h| - 1].tool;
      if tool in s.caps then before[tool := (if tool in before then before[tool] else 0) + 1] else before
  }

  /** The step of each tool's first call past its cap, for the tools that had one. */
  function Warnings(h: seq<Call>, s: Settings): map<string, int> {
    if h == [] then map[]
    else
      var before, c := Warnings(h[..|h| - 1], s), h[|h| - 1];
      if c.tool !in before && OverCap(h, s) then before[c.tool := c.step] else before
  }

  lemma {:induction false} TalliesCount(h: seq<Call>, s: Settings, tool: string)
    ensures tool in s.caps ==> Count(h, tool) == if tool in Tallies(h, s) then Tallies(h, s)[tool] else 0
  {
    if h != [] {
      TalliesCount(h[..|h| - 1], s, tool);
    }
  }

  lemma {:induction false} WarningsAre(h: seq<Call>, s: Settings, tool: string)
    ensures CapWarned(h, s, tool) == if tool in Warnings(h, s) then Some(Warnings(h, s)[tool]) else None
  {
    if h != [] {
      WarningsAre(h[..|h| - 1], s, tool);
    }
  }

  function Later(step: int, warned: Option<int>): bool { warned.Some? && step > warned.value }

  /** What the last call of a history is answered: nothing, or the block that refuses it. */
  function BlockOf(h: seq<Call>, s: Settings): Option<Block>
    requires h != []
  {
    var c, calls := h[|h| - 1], Admitted(h, s);
    if OverCap(h, s) then Some(Block(c.tool, Count(h, c.tool), Later(c.step, CapWarned(h, s, c.tool)), CallCap))
    else if c.tool in s.readOnly && Streak(calls, s) >= s.threshold
    then Some(Block(c.tool, Streak(calls, s), Later(c.step, RepeatWarned(calls, s)), IdenticalArguments))
    else None
  }

  function Refusals(h: seq<Call>, s: Settings): nat {
    if h == [] then 0 else Refusals(h[..|h| - 1], s) + (if BlockOf(h, s).Some? then 1 else 0)
  }

  predicate Escalates(h: seq<Call>, s: Settings)
    requires h != []
  {
    BlockOf(h, s).Some? && BlockOf(h, s).value.escalated
  }

  datatype Stop = Stop(id: string, rule: Option<Rule>)

  function StopOf(h: seq<Call>, s: Settings): Stop {
    if h == [] then Stop("", None)
    else
      var before := StopOf(h[..|h| - 1], s);
      if before.id == "" && Escalates(h, s) then Stop(h[|h| - 1].id, Some(BlockOf(h, s).value.rule)) else before
  }

  class ToolRepetitionGuard {
    const settings: Settings
    var callCounts: map<string, nat>
    var lastTool: string
    var lastFingerprint: string
    var consecutiveCount: nat
    var totalBlocked: nat
    var capWarnedAt: map<string, int>
    var repeatWarnedAt: Option<int>
    var stop: Stop
    ghost var history: seq<Call>

    /** Every field is what the history of calls says it is. */
    ghost predicate Valid()
      reads this
    {
      && CountsTell() && WarningsTell() && StreakTells()
      && totalBlocked == Refusals(history, settings) && stop == StopOf(history, settings)
    }

    ghost predicate CountsTell()
      reads this`history, this`callCounts
    {
      callCounts == Tallies(history, settings)
    }

    ghost predicate WarningsTell()
      reads this`history, this`capWarnedAt
    {
      capWarnedAt == Warnings(history, settings)
    }

    ghost predicate StreakTells()
      reads this`history, this`consecutiveCount, this`repeatWarnedAt, this`lastTool, this`lastFingerprint
    {
      TellsOf(Admitted(history, settings))
    }

    constructor (settings: Settings)
      requires Usable(settings)
      ensures Valid() && history == [] && this.settings == settings
    {
      this.settings := settings;
      callCounts, capWarnedAt, history := map[], map[], [];
      lastTool, lastFingerprint, consecutiveCount := "", "", 0;
      totalBlocked, repeatWarnedAt, stop := 0, None, Stop("", None);
    }

    method StopAt(id: string, rule: Rule)
      modifies this`stop
      ensures stop == if old(stop).id == "" then Stop(id, Some(rule)) else old(stop)
    {
      if stop.id == "" {
        stop := Stop(id, Some(rule));
      }
    }

    method Check(c: Call) returns (block: Option<Block>)
      requires Valid()
      modifies this
      ensures Valid() && history == old(history) + [c]
      ensures block == BlockOf(history, settings)
    {
      ghost var before := history;
      history := history + [c];
      AdmittedAfter(before, c, settings);
      block := CheckCap(c, before);
      if block.Some? {
        return;
      }
      block := CheckStreak(c, before);
    }

    method Reset()
      modifies this`lastTool, this`lastFingerprint, this`consecutiveCount, this`repeatWarnedAt
      ensures lastTool == "" && lastFingerprint == "" && consecutiveCount == 0 && repeatWarnedAt == None
    {
      lastTool, lastFingerprint, consecutiveCount, repeatWarnedAt := "", "", 0, None;
    }

    ghost predicate TellsOf(calls: seq<Call>)
      reads this`consecutiveCount, this`repeatWarnedAt, this`lastTool, this`lastFingerprint
    {
      && consecutiveCount == Streak(calls, settings) && repeatWarnedAt == RepeatWarned(calls, settings)
      && (if consecutiveCount == 0 then lastTool == "" && lastFingerprint == ""
          else lastTool == calls[|calls| - 1].tool && lastFingerprint == calls[|calls| - 1].fingerprint)
    }

    method CountRead(c: Call, ghost calls: seq<Call>)
      requires c.tool in settings.readOnly && TellsOf(calls)
      modifies this`lastTool, this`lastFingerprint, this`consecutiveCount, this`repeatWarnedAt
      ensures consecutiveCount == Streak(calls + [c], settings) && consecutiveCount > 0
      ensures lastTool == c.tool && lastFingerprint == c.fingerprint
      ensures repeatWarnedAt.Some? ==> repeatWarnedAt == RepeatWarned(calls + [c], settings)
      ensures repeatWarnedAt.None? ==>
                RepeatWarned(calls + [c], settings) == if consecutiveCount > Grace(settings) then Some(c.step) else None
    {
      if c.tool == lastTool && c.fingerprint == lastFingerprint {
        StreakGrows(calls, c, settings);
        consecutiveCount := consecutiveCount + 1;
      } else {
        StreakStarts(calls, c, settings);
        repeatWarnedAt := None;
        lastTool, lastFingerprint, consecutiveCount := c.tool, c.fingerprint, 1;
      }
    }

    /** The streak's answer to a call no cap refused. */
    method CheckStreak(c: Call, ghost before: seq<Call>) returns (block: Option<Block>)
      requires history == before + [c] && history[..|before|] == before && !OverCap(history, settings)
      requires TellsOf(Admitted(before, settings))
      requires totalBlocked == Refusals(before, settings) && stop == StopOf(before, settings)
      modifies this`lastTool, this`lastFingerprint, this`consecutiveCount, this`repeatWarnedAt, this`totalBlocked, this`stop
      ensures StreakTells() && totalBlocked == Refusals(history, settings) && stop == StopOf(history, settings)
      ensures block == BlockOf(history, settings)
    {
      ghost var calls := Admitted(before, settings);
      assert Admitted(history, settings) == calls + [c];
      assert (calls + [c])[..|calls|] == calls;
      if c.tool !in settings.readOnly {
        Reset();
        return None;
      }
      CountRead(c, calls);
      if consecutiveCount < settings.threshold {
        return None;
      }
      totalBlocked := totalBlocked + 1;
      if repeatWarnedAt.None? {
        repeatWarnedAt := Some(c.step);
      }
      var escalated := c.step > repeatWarnedAt.value;
      if escalated {
        StopAt(c.id, IdenticalArguments);
      }
      block := Some(Block(c.tool, consecutiveCount, escalated, IdenticalArguments));
    }

    /** The cap's answer; where it has none, the rest of the check is still to come. */
    method CheckCap(c: Call, ghost before: seq<Call>) returns (block: Option<Block>)
      requires history == before + [c] && history[..|before|] == before
      requires callCounts == Tallies(before, settings) && capWarnedAt == Warnings(before, settings)
      requires totalBlocked == Refusals(before, settings) && stop == StopOf(before, settings)
      modifies this`callCounts, this`capWarnedAt, this`totalBlocked, this`stop
      ensures CountsTell() && WarningsTell()
      ensures block.Some? <==> OverCap(history, settings)
      ensures block.Some? ==> block == BlockOf(history, settings) && totalBlocked == Refusals(history, settings) &&
                              stop == StopOf(history, settings)
      ensures block.None? ==> totalBlocked == old(totalBlocked) && stop == old(stop)
    {
      TalliesCount(history, settings, c.tool);
      WarningsAre(history, settings, c.tool);
      if c.tool !in settings.caps {
        return None;
      }
      var count := (if c.tool in callCounts then callCounts[c.tool] else 0) + 1;
      callCounts := callCounts[c.tool := count];
      if count <= settings.caps[c.tool] {
        return None;
      }
      totalBlocked := totalBlocked + 1;
      if c.tool !in capWarnedAt {
        capWarnedAt := capWarnedAt[c.tool := c.step];
      }
      var escalated := c.step > capWarnedAt[c.tool];
      if escalated {
        StopAt(c.id, CallCap);
      }
      block := Some(Block(c.tool, count, escalated, CallCap));
    }
  }

  /** A guard, unless a cap is negative. */
  method NewGuard(settings: Settings) returns (guard: Option<ToolRepetitionGuard>)
    ensures guard.Some? <==> Usable(settings)
    ensures guard.Some? ==> fresh(guard.value) && guard.value.Valid() && guard.value.history == []
  {
    if exists tool <- settings.caps :: settings.caps[tool] < 0 {
      return None;
    }
    var made := new ToolRepetitionGuard(settings);
    guard := Some(made);
  }

  lemma StreakOfRead(calls: seq<Call>, s: Settings)
    requires calls != []
    ensures Streak(calls, s) == 0 <==> calls[|calls| - 1].tool !in s.readOnly
  {
  }

  lemma StreakOfMore(calls: seq<Call>, c: Call, s: Settings)
    ensures Streak(calls + [c], s) ==
            if c.tool !in s.readOnly then 0
            else if calls != [] && SameRead(calls[|calls| - 1], c) then Streak(calls, s) + 1 else 1
  {
    assert (calls + [c])[..|calls|] == calls;
  }

  lemma ExtendedStreak(calls: seq<Call>, c: Call, s: Settings)
    requires c.tool in s.readOnly
    ensures Streak(calls + [c], s) == if Streak(calls, s) > 0 && SameRead(calls[|calls| - 1], c) then Streak(calls, s) + 1 else 1
  {
    StreakOfMore(calls, c, s);
    if calls != [] {
      StreakOfRead(calls, s);
    }
  }

  lemma StreakGrows(calls: seq<Call>, c: Call, s: Settings)
    requires c.tool in s.readOnly && Streak(calls, s) > 0 && SameRead(calls[|calls| - 1], c)
    ensures var more := calls + [c];
            Streak(more, s) == Streak(calls, s) + 1 &&
            RepeatWarned(more, s) == if RepeatWarned(calls, s).Some? then RepeatWarned(calls, s)
                                     else if Streak(more, s) > Grace(s) then Some(c.step) else None
  {
    var more, n, grace := calls + [c], Streak(calls, s), Grace(s);
    ExtendedStreak(calls, c, s);
    var at := |more| - (n + 1) + grace;
    assert n > grace ==> more[at] == calls[at];
    assert n == grace ==> at == |calls| && more[at] == c;
  }

  lemma StreakStarts(calls: seq<Call>, c: Call, s: Settings)
    requires c.tool in s.readOnly && !(Streak(calls, s) > 0 && SameRead(calls[|calls| - 1], c))
    ensures Streak(calls + [c], s) == 1 && RepeatWarned(calls + [c], s) == if Grace(s) == 0 then Some(c.step) else None
  {
    ExtendedStreak(calls, c, s);
    assert (calls + [c])[|calls|] == c;
  }

  // What the answers mean.

  /** A streak is the longest run of equal read-only calls the list ends on. */
  lemma {:induction false} StreakIsLongestRun(calls: seq<Call>, s: Settings)
    ensures var n := Streak(calls, s);
            && (forall i | |calls| - n <= i < |calls| :: calls[i].tool in s.readOnly && SameRead(calls[i], calls[|calls| - 1]))
            && (0 < n < |calls| ==> !SameRead(calls[|calls| - n - 1], calls[|calls| - 1]))
            && (n == 0 && calls != [] ==> calls[|calls| - 1].tool !in s.readOnly)
  {
    if calls != [] {
      StreakIsLongestRun(calls[..|calls| - 1], s);
    }
  }

  /** The calls of a tool, by where they stand. */
  function CallsOf(h: seq<Call>, tool: string): set<nat> { set i: nat | i < |h| && h[i].tool == tool }

  lemma {:induction false} CountIsHowMany(h: seq<Call>, tool: string)
    ensures Count(h, tool) == |CallsOf(h, tool)|
  {
    if h != [] {
      var front, n := h[..|h| - 1], |h| - 1;
      CountIsHowMany(front, tool);
      assert CallsOf(h, tool) == CallsOf(front, tool) + if h[n].tool == tool then {n} else {};
    }
  }

  /** The last `n` calls are all the same read. */
  predicate EndsOnSame(calls: seq<Call>, s: Settings, n: int)
    requires calls != []
  {
    && n <= |calls| && calls[|calls| - 1].tool in s.readOnly
    && forall i | 0 <= i < |calls| && |calls| - n <= i :: SameRead(calls[i], calls[|calls| - 1])
  }

  lemma StreakReaches(calls: seq<Call>, s: Settings, n: int)
    requires calls != []
    ensures EndsOnSame(calls, s, n) <==> calls[|calls| - 1].tool in s.readOnly && Streak(calls, s) >= n
  {
    StreakIsLongestRun(calls, s);
    if calls[|calls| - 1].tool in s.readOnly {
      var streak := Streak(calls, s);
      assert streak > 0;
      assert streak < |calls| ==> !SameRead(calls[|calls| - streak - 1], calls[|calls| - 1]);
    }
  }

  /** A call is refused past its tool's cap, by that rule and with the number of its tool's calls; or else where it ends a run, of
      the threshold's length, of the same read among the calls no cap refused, by the other rule and with the length of the run. */
  lemma RefusesExactly(h: seq<Call>, s: Settings)
    requires h != []
    ensures var c, calls, block := h[|h| - 1], Admitted(h, s), BlockOf(h, s);
            var over := c.tool in s.caps && |CallsOf(h, c.tool)| > s.caps[c.tool];
            && (over ==> block.Some? && block.value.tool == c.tool && block.value.rule == CallCap && block.value.count == |CallsOf(h, c.tool)|)
            && (!over ==> calls != [] && calls[|calls| - 1] == c && (block.Some? <==> EndsOnSame(calls, s, s.threshold)))
            && (!over && block.Some? ==>
                  && block.value.tool == c.tool && block.value.rule == IdenticalArguments
                  && EndsOnSame(calls, s, block.value.count) && !EndsOnSame(calls, s, block.value.count + 1))
  {
    var c, calls := h[|h| - 1], Admitted(h, s);
    CountIsHowMany(h, c.tool);
    if !OverCap(h, s) {
      AdmittedAfter(h[..|h| - 1], c, s);
      assert h[..|h| - 1] + [c] == h;
      StreakReaches(calls, s, s.threshold);
      StreakReaches(calls, s, Streak(calls, s));
      StreakReaches(calls, s, Streak(calls, s) + 1);
    }
  }

  predicate OverCapAt(h: seq<Call>, i: nat, s: Settings) { i < |h| && OverCap(h[..i + 1], s) }

  predicate RefusedAt(h: seq<Call>, i: nat, s: Settings) { i < |h| && BlockOf(h[..i + 1], s).Some? }

  predicate EscalatedAt(h: seq<Call>, i: nat, s: Settings) { i < |h| && Escalates(h[..i + 1], s) }

  lemma Before(h: seq<Call>, i: nat, s: Settings)
    requires h != []
    ensures i < |h| - 1 ==>
              (OverCapAt(h, i, s) <==> OverCapAt(h[..|h| - 1], i, s)) && (RefusedAt(h, i, s) <==> RefusedAt(h[..|h| - 1], i, s)) &&
              (EscalatedAt(h, i, s) <==> EscalatedAt(h[..|h| - 1], i, s))
    ensures i == |h| - 1 ==>
              (OverCapAt(h, i, s) <==> OverCap(h, s)) && (RefusedAt(h, i, s) <==> BlockOf(h, s).Some?) &&
              (EscalatedAt(h, i, s) <==> Escalates(h, s))
  {
    if i < |h| - 1 {
      assert h[..|h| - 1][..i + 1] == h[..i + 1];
    } else {
      assert h[..|h|] == h;
    }
  }

  /** The first call of a tool past its cap is the one its warning remembers. */
  ghost predicate FirstOverCap(h: seq<Call>, s: Settings, tool: string, i: nat) {
    && OverCapAt(h, i, s) && h[i].tool == tool
    && forall k: nat | k < i :: h[k].tool == tool ==> !OverCapAt(h, k, s)
  }

  lemma {:induction false} NeverWarned(h: seq<Call>, s: Settings, tool: string)
    requires forall i: nat :: OverCapAt(h, i, s) ==> h[i].tool != tool
    ensures CapWarned(h, s, tool) == None
  {
    if h != [] {
      var front := h[..|h| - 1];
      forall i: nat ensures OverCapAt(front, i, s) ==> front[i].tool != tool { Before(h, i, s); }
      NeverWarned(front, s, tool);
      Before(h, |front|, s);
    }
  }

  lemma {:induction false} WarnedAtFirst(h: seq<Call>, s: Settings, tool: string, i: nat)
    requires FirstOverCap(h, s, tool, i)
    ensures CapWarned(h, s, tool) == Some(h[i].step)
  {
    var front := h[..|h| - 1];
    Before(h, i, s);
    forall k: nat | k < i ensures OverCapAt(front, k, s) ==> front[k].tool != tool { Before(h, k, s); }
    if i < |front| {
      WarnedAtFirst(front, s, tool, i);
    } else {
      NeverWarned(front, s, tool);
    }
  }

  lemma {:induction false} FirstOverCapExists(h: seq<Call>, s: Settings, tool: string, i: nat) returns (first: nat)
    requires OverCapAt(h, i, s) && h[i].tool == tool
    ensures first <= i && FirstOverCap(h, s, tool, first)
    decreases i
  {
    if k: nat :| k < i && OverCapAt(h, k, s) && h[k].tool == tool {
      first := FirstOverCapExists(h, s, tool, k);
    } else {
      first := i;
    }
  }

  lemma CapWarnedIsFirst(h: seq<Call>, s: Settings, tool: string)
    ensures if exists i: nat :: OverCapAt(h, i, s) && h[i].tool == tool
            then exists i: nat :: FirstOverCap(h, s, tool, i) && CapWarned(h, s, tool) == Some(h[i].step)
            else CapWarned(h, s, tool) == None
  {
    if i: nat :| OverCapAt(h, i, s) && h[i].tool == tool {
      var first := FirstOverCapExists(h, s, tool, i);
      WarnedAtFirst(h, s, tool, first);
    } else {
      NeverWarned(h, s, tool);
    }
  }

  /** The first escalated call that has an id. */
  ghost predicate FirstStop(h: seq<Call>, s: Settings, i: nat) {
    && EscalatedAt(h, i, s) && h[i].id != ""
    && forall k: nat | k < i :: EscalatedAt(h, k, s) ==> h[k].id == ""
  }

  lemma {:induction false} NeverStops(h: seq<Call>, s: Settings)
    requires forall i: nat :: EscalatedAt(h, i, s) ==> h[i].id == ""
    ensures StopOf(h, s).id == ""
  {
    if h != [] {
      var front := h[..|h| - 1];
      forall i: nat ensures EscalatedAt(front, i, s) ==> front[i].id == "" { Before(h, i, s); }
      NeverStops(front, s);
      Before(h, |front|, s);
    }
  }

  /** The run stops at the first escalated call that has an id, by the rule that refused it. */
  lemma {:induction false} StopsAtFirstEscalation(h: seq<Call>, s: Settings, i: nat)
    requires FirstStop(h, s, i)
    ensures StopOf(h, s) == Stop(h[i].id, Some(BlockOf(h[..i + 1], s).value.rule))
  {
    var front := h[..|h| - 1];
    Before(h, i, s);
    forall k: nat | k < i ensures EscalatedAt(front, k, s) ==> front[k].id == "" { Before(h, k, s); }
    if i < |front| {
      StopsAtFirstEscalation(front, s, i);
      assert front[..i + 1] == h[..i + 1];
    } else {
      NeverStops(front, s);
      assert h[..|h|] == h;
    }
  }

  function RefusedCalls(h: seq<Call>, s: Settings): set<nat> { set i: nat | i < |h| && RefusedAt(h, i, s) }

  lemma RefusedBefore(h: seq<Call>, s: Settings)
    requires h != []
    ensures RefusedCalls(h, s) == RefusedCalls(h[..|h| - 1], s) + (if BlockOf(h, s).Some? then {|h| - 1} else {})
  {
    forall i: nat ensures i in RefusedCalls(h, s) <==> i in RefusedCalls(h[..|h| - 1], s) || (i == |h| - 1 && BlockOf(h, s).Some?) {
      Before(h, i, s);
    }
  }

  /** The counter holds how many calls were refused. */
  lemma {:induction false} RefusalsAreCounted(h: seq<Call>, s: Settings)
    ensures Refusals(h, s) == |RefusedCalls(h, s)|
  {
    if h != [] {
      var front := h[..|h| - 1];
      RefusalsAreCounted(front, s);
      RefusedBefore(h, s);
      assert |h| - 1 !in RefusedCalls(front, s);
    }
  }

  lemma EscalatesPastTheGrace(h: seq<Call>, s: Settings)
    requires h != [] && !OverCap(h, s) && BlockOf(h, s).Some?
    ensures var calls := Admitted(h, s);
            var n := Streak(calls, s);
            n > Grace(s) && calls[|calls| - 1] == h[|h| - 1] &&
            (Escalates(h, s) <==> h[|h| - 1].step > calls[|calls| - n + Grace(s)].step)
  {
    var calls := Admitted(h, s);
    assert calls[|calls| - 1] == h[|h| - 1];
    assert Streak(calls, s) >= 1;
  }

  /** A call escalates exactly when its step is later than its rule's first block, so every call of the
      response that block warned is only warned. */
  lemma EscalatesPastTheCap(h: seq<Call>, s: Settings)
    requires h != [] && OverCap(h, s)
    ensures exists i: nat :: FirstOverCap(h, s, h[|h| - 1].tool, i) && (Escalates(h, s) <==> h[|h| - 1].step > h[i].step)
  {
    Before(h, |h| - 1, s);
    var i := FirstOverCapExists(h, s, h[|h| - 1].tool, |h| - 1);
    WarnedAtFirst(h, s, h[|h| - 1].tool, i);
    assert FirstOverCap(h, s, h[|h| - 1].tool, i);
  }

  lemma EscalatesAfterTheWarning(h: seq<Call>, s: Settings)
    requires h != [] && BlockOf(h, s).Some?
    ensures BlockOf(h, s).value.rule == CallCap ==>
              exists i: nat :: FirstOverCap(h, s, h[|h| - 1].tool, i) && (Escalates(h, s) <==> h[|h| - 1].step > h[i].step)
    ensures BlockOf(h, s).value.rule == IdenticalArguments ==>
              var calls := Admitted(h, s);
              var n := Streak(calls, s);
              n > Grace(s) && calls[|calls| - 1] == h[|h| - 1] &&
              (Escalates(h, s) <==> h[|h| - 1].step > calls[|calls| - n + Grace(s)].step)
  {
    if OverCap(h, s) {
      EscalatesPastTheCap(h, s);
    } else {
      EscalatesPastTheGrace(h, s);
    }
  }
}
