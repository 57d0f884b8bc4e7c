/** Folding the older exchanges of a long history into one digest on its head request. */
module Compaction {
  import opened Wrappers
  import opened Messages
  import opened Pairing
  import opened Digest

  const COMPACT_AT_TOKENS := 100000
  const KEEP_RECENT_TOKENS := 50000
  const MIN_KEEP_RECENT := 2
  const CHARS_PER_TOKEN := 4
  const FILE_TOKENS := 1000

  // What a history costs.

  function ItemChars(item: Item): nat {
    match item
    case Str(text) => |text|
    case Words(text) => |text|
    case File(_) => FILE_TOKENS * CHARS_PER_TOKEN
    case CachePoint => 0
  }

  function ItemsChars(items: seq<Item>): nat {
    if items == [] then 0 else ItemChars(items[0]) + ItemsChars(items[1..])
  }

  function RequestPartChars(p: ReqPart): nat {
    match p
    case UserPrompt(Text(text)) => |text|
    case UserPrompt(Items(items, _)) => ItemsChars(items)
    case SystemPrompt(Text(text)) => |text|
    case SystemPrompt(Items(_, json)) => |json|
    case Return(_, _, body, _, _, _) => |Rendered(body)|
    case RetryFeedback(text) => |text|
    case OtherRequestPart => 0
  }

  function ResponsePartChars(p: RespPart): nat {
    match p
    case Call(_, tool, args) => |tool| + |args|
    case NativeCall(_, tool, args) => |tool| + |args|
    case Said(text) => |text|
    case Thinking(text) => |text|
    case NativeReturn(rendering) => |rendering|
    case Summary(text) => |text|
    case OtherResponsePart => 0
  }

  function RequestChars(parts: seq<ReqPart>): nat {
    if parts == [] then 0 else RequestPartChars(parts[0]) + RequestChars(parts[1..])
  }

  function ResponseChars(parts: seq<RespPart>): nat {
    if parts == [] then 0 else ResponsePartChars(parts[0]) + ResponseChars(parts[1..])
  }

  function Chars(ms: seq<Message>): nat {
    if ms == [] then 0
    else (match ms[0] case Request(parts) => RequestChars(parts) case Response(parts) => ResponseChars(parts)) + Chars(ms[1..])
  }

  function EstimatedTokens(ms: seq<Message>): nat { Chars(ms) / CHARS_PER_TOKEN }

  // Where the kept tail starts.

  /** An exchange: a response, and the request after it. */
  predicate PairAt(ms: seq<Message>, p: nat) { p + 1 < |ms| && ms[p].Response? && ms[p + 1].Request? }

  /** The tail counted so far: its start, what it costs, and how many exchanges it holds. */
  datatype Tail = Tail(start: nat, tokens: nat, exchanges: nat)

  predicate Stops(ms: seq<Message>, tail: Tail, p: nat)
    requires p <= tail.start <= |ms|
  {
    tail.exchanges >= MIN_KEEP_RECENT && tail.tokens + EstimatedTokens(ms[p..tail.start]) > KEEP_RECENT_TOKENS
  }

  function Longer(ms: seq<Message>, tail: Tail, p: nat): Tail
    requires p <= tail.start <= |ms|
  {
    Tail(p, tail.tokens + EstimatedTokens(ms[p..tail.start]), tail.exchanges + 1)
  }

  /** The tail once every message up to `i` has been looked at, newest first. */
  function Counted(ms: seq<Message>, i: int, tail: Tail): (counted: Tail)
    requires i < |ms| && tail.start <= |ms| && i <= tail.start
    ensures counted.start <= |ms|
    decreases i
  {
    if i < 1 then tail
    else if !PairAt(ms, i - 1) then Counted(ms, i - 1, tail)
    else if Stops(ms, tail, i - 1) then tail
    else Counted(ms, i - 2, Longer(ms, tail, i - 1))
  }

  /** The start moved back over the responses before it. */
  function Extended(ms: seq<Message>, start: nat): (earlier: nat)
    requires start <= |ms|
    ensures earlier <= start
  {
    if start > 1 && ms[start - 1].Response? then Extended(ms, start - 1) else start
  }

  function CountedTail(ms: seq<Message>): Tail { Counted(ms, |ms| - 1, Tail(|ms|, 0, 0)) }

  datatype TailSplit = TailSplit(start: nat, exchanges: nat)

  function Split(ms: seq<Message>): (split: TailSplit)
    ensures split.start <= |ms|
  {
    var tail := CountedTail(ms);
    if tail.exchanges == 0 then TailSplit(|ms|, 0) else TailSplit(Extended(ms, tail.start), tail.exchanges)
  }

  method SplitTail(ms: seq<Message>) returns (split: TailSplit)
    ensures split == Split(ms)
  {
    var exchanges: nat, keptTokens: nat := 0, 0;
    var start: nat := |ms|;
    var i := |ms| - 1;
    while i >= 1
      invariant i < |ms| && start <= |ms| && i <= start
      invariant CountedTail(ms) == Counted(ms, i, Tail(start, keptTokens, exchanges))
      decreases i
    {
      CountedNext(ms, i, Tail(start, keptTokens, exchanges));
      if !(ms[i].Request? && ms[i - 1].Response?) {
        i := i - 1;
        continue;
      }
      assert PairAt(ms, i - 1);
      var pairTokens := EstimatedTokens(ms[i - 1..start]);
      var overBudget := keptTokens + pairTokens > KEEP_RECENT_TOKENS;
      if exchanges >= MIN_KEEP_RECENT && overBudget {
        break;
      }
      exchanges := exchanges + 1;
      keptTokens := keptTokens + pairTokens;
      start := i - 1;
      i := i - 2;
    }
    if exchanges == 0 {
      return TailSplit(|ms|, 0);
    }
    start := OverResponses(ms, start);
    split := TailSplit(start, exchanges);
  }

  method OverResponses(ms: seq<Message>, counted: nat) returns (start: nat)
    requires counted <= |ms|
    ensures start == Extended(ms, counted)
  {
    start := counted;
    while start > 1 && ms[start - 1].Response?
      invariant start <= |ms| && Extended(ms, counted) == Extended(ms, start)
    {
      start := start - 1;
    }
  }

  // The head request.

  predicate IsDigest(p: ReqPart) { p.UserPrompt? && p.content.Text? && StartsWith(p.content.text, OPENING) }

  function WithoutDigests(parts: seq<ReqPart>): seq<ReqPart> {
    if parts == [] then []
    else if IsDigest(parts[|parts| - 1]) then WithoutDigests(parts[..|parts| - 1])
    else WithoutDigests(parts[..|parts| - 1]) + [parts[|parts| - 1]]
  }

  function PriorLines(parts: seq<ReqPart>): seq<string> {
    if parts == [] then []
    else if IsDigest(parts[|parts| - 1])
    then PriorLines(parts[..|parts| - 1]) + DigestBody(parts[|parts| - 1].content.text)
    else PriorLines(parts[..|parts| - 1])
  }

  method HeadWithoutDigests(parts: seq<ReqPart>) returns (kept: seq<ReqPart>, prior: seq<string>)
    ensures kept == WithoutDigests(parts) && prior == PriorLines(parts)
  {
    kept, prior := [], [];
    for i := 0 to |parts|
      invariant kept == WithoutDigests(parts[..i]) && prior == PriorLines(parts[..i])
    {
      assert parts[..i + 1][..i] == parts[..i];
      if IsDigest(parts[i]) {
        prior := prior + DigestBody(parts[i].content.text);
        continue;
      }
      kept := kept + [parts[i]];
    }
    assert parts[..|parts|] == parts;
  }

  function UpdatesIn(parts: seq<ReqPart>): seq<ReqPart> {
    if parts == [] then []
    else if IsSectionUpdate(parts[|parts| - 1]) then UpdatesIn(parts[..|parts| - 1]) + [parts[|parts| - 1]]
    else UpdatesIn(parts[..|parts| - 1])
  }

  /** The section updates of a history, whole and in order. */
  function SectionUpdates(ms: seq<Message>): seq<ReqPart> {
    if ms == [] then []
    else if ms[|ms| - 1].Request? then SectionUpdates(ms[..|ms| - 1]) + UpdatesIn(ms[|ms| - 1].req)
    else SectionUpdates(ms[..|ms| - 1])
  }

  function DigestPart(head: seq<ReqPart>, middle: seq<Message>): ReqPart {
    UserPrompt(Text(Capped(PriorLines(head) + DigestLines(middle))))
  }

  function CompactedHead(head: seq<ReqPart>, middle: seq<Message>): seq<ReqPart> {
    WithoutDigests(head) + [DigestPart(head, middle)] + SectionUpdates(middle)
  }

  // The whole pass.

  /** Where the tail of a history to compact starts, if it is to be compacted. */
  function Plan(ms: seq<Message>): (plan: Option<TailSplit>)
    ensures plan.Some? ==> 1 < plan.value.start < |ms| && ms[0].Request? && ms[|ms| - 1].Request?
  {
    if EstimatedTokens(ms) <= COMPACT_AT_TOKENS then None
    else if !ms[0].Request? || !ms[|ms| - 1].Request? then None
    else
      var split := Split(ms);
      if split.start <= 1 || split.start >= |ms| then None else Some(split)
  }

  predicate OrphanFree(ms: seq<Message>) { CalledIds(ms) == ReturnedIds(ms) }

  function CompactedAt(ms: seq<Message>, start: nat): seq<Message>
    requires 1 < start < |ms| && ms[0].Request?
  {
    [Request(CompactedHead(ms[0].req, ms[1..start]))] + ms[start..]
  }

  predicate GuardFires(ms: seq<Message>, start: nat)
    requires 1 < start < |ms| && ms[0].Request?
  {
    OrphanFree(ms) && !OrphanFree(CompactedAt(ms, start))
  }

  function Compacted(ms: seq<Message>): seq<Message> {
    match Plan(ms)
    case None => ms
    case Some(split) => if GuardFires(ms, split.start) then ms else CompactedAt(ms, split.start)
  }

  method IsOrphanFree(ms: seq<Message>) returns (free: bool)
    ensures free == OrphanFree(ms)
  {
    var ids := CollectIds(ms);
    forall x ensures x in CalledIds(ms) <==> x in ids.called { CalledMeans(ms, x); }
    forall x ensures x in ReturnedIds(ms) <==> x in ids.satisfied { ReturnedMeans(ms, x); }
    assert ids.called == CalledIds(ms) && ids.satisfied == ReturnedIds(ms);
    free := ids.called == ids.satisfied;
  }

  method CompactionPlan(ms: seq<Message>) returns (plan: Option<TailSplit>)
    ensures plan == Plan(ms)
  {
    if EstimatedTokens(ms) <= COMPACT_AT_TOKENS {
      return None;
    }
    if !ms[0].Request? {
      return None;
    }
    if !ms[|ms| - 1].Request? {
      return None;
    }
    var split := SplitTail(ms);
    if split.start <= 1 || split.start >= |ms| {
      return None;
    }
    plan := Some(split);
  }

  method CompactHistory(ms: seq<Message>) returns (result: seq<Message>)
    ensures result == Compacted(ms)
  {
    var plan := CompactionPlan(ms);
    if plan.None? {
      return ms;
    }
    var start := plan.value.start;
    var headParts, prior := HeadWithoutDigests(ms[0].req);
    var digest := BuildDigest(ms[1..start], prior);
    result := [Request(headParts + [UserPrompt(Text(digest))] + SectionUpdates(ms[1..start]))] + ms[start..];
    var free := IsOrphanFree(ms);
    var stillFree := IsOrphanFree(result);
    if free && !stillFree {
      return ms;
    }
  }

  // The tail is the newest exchanges that fit.

  function Exchanges(ms: seq<Message>, from: nat): nat
    decreases |ms| - from
  {
    if from >= |ms| then 0 else Exchanges(ms, from + 1) + (if PairAt(ms, from) then 1 else 0)
  }

  lemma {:induction false} CharsOfConcat(a: seq<Message>, b: seq<Message>)
    ensures Chars(a + b) == Chars(a) + Chars(b)
  {
    if a == [] {
      assert a + b == b;
    } else {
      CharsOfConcat(a[1..], b);
      assert (a + b)[1..] == a[1..] + b;
    }
  }

  /** What has been counted is what the tail holds, but for what each division dropped. */
  predicate Accounted(ms: seq<Message>, tail: Tail) {
    && tail.start <= |ms|
    && CHARS_PER_TOKEN * tail.tokens <= Chars(ms[tail.start..]) <= CHARS_PER_TOKEN * tail.tokens + 3 * tail.exchanges
    && tail.exchanges == Exchanges(ms, tail.start)
    && (tail.exchanges == 0 ==> tail.start == |ms|)
    && (tail.exchanges > 0 ==> PairAt(ms, tail.start))
    && (tail.exchanges > MIN_KEEP_RECENT ==> tail.tokens <= KEEP_RECENT_TOKENS)
  }

  predicate NoPairBetween(ms: seq<Message>, low: int, high: nat) {
    forall p: nat | low <= p < high :: !PairAt(ms, p)
  }

  lemma {:induction false} NoneBetween(ms: seq<Message>, low: nat, high: nat)
    requires low <= high <= |ms| && NoPairBetween(ms, low, high)
    ensures Exchanges(ms, low) == Exchanges(ms, high)
    decreases high - low
  {
    if low < high {
      NoneBetween(ms, low + 1, high);
    }
  }

  /** No earlier exchange could have been kept as well. */
  ghost predicate Maximal(ms: seq<Message>, tail: Tail) {
    forall p: nat | p < tail.start && PairAt(ms, p) ::
      tail.exchanges >= MIN_KEEP_RECENT && EstimatedTokens(ms[p..]) > KEEP_RECENT_TOKENS
  }

  lemma LongerIsAccounted(ms: seq<Message>, tail: Tail, p: nat)
    requires Accounted(ms, tail) && p < tail.start && PairAt(ms, p) && NoPairBetween(ms, p + 1, tail.start)
    requires !Stops(ms, tail, p)
    ensures Accounted(ms, Longer(ms, tail, p))
  {
    assert ms[p..] == ms[p..tail.start] + ms[tail.start..];
    CharsOfConcat(ms[p..tail.start], ms[tail.start..]);
    NoneBetween(ms, p + 1, tail.start);
  }

  lemma StoppedIsMaximal(ms: seq<Message>, tail: Tail, p: nat)
    requires Accounted(ms, tail) && p < tail.start && PairAt(ms, p) && NoPairBetween(ms, p + 1, tail.start)
    requires Stops(ms, tail, p)
    ensures Maximal(ms, tail)
  {
    forall q: nat | q < tail.start && PairAt(ms, q)
      ensures EstimatedTokens(ms[q..]) > KEEP_RECENT_TOKENS
    {
      assert q <= p;
      assert ms[q..] == ms[q..p] + ms[p..tail.start] + ms[tail.start..];
      CharsOfConcat(ms[q..p] + ms[p..tail.start], ms[tail.start..]);
      CharsOfConcat(ms[q..p], ms[p..tail.start]);
    }
  }

  /** What counting on from `i` comes to accounts for itself, and is maximal. */
  ghost predicate Settles(ms: seq<Message>, i: int, tail: Tail)
    requires i < |ms| && tail.start <= |ms| && i <= tail.start
  {
    Accounted(ms, Counted(ms, i, tail)) && Maximal(ms, Counted(ms, i, tail))
  }

  lemma CountedNext(ms: seq<Message>, i: int, tail: Tail)
    requires 1 <= i < |ms| && tail.start <= |ms| && i <= tail.start
    ensures Counted(ms, i, tail) ==
            if !PairAt(ms, i - 1) then Counted(ms, i - 1, tail)
            else if Stops(ms, tail, i - 1) then tail
            else Counted(ms, i - 2, Longer(ms, tail, i - 1))
  {
  }

  lemma NothingLeftToCount(ms: seq<Message>, i: int, tail: Tail)
    requires i < 1 && i < |ms| && tail.start <= |ms| && i <= tail.start
    requires Accounted(ms, tail) && NoPairBetween(ms, i, tail.start)
    ensures Maximal(ms, tail)
  {
    forall p: nat | p < tail.start ensures !PairAt(ms, p) {
      assert i <= p < tail.start;
    }
  }

  lemma {:induction false} CountedIsAccounted(ms: seq<Message>, i: int, tail: Tail)
    requires i < |ms| && tail.start <= |ms| && i <= tail.start
    requires Accounted(ms, tail) && NoPairBetween(ms, i, tail.start)
    ensures Settles(ms, i, tail)
    decreases i
  {
    if i < 1 {
      NothingLeftToCount(ms, i, tail);
    } else {
      CountedNext(ms, i, tail);
      if !PairAt(ms, i - 1) {
        CountedIsAccounted(ms, i - 1, tail);
      } else if Stops(ms, tail, i - 1) {
        StoppedIsMaximal(ms, tail, i - 1);
      } else {
        LongerIsAccounted(ms, tail, i - 1);
        assert NoPairBetween(ms, i - 2, i - 1);
        CountedIsAccounted(ms, i - 2, Longer(ms, tail, i - 1));
      }
    }
  }

  /** The counted tail is the longest run of newest exchanges within the budget, up to what its divisions
      drop; the newest two exchanges are kept whatever they cost. */
  lemma TailFitsBudget(ms: seq<Message>)
    ensures var tail := CountedTail(ms);
            Accounted(ms, tail) && Maximal(ms, tail) &&
            (tail.exchanges > MIN_KEEP_RECENT ==>
               Chars(ms[tail.start..]) <= CHARS_PER_TOKEN * KEEP_RECENT_TOKENS + 3 * tail.exchanges)
  {
    assert ms[|ms|..] == [];
    CountedIsAccounted(ms, |ms| - 1, Tail(|ms|, 0, 0));
  }

  lemma {:induction false} ExtendedOverResponses(ms: seq<Message>, start: nat)
    requires start <= |ms|
    ensures var earlier := Extended(ms, start);
            (forall i | earlier <= i < start :: ms[i].Response?) && (earlier > 1 ==> ms[earlier - 1].Request?)
  {
    if start > 1 && ms[start - 1].Response? {
      ExtendedOverResponses(ms, start - 1);
    }
  }

  /** What a pass that compacts may look like: a cut before a response and after a request. */
  ghost predicate CutsAt(ms: seq<Message>, start: nat) {
    && 1 < start < |ms| - 1
    && ms[0].Request? && ms[|ms| - 1].Request?
    && ms[start].Response? && ms[start - 1].Request?
    && (forall i | start <= i < CountedTail(ms).start :: ms[i].Response?)
  }

  lemma PlanCuts(ms: seq<Message>)
    requires Plan(ms).Some?
    ensures CutsAt(ms, Plan(ms).value.start) && Plan(ms).value.start <= CountedTail(ms).start
  {
    TailFitsBudget(ms);
    ExtendedOverResponses(ms, CountedTail(ms).start);
  }

  /** The result is the head with one digest and the middle's updates, then an exact suffix. */
  lemma CompactedShape(ms: seq<Message>)
    ensures Compacted(ms) == ms ||
            exists start: nat | CutsAt(ms, start) ::
              Compacted(ms) == CompactedAt(ms, start) && Compacted(ms)[1..] == ms[start..] &&
              Compacted(ms)[|Compacted(ms)| - 1] == ms[|ms| - 1]
  {
    if Plan(ms).Some? && Compacted(ms) != ms {
      PlanCuts(ms);
      SuffixStays(ms, Plan(ms).value.start);
    }
  }

  lemma SuffixStays(ms: seq<Message>, start: nat)
    requires 1 < start < |ms| && ms[0].Request?
    ensures var compacted := CompactedAt(ms, start); compacted[1..] == ms[start..] && compacted[|compacted| - 1] == ms[|ms| - 1]
    ensures forall i | 0 < i < |CompactedAt(ms, start)| :: CompactedAt(ms, start)[i] == ms[start + i - 1]
  {
  }

  /** A history a pass would shorten: over the threshold, with requests at both ends, and with a request
      between its head and its newest exchanges. */
  ghost predicate Due(ms: seq<Message>) {
    && Chars(ms) >= CHARS_PER_TOKEN * (COMPACT_AT_TOKENS + 1)
    && ms[0].Request? && ms[|ms| - 1].Request?
    && CountedTail(ms).exchanges > 0
    && exists i | 1 <= i < CountedTail(ms).start :: ms[i].Request?
  }

  lemma PlansExactlyWhenDue(ms: seq<Message>)
    ensures Plan(ms).Some? <==> Due(ms)
  {
    var tail := CountedTail(ms);
    TailFitsBudget(ms);
    ExtendedOverResponses(ms, tail.start);
    var earlier := Extended(ms, tail.start);
    if Due(ms) {
      var i :| 1 <= i < tail.start && ms[i].Request?;
      assert earlier > i;
      assert PairAt(ms, tail.start);
    }
    if Plan(ms).Some? {
      assert ms[earlier - 1].Request? && 1 <= earlier - 1 < tail.start;
    }
  }

  /** A history is left as it is exactly when it is not due, or when the guard refuses the pass. */
  lemma LeftAsItIsExactly(ms: seq<Message>)
    ensures Compacted(ms) == ms <==> !Due(ms) || (Plan(ms).Some? && GuardFires(ms, Plan(ms).value.start))
  {
    PlansExactlyWhenDue(ms);
    if Plan(ms).Some? {
      assert |CompactedAt(ms, Plan(ms).value.start)| < |ms|;
    }
  }

  // A pass never parts a call from its return.

  /** Every call is answered in the next message, and every return answers a call of the message before. */
  ghost predicate AnsweredInPlace(ms: seq<Message>) {
    forall i | 0 <= i < |ms| :: CallsAnswered(ms, i) && ReturnsCalled(ms, i)
  }

  ghost predicate CallsAnswered(ms: seq<Message>, i: nat)
    requires i < |ms|
  {
    ms[i].Response? ==>
      forall p <- ms[i].resp | p.Call? :: i + 1 < |ms| && ReturnedBy(ms[i + 1], p.id)
  }

  ghost predicate ReturnsCalled(ms: seq<Message>, i: nat)
    requires i < |ms|
  {
    ms[i].Request? ==>
      forall p <- ms[i].req | p.Return? :: i > 0 && CalledBy(ms[i - 1], p.id)
  }

  ghost predicate CalledBy(m: Message, id: string) { m.Response? && exists p <- m.resp :: p.Call? && p.id == id }

  ghost predicate ReturnedBy(m: Message, id: string) { m.Request? && exists p <- m.req :: p.Return? && p.id == id }

  lemma AnsweredInPlaceIsOrphanFree(ms: seq<Message>)
    requires AnsweredInPlace(ms)
    ensures OrphanFree(ms)
  {
    forall x ensures x in CalledIds(ms) <==> x in ReturnedIds(ms) {
      if x in CalledIds(ms) {
        var m, p :| m in ms && m.Response? && p in m.resp && p.Call? && p.id == x;
        var i :| 0 <= i < |ms| && ms[i] == m;
        assert CallsAnswered(ms, i) && ReturnedBy(ms[i + 1], x);
      }
      if x in ReturnedIds(ms) {
        var m, p :| m in ms && m.Request? && p in m.req && p.Return? && p.id == x;
        var i :| 0 <= i < |ms| && ms[i] == m;
        assert ReturnsCalled(ms, i) && CalledBy(ms[i - 1], x);
      }
    }
  }

  lemma {:induction false} WithoutDigestsKeeps(parts: seq<ReqPart>)
    ensures forall p <- WithoutDigests(parts) :: p in parts && !IsDigest(p)
  {
    if parts != [] {
      WithoutDigestsKeeps(parts[..|parts| - 1]);
    }
  }

  /** Of the head's own parts none is lost, repeated or moved. */
  lemma {:induction false} HeadKeepsItsOwn(parts: seq<ReqPart>)
    ensures Subsequence(WithoutDigests(parts), parts)
    ensures forall p :: multiset(WithoutDigests(parts))[p] == if IsDigest(p) then 0 else multiset(parts)[p]
  {
    if parts != [] {
      var front, last := parts[..|parts| - 1], parts[|parts| - 1];
      HeadKeepsItsOwn(front);
      assert parts == front + [last];
      if IsDigest(last) {
        SubsequenceSkips(WithoutDigests(front), front, last);
      }
    }
  }

  lemma {:induction false} UpdatesInAreUpdates(parts: seq<ReqPart>)
    ensures forall p <- UpdatesIn(parts) :: IsSectionUpdate(p)
  {
    if parts != [] {
      UpdatesInAreUpdates(parts[..|parts| - 1]);
    }
  }

  lemma {:induction false} UpdatesAreUpdates(ms: seq<Message>)
    ensures forall p <- SectionUpdates(ms) :: IsSectionUpdate(p)
  {
    if ms != [] {
      UpdatesAreUpdates(ms[..|ms| - 1]);
      if ms[|ms| - 1].Request? {
        UpdatesInAreUpdates(ms[|ms| - 1].req);
      }
    }
  }

  lemma HeadReturnsNothingNew(head: seq<ReqPart>, middle: seq<Message>)
    ensures forall p <- CompactedHead(head, middle) | p.Return? :: p in head
  {
    WithoutDigestsKeeps(head);
    UpdatesAreUpdates(middle);
  }

  lemma SuffixKeepsAnswers(ms: seq<Message>, start: nat, i: nat)
    requires CutsAt(ms, start) && 0 < i <= |ms| - start && CallsAnswered(ms, start + i - 1) && ReturnsCalled(ms, start + i - 1)
    ensures CallsAnswered(CompactedAt(ms, start), i) && ReturnsCalled(CompactedAt(ms, start), i)
  {
    SuffixStays(ms, start);
  }

  lemma CutKeepsAnswersInPlace(ms: seq<Message>, start: nat)
    requires CutsAt(ms, start) && AnsweredInPlace(ms)
    ensures AnsweredInPlace(CompactedAt(ms, start))
  {
    var result := CompactedAt(ms, start);
    assert ReturnsCalled(ms, 0);
    HeadReturnsNothingNew(ms[0].req, ms[1..start]);
    forall i | 0 <= i < |result| ensures CallsAnswered(result, i) && ReturnsCalled(result, i) {
      if i > 0 {
        assert CallsAnswered(ms, start + i - 1);
        SuffixKeepsAnswers(ms, start, i);
      }
    }
  }

  /** Where every call is answered in the next message the orphan guard never fires, and the result is
      such a history again. */
  lemma GuardNeverFires(ms: seq<Message>)
    requires AnsweredInPlace(ms)
    ensures Plan(ms).Some? ==> !GuardFires(ms, Plan(ms).value.start)
    ensures AnsweredInPlace(Compacted(ms))
  {
    if Plan(ms).Some? {
      PlanCuts(ms);
      CutKeepsAnswersInPlace(ms, Plan(ms).value.start);
      AnsweredInPlaceIsOrphanFree(CompactedAt(ms, Plan(ms).value.start));
    }
  }

  /** Every call is answered in the next message, whatever else answers it again. */
  ghost predicate EveryCallAnswered(ms: seq<Message>) {
    forall i | 0 <= i < |ms| :: CallsAnswered(ms, i)
  }

  predicate ReturnsPart(m: Message, p: ReqPart) { m.Request? && p in m.req && p.Return? }

  /** A return the pass keeps, in the head or the tail, though it drops every call of its id. */
  ghost predicate StrayReturn(ms: seq<Message>, start: nat)
    requires 0 < start < |ms|
  {
    exists m, p :: m in [ms[0]] + ms[start..] && ReturnsPart(m, p) && p.id !in CalledIds(ms[start..])
  }

  lemma HeadKeepsReturns(head: seq<ReqPart>, middle: seq<Message>, p: ReqPart)
    requires p in head && p.Return?
    ensures p in CompactedHead(head, middle)
  {
    KeptUnlessDigest(head, p);
  }

  lemma {:induction false} KeptUnlessDigest(parts: seq<ReqPart>, p: ReqPart)
    requires p in parts && !IsDigest(p)
    ensures p in WithoutDigests(parts)
  {
    if p != parts[|parts| - 1] {
      KeptUnlessDigest(parts[..|parts| - 1], p);
    }
  }

  /** The calls and the returns a pass keeps are the head's returns and the tail's own. */
  lemma KeptIds(ms: seq<Message>, start: nat)
    requires 1 < start < |ms| && ms[0].Request?
    ensures CalledIds(CompactedAt(ms, start)) == CalledIds(ms[start..])
    ensures forall x :: x in ReturnedIds(CompactedAt(ms, start)) <==>
              exists m, p :: m in [ms[0]] + ms[start..] && ReturnsPart(m, p) && p.id == x
  {
    var result, head, middle := CompactedAt(ms, start), ms[0].req, ms[1..start];
    assert result[0] == Request(CompactedHead(head, middle)) && result[1..] == ms[start..];
    HeadReturnsNothingNew(head, middle);
    forall x ensures x in ReturnedIds(result) <==>
                     exists m, p :: m in [ms[0]] + ms[start..] && ReturnsPart(m, p) && p.id == x {
      if x in ReturnedIds(result) {
        var m, p :| m in result && m.Request? && p in m.req && p.Return? && p.id == x;
        assert ReturnsPart(if m == result[0] then ms[0] else m, p);
      }
      if m, p :| m in [ms[0]] + ms[start..] && ReturnsPart(m, p) && p.id == x {
        if m == ms[0] {
          HeadKeepsReturns(head, middle, p);
          assert result[0] in result;
        } else {
          assert m in result;
        }
      }
    }
  }

  /** A call the tail keeps is answered in the tail. */
  lemma TailCallsAreReturned(ms: seq<Message>, start: nat)
    requires 1 < start < |ms| && ms[0].Request? && EveryCallAnswered(ms)
    ensures CalledIds(ms[start..]) <= ReturnedIds(CompactedAt(ms, start))
  {
    KeptIds(ms, start);
    forall x | x in CalledIds(ms[start..]) ensures x in ReturnedIds(CompactedAt(ms, start)) {
      var m, p :| m in ms[start..] && m.Response? && p in m.resp && p.Call? && p.id == x;
      var i :| start <= i < |ms| && ms[i] == m;
      assert CallsAnswered(ms, i) && ReturnedBy(ms[i + 1], x);
      var answer :| answer in ms[i + 1].req && answer.Return? && answer.id == x;
      assert ReturnsPart(ms[i + 1], answer) && ms[i + 1] in [ms[0]] + ms[start..];
    }
  }

  /** Where every call is answered in the next message, the guard refuses a pass over an orphan-free
      history exactly when what is kept answers again a call that is not. */
  lemma GuardFiresExactlyOnAStrayReturn(ms: seq<Message>, start: nat)
    requires 1 < start < |ms| && ms[0].Request? && EveryCallAnswered(ms)
    ensures GuardFires(ms, start) <==> OrphanFree(ms) && StrayReturn(ms, start)
  {
    KeptIds(ms, start);
    TailCallsAreReturned(ms, start);
    if StrayReturn(ms, start) {
      var m, p :| m in [ms[0]] + ms[start..] && ReturnsPart(m, p) && p.id !in CalledIds(ms[start..]);
      assert p.id in ReturnedIds(CompactedAt(ms, start));
    } else {
      assert ReturnedIds(CompactedAt(ms, start)) <= CalledIds(ms[start..]);
    }
  }

  function Answering(id: string, body: Body): ReqPart { Return(id, "", body, false, true, false) }

  /** A long answer to the first call, and a second one to it beside the second call's. */
  function AnsweredAgain(long: string): seq<Message> {
    [Request([]), Response([Call("a", "", "")]), Request([Answering("a", Plain(long))])] +
    [Response([Call("b", "", "")]), Request([Answering("b", Plain("")), Answering("a", Plain(""))]),
     Response([Call("c", "", "")]), Request([Answering("c", Plain(""))])]
  }

  lemma AnsweredAgainSplit(long: string)
    requires |long| >= CHARS_PER_TOKEN * (COMPACT_AT_TOKENS + 1)
    ensures EstimatedTokens(AnsweredAgain(long)) > COMPACT_AT_TOKENS
    ensures Split(AnsweredAgain(long)) == TailSplit(3, 2)
  {
    var ms := AnsweredAgain(long);
    var answer := ms[2];
    assert Chars([answer]) == |long| by {
      assert answer.req[1..] == [];
      assert RequestPartChars(answer.req[0]) == |long|;
      assert RequestChars(answer.req) == |long|;
      assert [answer][1..] == [];
    }
    assert ms[1..3] == [ms[1]] + [answer];
    CharsOfConcat([ms[1]], [answer]);
    assert ms == [ms[0]] + ms[1..3] + ms[3..];
    CharsOfConcat([ms[0]] + ms[1..3], ms[3..]);
    CharsOfConcat([ms[0]], ms[1..3]);
    assert EstimatedTokens(ms[1..3]) > KEEP_RECENT_TOKENS;
    var last := Longer(ms, Tail(7, 0, 0), 5);
    var both := Longer(ms, last, 3);
    assert Counted(ms, 6, Tail(7, 0, 0)) == Counted(ms, 4, last) == Counted(ms, 2, both) == both;
  }

  lemma AnsweredAgainIsStray(long: string)
    ensures StrayReturn(AnsweredAgain(long), 3)
  {
    var ms := AnsweredAgain(long);
    var again := Answering("a", Plain(""));
    assert ms[4] in [ms[0]] + ms[3..] && ReturnsPart(ms[4], again);
    forall m | m in ms[3..] ensures !CalledBy(m, "a") {
    }
    assert "a" !in CalledIds(ms[3..]);
  }

  lemma AnsweredAgainIsOrphanFree(long: string)
    ensures EveryCallAnswered(AnsweredAgain(long)) && OrphanFree(AnsweredAgain(long))
  {
  }

  /** The guard does fire: an answer in the tail to a call that was dropped leaves the history as it is. */
  lemma AnAnswerAgainStopsThePass(long: string)
    requires |long| >= CHARS_PER_TOKEN * (COMPACT_AT_TOKENS + 1)
    ensures var ms := AnsweredAgain(long);
            EveryCallAnswered(ms) && Plan(ms) == Some(TailSplit(3, 2)) && GuardFires(ms, 3) && Compacted(ms) == ms
  {
    AnsweredAgainSplit(long);
    AnsweredAgainIsStray(long);
    AnsweredAgainIsOrphanFree(long);
    GuardFiresExactlyOnAStrayReturn(AnsweredAgain(long), 3);
  }

  /** Whatever the history, a pass leaves no orphan where there was none. */
  lemma CompactionMakesNoOrphan(ms: seq<Message>)
    requires OrphanFree(ms)
    ensures OrphanFree(Compacted(ms))
  {
  }

  // A pass keeps every section update.

  lemma {:induction false} UpdatesInConcat(a: seq<ReqPart>, b: seq<ReqPart>)
    ensures UpdatesIn(a + b) == UpdatesIn(a) + UpdatesIn(b)
  {
    if b == [] {
      assert a + b == a;
    } else {
      assert (a + b)[..|a + b| - 1] == a + b[..|b| - 1];
      UpdatesInConcat(a, b[..|b| - 1]);
    }
  }

  lemma {:induction false} UpdatesOfConcat(a: seq<Message>, b: seq<Message>)
    ensures SectionUpdates(a + b) == SectionUpdates(a) + SectionUpdates(b)
  {
    if b == [] {
      assert a + b == a;
    } else {
      assert (a + b)[..|a + b| - 1] == a + b[..|b| - 1];
      UpdatesOfConcat(a, b[..|b| - 1]);
    }
  }

  lemma UpdatesOfRequest(parts: seq<ReqPart>)
    ensures SectionUpdates([Request(parts)]) == UpdatesIn(parts)
  {
    assert [Request(parts)][..0] == [];
  }

  lemma UpdateAdded(front: seq<ReqPart>, p: ReqPart)
    requires IsSectionUpdate(p)
    ensures UpdatesIn(front + [p]) == UpdatesIn(front) + [p]
  {
    assert (front + [p])[..|front|] == front;
  }

  lemma {:induction false} UpdatesOfUpdates(parts: seq<ReqPart>)
    requires forall p <- parts :: IsSectionUpdate(p)
    ensures UpdatesIn(parts) == parts
  {
    if parts != [] {
      var front, p := parts[..|parts| - 1], parts[|parts| - 1];
      assert p in parts;
      UpdatesOfUpdates(front);
      UpdateAdded(front, p);
      assert front + [p] == parts;
    }
  }

  lemma {:induction false} UpdatesWithoutDigests(parts: seq<ReqPart>)
    ensures UpdatesIn(WithoutDigests(parts)) == UpdatesIn(parts)
  {
    if parts != [] {
      var front, p := parts[..|parts| - 1], parts[|parts| - 1];
      UpdatesWithoutDigests(front);
      if IsDigest(p) {
        DigestIsNoUpdate(p);
      } else {
        var kept := WithoutDigests(front);
        assert (kept + [p])[..|kept|] == kept;
      }
    }
  }

  lemma DigestIsNoUpdate(p: ReqPart)
    requires IsDigest(p)
    ensures !IsSectionUpdate(p)
  {
    assert p.content.text[0] == OPENING[0] == 'E' && SECTION_UPDATE_LEAD[0] == 'B';
    var text := p.content.text;
    assert Texts(p.content) == [text] && [text][1..] == [];
    assert !StartsWith(text, SECTION_UPDATE_LEAD);
    assert FirstUpdate([text]) == FirstUpdate([]);
  }

  lemma CappedIsDigest(lines: seq<string>)
    ensures IsDigest(UserPrompt(Text(Capped(lines))))
  {
    var kept, over := CappedLines(lines), OverCap(lines);
    var all := (if over then [OPENING, OMITTED] else [OPENING]) + kept + [CLOSING];
    assert Capped(lines) == Joined(all, "\n") && all[0] == OPENING && |all| > 1;
  }

  lemma CutKeepsUpdates(head: seq<ReqPart>, middle: seq<Message>, tail: seq<Message>)
    ensures SectionUpdates([Request(CompactedHead(head, middle))] + tail) ==
            SectionUpdates([Request(head)] + middle + tail)
  {
    var compact := CompactedHead(head, middle);
    UpdatesOfConcat([Request(compact)], tail);
    UpdatesOfRequest(compact);
    HeadKeepsUpdates(head, middle);
    UpdatesOfRequest(head);
    UpdatesOfConcat([Request(head)], middle);
    UpdatesOfConcat([Request(head)] + middle, tail);
  }

  lemma CompactionKeepsUpdates(ms: seq<Message>)
    ensures SectionUpdates(Compacted(ms)) == SectionUpdates(ms)
  {
    if Plan(ms).Some? {
      CompactedAtKeepsUpdates(ms, Plan(ms).value.start);
    }
  }

  lemma AtStart(ms: seq<Message>, start: nat)
    requires 1 < start < |ms| && ms[0].Request?
    ensures ms == [Request(ms[0].req)] + ms[1..start] + ms[start..]
  {
  }

  lemma CompactedAtUpdates(ms: seq<Message>, start: nat)
    requires 1 < start < |ms| && ms[0].Request?
    ensures SectionUpdates(CompactedAt(ms, start)) == SectionUpdates([Request(ms[0].req)] + ms[1..start] + ms[start..])
  {
    CutKeepsUpdates(ms[0].req, ms[1..start], ms[start..]);
  }

  lemma CompactedAtKeepsUpdates(ms: seq<Message>, start: nat)
    requires 1 < start < |ms| && ms[0].Request?
    ensures SectionUpdates(CompactedAt(ms, start)) == SectionUpdates(ms)
  {
    AtStart(ms, start);
    CompactedAtUpdates(ms, start);
  }

  lemma HeadKeepsUpdates(head: seq<ReqPart>, middle: seq<Message>)
    ensures UpdatesIn(CompactedHead(head, middle)) == UpdatesIn(head) + SectionUpdates(middle)
  {
    var kept, digest, updates := WithoutDigests(head), DigestPart(head, middle), SectionUpdates(middle);
    CappedIsDigest(PriorLines(head) + DigestLines(middle));
    DigestIsNoUpdate(digest);
    UpdatesAreUpdates(middle);
    UpdatesOfUpdates(updates);
    UpdatesInConcat(kept + [digest], updates);
    assert (kept + [digest])[..|kept|] == kept;
    UpdatesWithoutDigests(head);
  }

  // A pass keeps what the user said.

  /** A tool name no digest line could mistake for the user's words. */
  predicate PlainTool(p: RespPart) { (p.Call? || p.NativeCall?) ==> forall c <- p.tool :: !IsSpace(c) }

  predicate PlainTools(ms: seq<Message>) {
    forall m <- ms | m.Response? :: forall p <- m.resp :: PlainTool(p)
  }

  /** What the user said in a history, as its digest's lines. */
  function Sayings(ms: seq<Message>): seq<string> {
    if ms == [] then []
    else if ms[|ms| - 1].Request? then Sayings(ms[..|ms| - 1]) + RequestLines(ms[|ms| - 1].req)
    else Sayings(ms[..|ms| - 1])
  }

  lemma {:induction false} SayingsOfConcat(a: seq<Message>, b: seq<Message>)
    ensures Sayings(a + b) == Sayings(a) + Sayings(b)
  {
    if b == [] {
      assert a + b == a;
    } else {
      assert (a + b)[..|a + b| - 1] == a + b[..|b| - 1];
      SayingsOfConcat(a, b[..|b| - 1]);
    }
  }

  lemma {:induction false} RequestLinesAreUsers(parts: seq<ReqPart>)
    ensures UserLines(RequestLines(parts)) == RequestLines(parts)
  {
    if parts != [] {
      var before, line := RequestLines(parts[..|parts| - 1]), RequestLine(parts[|parts| - 1]);
      RequestLinesAreUsers(parts[..|parts| - 1]);
      if line == [] {
        assert before + line == before;
      } else {
        UsersOfSnoc(before, line[0]);
      }
    }
  }

  lemma CallLineIsNotUsers(id: string, tool: string, args: string, results: map<string, string>)
    requires forall c <- tool :: !IsSpace(c)
    ensures !IsUserLine(CallLine(id, tool, args, results))
  {
    var line := CallLine(id, tool, args, results);
    assert line[2..2 + |tool|] == tool && line[2 + |tool|] == '(';
    assert USER_LINE_PREFIX[6] == ' ' && forall k | 2 <= k <= 6 :: USER_LINE_PREFIX[k] != '(';
    if |tool| > 4 {
      assert line[6] == line[2..2 + |tool|][4] == tool[4] && tool[4] in tool;
      assert line[6] != USER_LINE_PREFIX[6];
    } else {
      assert line[2 + |tool|] != USER_LINE_PREFIX[2 + |tool|];
    }
  }

  lemma ResponseLineIsOther(p: RespPart, results: map<string, string>)
    requires PlainTool(p)
    ensures var line := ResponseLine(p, results); line == [] || (|line| == 1 && !IsUserLine(line[0]))
  {
    match p
    case Said(text) =>
      if !Blank(text) {
        assert ResponseLine(p, results)[0][2] == 's' && USER_LINE_PREFIX[2] == 'u';
      }
    case Call(id, tool, args) => CallLineIsNotUsers(id, tool, args, results);
    case NativeCall(id, tool, args) => CallLineIsNotUsers(id, tool, args, results);
    case _ =>
  }

  lemma {:induction false} ResponseLinesAreOthers(parts: seq<RespPart>, results: map<string, string>)
    requires forall p <- parts :: PlainTool(p)
    ensures UserLines(ResponseLines(parts, results)) == []
  {
    if parts != [] {
      var last := parts[|parts| - 1];
      var before, line := ResponseLines(parts[..|parts| - 1], results), ResponseLine(last, results);
      ResponseLinesAreOthers(parts[..|parts| - 1], results);
      ResponseLineIsOther(last, results);
      if line == [] {
        assert before + line == before;
      } else {
        assert line == [line[0]];
        UsersOfSnoc(before, line[0]);
      }
    }
  }

  lemma {:induction false} UsersOfLines(middle: seq<Message>, results: map<string, string>)
    requires PlainTools(middle)
    ensures UserLines(LinesWith(middle, results)) == Sayings(middle)
  {
    if middle != [] {
      var front, m := middle[..|middle| - 1], middle[|middle| - 1];
      UsersOfLines(front, results);
      match m
      case Request(parts) =>
        RequestLinesAreUsers(parts);
        UsersOfConcat(LinesWith(front, results), RequestLines(parts));
      case Response(parts) =>
        ResponseLinesAreOthers(parts, results);
        UsersOfConcat(LinesWith(front, results), ResponseLines(parts, results));
    }
  }

  lemma PlainToolsAreOneLine(ms: seq<Message>)
    requires PlainTools(ms)
    ensures OneLineTools(ms)
  {
    forall m <- ms | m.Response? ensures forall p <- m.resp :: OneLineTool(p) {
      forall p <- m.resp ensures OneLineTool(p) { assert PlainTool(p); }
    }
  }

  lemma {:induction false} PriorLinesAreCarriable(parts: seq<ReqPart>)
    ensures AllCarriable(PriorLines(parts))
  {
    if parts != [] {
      PriorLinesAreCarriable(parts[..|parts| - 1]);
    }
  }

  lemma {:induction false} PriorLinesOfConcat(a: seq<ReqPart>, b: seq<ReqPart>)
    ensures PriorLines(a + b) == PriorLines(a) + PriorLines(b)
  {
    if b == [] {
      assert a + b == a;
    } else {
      assert (a + b)[..|a + b| - 1] == a + b[..|b| - 1];
      PriorLinesOfConcat(a, b[..|b| - 1]);
    }
  }

  lemma {:induction false} NoDigestNoLines(parts: seq<ReqPart>)
    requires forall p <- parts :: !IsDigest(p)
    ensures PriorLines(parts) == [] && WithoutDigests(parts) == parts
  {
    if parts != [] {
      NoDigestNoLines(parts[..|parts| - 1]);
    }
  }

  /** The compacted head's one digest reads back as the lines the cap kept. */
  lemma {:induction false} CompactedHeadReadsBack(head: seq<ReqPart>, middle: seq<Message>)
    requires OneLineTools(middle)
    ensures PriorLines(CompactedHead(head, middle)) == CappedLines(PriorLines(head) + DigestLines(middle))
    ensures forall p <- WithoutDigests(head) + SectionUpdates(middle) :: !IsDigest(p)
    ensures IsDigest(DigestPart(head, middle))
  {
    var kept, digest, updates := WithoutDigests(head), DigestPart(head, middle), SectionUpdates(middle);
    var lines := PriorLines(head) + DigestLines(middle);
    WithoutDigestsKeeps(head);
    UpdatesAreUpdates(middle);
    forall p <- updates ensures !IsDigest(p) { if IsDigest(p) { DigestIsNoUpdate(p); } }
    NoDigestNoLines(kept);
    NoDigestNoLines(updates);
    PriorLinesOfConcat(kept + [digest], updates);
    assert (kept + [digest])[..|kept|] == kept;
    CappedIsDigest(lines);
    PriorLinesAreCarriable(head);
    DigestLinesAreCarriable(middle);
    BodyUndoesCapped(lines);
  }

  /** Everything the user is recorded to have said: in the head's digests, and after the head. */
  function AllSayings(ms: seq<Message>): seq<string> {
    if ms == [] || ms[0].Response? then Sayings(ms)
    else UserLines(PriorLines(ms[0].req)) + Sayings(ms[1..])
  }

  lemma AddedSayings(prior: seq<string>, middle: seq<Message>)
    requires PlainTools(middle)
    ensures UserLines(prior + DigestLines(middle)) == UserLines(prior) + Sayings(middle)
  {
    UsersOfConcat(prior, DigestLines(middle));
    UsersOfLines(middle, MiddleResults(middle));
  }

  lemma HeadSayings(head: seq<ReqPart>, middle: seq<Message>)
    requires PlainTools(middle)
    ensures UserLines(PriorLines(CompactedHead(head, middle))) == UserLines(PriorLines(head) + DigestLines(middle))
  {
    PlainToolsAreOneLine(middle);
    CompactedHeadReadsBack(head, middle);
    CapKeepsUsers(PriorLines(head) + DigestLines(middle));
  }

  lemma CutKeepsSayings(head: seq<ReqPart>, middle: seq<Message>, tail: seq<Message>)
    requires PlainTools(middle)
    ensures UserLines(PriorLines(CompactedHead(head, middle))) + Sayings(tail) ==
            UserLines(PriorLines(head)) + Sayings(middle + tail)
  {
    HeadSayings(head, middle);
    AddedSayings(PriorLines(head), middle);
    SayingsOfConcat(middle, tail);
    Regrouped(UserLines(PriorLines(head)), Sayings(middle), Sayings(tail));
  }

  lemma Regrouped(a: seq<string>, b: seq<string>, c: seq<string>)
    ensures (a + b) + c == a + (b + c)
  {
  }

  /** A pass loses nothing the user said, whatever the cap drops. */
  lemma CompactionKeepsSayings(ms: seq<Message>)
    requires PlainTools(ms)
    ensures AllSayings(Compacted(ms)) == AllSayings(ms) && PlainTools(Compacted(ms))
  {
    if Plan(ms).Some? {
      CompactedAtKeepsSayings(ms, Plan(ms).value.start);
    }
  }

  lemma CompactedAtKeepsSayings(ms: seq<Message>, start: nat)
    requires 1 < start < |ms| && ms[0].Request? && PlainTools(ms)
    ensures AllSayings(CompactedAt(ms, start)) == AllSayings(ms) && PlainTools(CompactedAt(ms, start))
  {
    var head, middle, tail := ms[0].req, ms[1..start], ms[start..];
    CutKeepsSayings(head, middle, tail);
    AfterHead(ms, start);
  }

  lemma AfterHead(ms: seq<Message>, start: nat)
    requires 1 < start < |ms| && ms[0].Request?
    ensures ms[1..] == ms[1..start] + ms[start..] && CompactedAt(ms, start)[1..] == ms[start..]
  {
  }

  /** A run: the history grows and goes through a pass, again and again. */
  function Grown(ms: seq<Message>, growth: seq<seq<Message>>, pass: seq<Message> -> seq<Message>): seq<Message> {
    if growth == [] then ms else pass(Grown(ms, growth[..|growth| - 1], pass) + growth[|growth| - 1])
  }

  /** The history of a run that goes through no pass. */
  function Whole(ms: seq<Message>, growth: seq<seq<Message>>): seq<Message> {
    if growth == [] then ms else Whole(ms, growth[..|growth| - 1]) + growth[|growth| - 1]
  }

  /** `run` stands for `all`: the same section updates, and the same words of the user. */
  ghost predicate StandsFor(run: seq<Message>, all: seq<Message>) {
    && run != [] && run[0].Request? && all != [] && all[0].Request? && PlainTools(run)
    && SectionUpdates(run) == SectionUpdates(all) && AllSayings(run) == AllSayings(all)
  }

  lemma GrowingSays(ms: seq<Message>, ext: seq<Message>)
    requires ms != [] && ms[0].Request?
    ensures AllSayings(ms + ext) == AllSayings(ms) + Sayings(ext)
  {
    assert (ms + ext)[1..] == ms[1..] + ext;
    SayingsOfConcat(ms[1..], ext);
  }

  lemma StandsForGrows(run: seq<Message>, all: seq<Message>, ext: seq<Message>)
    requires StandsFor(run, all) && PlainTools(ext)
    ensures StandsFor(run + ext, all + ext)
  {
    UpdatesOfConcat(run, ext);
    UpdatesOfConcat(all, ext);
    GrowingSays(run, ext);
    GrowingSays(all, ext);
  }

  lemma PlainParts(a: seq<Message>, b: seq<Message>)
    requires PlainTools(a + b)
    ensures PlainTools(a) && PlainTools(b)
  {
    forall m | m in a || m in b ensures m in a + b { }
  }

  lemma {:induction false} GrownStandsFor(ms: seq<Message>, growth: seq<seq<Message>>, pass: seq<Message> -> seq<Message>)
    requires ms != [] && ms[0].Request? && PlainTools(Whole(ms, growth))
    requires forall h: seq<Message> {:trigger pass(h)} | h != [] && h[0].Request? && PlainTools(h) :: StandsFor(pass(h), h)
    ensures StandsFor(Grown(ms, growth, pass), Whole(ms, growth))
  {
    if growth != [] {
      var front, ext := growth[..|growth| - 1], growth[|growth| - 1];
      PlainParts(Whole(ms, front), ext);
      GrownStandsFor(ms, front, pass);
      StandsForGrows(Grown(ms, front, pass), Whole(ms, front), ext);
    }
  }

  lemma CompactedStandsFor(ms: seq<Message>)
    requires ms != [] && ms[0].Request? && PlainTools(ms)
    ensures StandsFor(Compacted(ms), ms)
  {
    CompactionKeepsUpdates(ms);
    CompactionKeepsSayings(ms);
  }

  /** However often a run is compacted, it still holds every section update and everything the user
      said, in order. */
  lemma {:induction false} RunsForgetNothingSaid(ms: seq<Message>, growth: seq<seq<Message>>)
    requires ms != [] && ms[0].Request? && PlainTools(Whole(ms, growth))
    ensures StandsFor(Grown(ms, growth, Compacted), Whole(ms, growth))
  {
    forall h: seq<Message> | h != [] && h[0].Request? && PlainTools(h) ensures StandsFor(Compacted(h), h) {
      CompactedStandsFor(h);
    }
    GrownStandsFor(ms, growth, Compacted);
  }

  /** The head a pass makes carries exactly one digest. */
  lemma OneDigest(head: seq<ReqPart>, middle: seq<Message>)
    ensures var parts, at := CompactedHead(head, middle), |WithoutDigests(head)|;
            at < |parts| && forall i | 0 <= i < |parts| :: IsDigest(parts[i]) <==> i == at
  {
    var kept, updates := WithoutDigests(head), SectionUpdates(middle);
    var parts := CompactedHead(head, middle);
    CappedIsDigest(PriorLines(head) + DigestLines(middle));
    WithoutDigestsKeeps(head);
    UpdatesAreUpdates(middle);
    forall i | 0 <= i < |parts| ensures IsDigest(parts[i]) <==> i == |kept| {
      if i > |kept| {
        assert parts[i] == updates[i - |kept| - 1] && IsSectionUpdate(parts[i]);
        if IsDigest(parts[i]) { DigestIsNoUpdate(parts[i]); }
      }
    }
  }
}
