/** Repairing a history so that every tool call has its return and every return its call. */
module Pairing {
  import opened Messages

  const PLACEHOLDER := "Tool call was not executed (prior stream error). Treat as failed and proceed without the expected result."

  /** A return that answers its call for good. */
  predicate IsAnswer(p: ReqPart) { p.Return? && !p.retried }

  // How often an id is called, answered and returned.

  function CallsIn(parts: seq<RespPart>, id: string): nat {
    if parts == [] then 0
    else CallsIn(parts[..|parts| - 1], id) + (var p := parts[|parts| - 1]; if p.Call? && p.id == id then 1 else 0)
  }

  function AnswersIn(parts: seq<ReqPart>, id: string): nat {
    if parts == [] then 0
    else AnswersIn(parts[..|parts| - 1], id) + (var p := parts[|parts| - 1]; if IsAnswer(p) && p.id == id then 1 else 0)
  }

  function ReturnsIn(parts: seq<ReqPart>, id: string): nat {
    if parts == [] then 0
    else ReturnsIn(parts[..|parts| - 1], id) + (var p := parts[|parts| - 1]; if p.Return? && p.id == id then 1 else 0)
  }

  function Calls(ms: seq<Message>, id: string): nat {
    if ms == [] then 0
    else Calls(ms[..|ms| - 1], id) + (var m := ms[|ms| - 1]; if m.Response? then CallsIn(m.resp, id) else 0)
  }

  function Answers(ms: seq<Message>, id: string): nat {
    if ms == [] then 0
    else Answers(ms[..|ms| - 1], id) + (var m := ms[|ms| - 1]; if m.Request? then AnswersIn(m.req, id) else 0)
  }

  function Returns(ms: seq<Message>, id: string): nat {
    if ms == [] then 0
    else Returns(ms[..|ms| - 1], id) + (var m := ms[|ms| - 1]; if m.Request? then ReturnsIn(m.req, id) else 0)
  }

  /** What the first scan of a history finds. */
  datatype Ids = Ids(called: set<string>, satisfied: set<string>, duplicateReturns: bool, duplicateCalls: bool)

  ghost predicate Collected(ms: seq<Message>, ids: Ids) {
    && (forall x :: x in ids.called <==> Calls(ms, x) > 0)
    && (forall x :: x in ids.satisfied <==> Returns(ms, x) > 0)
    && (!ids.duplicateReturns <==> forall x :: Answers(ms, x) <= 1)
    && (!ids.duplicateCalls <==> forall x :: Calls(ms, x) <= 1)
  }

  method CollectCalls(parts: seq<RespPart>, before: set<string>, twice: bool, ghost earlier: string -> nat)
      returns (called: set<string>, duplicate: bool)
    requires forall x :: x in before <==> earlier(x) > 0
    requires !twice <==> forall x :: earlier(x) <= 1
    ensures forall x :: x in called <==> earlier(x) + CallsIn(parts, x) > 0
    ensures !duplicate <==> forall x :: earlier(x) + CallsIn(parts, x) <= 1
  {
    called, duplicate := before, twice;
    for j := 0 to |parts|
      invariant forall x :: x in called <==> earlier(x) + CallsIn(parts[..j], x) > 0
      invariant !duplicate <==> forall x :: earlier(x) + CallsIn(parts[..j], x) <= 1
    {
      assert parts[..j + 1][..j] == parts[..j];
      if parts[j].Call? {
        ghost var id := parts[j].id;
        assert earlier(id) + CallsIn(parts[..j + 1], id) <= 1 <==> id !in called;
        if parts[j].id in called {
          duplicate := true;
        }
        called := called + {parts[j].id};
      }
    }
    assert parts[..|parts|] == parts;
  }

  method CollectAnswers(parts: seq<ReqPart>, before: set<string>, twice: bool, ghost earlier: string -> nat)
      returns (seenReturns: set<string>, duplicate: bool)
    requires forall x :: x in before <==> earlier(x) > 0
    requires !twice <==> forall x :: earlier(x) <= 1
    ensures forall x :: x in seenReturns <==> earlier(x) + AnswersIn(parts, x) > 0
    ensures !duplicate <==> forall x :: earlier(x) + AnswersIn(parts, x) <= 1
  {
    seenReturns, duplicate := before, twice;
    for j := 0 to |parts|
      invariant forall x :: x in seenReturns <==> earlier(x) + AnswersIn(parts[..j], x) > 0
      invariant !duplicate <==> forall x :: earlier(x) + AnswersIn(parts[..j], x) <= 1
    {
      assert parts[..j + 1][..j] == parts[..j];
      if IsAnswer(parts[j]) {
        ghost var id := parts[j].id;
        assert earlier(id) + AnswersIn(parts[..j + 1], id) <= 1 <==> id !in seenReturns;
        if parts[j].id in seenReturns {
          duplicate := true;
        }
        seenReturns := seenReturns + {parts[j].id};
      }
    }
    assert parts[..|parts|] == parts;
  }

  method CollectReturns(parts: seq<ReqPart>, before: set<string>) returns (satisfied: set<string>)
    ensures forall x :: x in satisfied <==> x in before || ReturnsIn(parts, x) > 0
  {
    satisfied := before;
    for j := 0 to |parts|
      invariant forall x :: x in satisfied <==> x in before || ReturnsIn(parts[..j], x) > 0
    {
      assert parts[..j + 1][..j] == parts[..j];
      if parts[j].Return? {
        satisfied := satisfied + {parts[j].id};
      }
    }
    assert parts[..|parts|] == parts;
  }

  method CollectIds(ms: seq<Message>) returns (ids: Ids)
    ensures Collected(ms, ids)
  {
    var called: set<string>, satisfied: set<string>, seenReturns: set<string> := {}, {}, {};
    var duplicateReturns, duplicateCalls := false, false;
    for i := 0 to |ms|
      invariant forall x :: x in called <==> Calls(ms[..i], x) > 0
      invariant forall x :: x in satisfied <==> Returns(ms[..i], x) > 0
      invariant forall x :: x in seenReturns <==> Answers(ms[..i], x) > 0
      invariant !duplicateReturns <==> forall x :: Answers(ms[..i], x) <= 1
      invariant !duplicateCalls <==> forall x :: Calls(ms[..i], x) <= 1
    {
      assert ms[..i + 1][..i] == ms[..i];
      match ms[i] {
        case Response(parts) =>
          called, duplicateCalls := CollectCalls(parts, called, duplicateCalls, x => Calls(ms[..i], x));
          assert forall x :: Calls(ms[..i + 1], x) == Calls(ms[..i], x) + CallsIn(parts, x);
        case Request(parts) =>
          satisfied := CollectReturns(parts, satisfied);
          seenReturns, duplicateReturns := CollectAnswers(parts, seenReturns, duplicateReturns, x => Answers(ms[..i], x));
          assert forall x :: Answers(ms[..i + 1], x) == Answers(ms[..i], x) + AnswersIn(parts, x);
      }
    }
    assert ms[..|ms|] == ms;
    ids := Ids(called, satisfied, duplicateReturns, duplicateCalls);
  }

  // Dropping the returns no call is waiting for.

  /** The answers seen after `parts`, orphans left out, when `seen` were seen before them. */
  function SeenIn(parts: seq<ReqPart>, orphans: set<string>, seen: set<string>): set<string> {
    if parts == [] then seen
    else
      var before := SeenIn(parts[..|parts| - 1], orphans, seen);
      var p := parts[|parts| - 1];
      if IsAnswer(p) && p.id !in orphans then before + {p.id} else before
  }

  function Seen(ms: seq<Message>, orphans: set<string>): set<string> {
    if ms == [] then {}
    else
      var before := Seen(ms[..|ms| - 1], orphans);
      var m := ms[|ms| - 1];
      if m.Request? then SeenIn(m.req, orphans, before) else before
  }

  /** The parts left once orphan answers and repeated answers are dropped. */
  function KeptParts(parts: seq<ReqPart>, orphans: set<string>, seen: set<string>): seq<ReqPart> {
    if parts == [] then []
    else
      var front, p := parts[..|parts| - 1], parts[|parts| - 1];
      var kept := KeptParts(front, orphans, seen);
      if IsAnswer(p) && (p.id in orphans || p.id in SeenIn(front, orphans, seen)) then kept else kept + [p]
  }

  function CleanedMessage(m: Message, orphans: set<string>, seen: set<string>): seq<Message> {
    if m.Response? then [m]
    else
      var kept := KeptParts(m.req, orphans, seen);
      if kept == [] then [] else [Request(kept)]
  }

  function Cleaned(ms: seq<Message>, orphans: set<string>): seq<Message> {
    if ms == [] then []
    else Cleaned(ms[..|ms| - 1], orphans) + CleanedMessage(ms[|ms| - 1], orphans, Seen(ms[..|ms| - 1], orphans))
  }

  method DropOrphanAndDuplicateReturns(ms: seq<Message>, orphans: set<string>) returns (cleaned: seq<Message>)
    ensures cleaned == Cleaned(ms, orphans)
  {
    var seen: set<string> := {};
    cleaned := [];
    for i := 0 to |ms|
      invariant seen == Seen(ms[..i], orphans)
      invariant cleaned == Cleaned(ms[..i], orphans)
    {
      assert ms[..i + 1][..i] == ms[..i];
      match ms[i] {
        case Response(_) => cleaned := cleaned + [ms[i]];
        case Request(parts) =>
          var kept: seq<ReqPart> := [];
          for j := 0 to |parts|
            invariant seen == SeenIn(parts[..j], orphans, Seen(ms[..i], orphans))
            invariant kept == KeptParts(parts[..j], orphans, Seen(ms[..i], orphans))
          {
            assert parts[..j + 1][..j] == parts[..j];
            var p := parts[j];
            if IsAnswer(p) {
              if p.id in orphans || p.id in seen {
                continue;
              }
              seen := seen + {p.id};
            }
            kept := kept + [p];
          }
          assert parts[..|parts|] == parts;
          if kept != [] {
            cleaned := cleaned + [Request(kept)];
          }
      }
    }
    assert ms[..|ms|] == ms;
  }

  // Answering the calls nothing answered.

  function Placeholder(call: RespPart): ReqPart
    requires call.Call?
  {
    Return(call.id, call.tool, Plain(PLACEHOLDER), false, true, false)
  }

  /** A placeholder per orphan call of a response, in call order. */
  function Placeholders(parts: seq<RespPart>, orphans: set<string>): seq<ReqPart> {
    if parts == [] then []
    else
      var before := Placeholders(parts[..|parts| - 1], orphans);
      var p := parts[|parts| - 1];
      if p.Call? && p.id in orphans then before + [Placeholder(p)] else before
  }

  function PlaceholdersAfter(m: Message, orphans: set<string>): seq<ReqPart> {
    if m.Response? then Placeholders(m.resp, orphans) else []
  }

  /** Each response with orphan calls is followed by a request that opens with their placeholders. */
  function Injected(ms: seq<Message>, orphans: set<string>): seq<Message> {
    if ms == [] then []
    else
      var rest, placeholders := Injected(ms[1..], orphans), PlaceholdersAfter(ms[0], orphans);
      if placeholders == [] then [ms[0]] + rest
      else if rest != [] && rest[0].Request? then [ms[0], Request(placeholders + rest[0].req)] + rest[1..]
      else [ms[0], Request(placeholders)] + rest
  }

  lemma InjectedNext(m: Message, more: seq<Message>, orphans: set<string>)
    ensures var rest, placeholders := Injected(more, orphans), PlaceholdersAfter(m, orphans);
            Injected([m] + more, orphans) ==
            if placeholders == [] then [m] + rest
            else if rest != [] && rest[0].Request? then [m, Request(placeholders + rest[0].req)] + rest[1..]
            else [m, Request(placeholders)] + rest
  {
    assert ([m] + more)[1..] == more;
  }

  /** The history with the placeholders of the message at `at` in the message after it. */
  function Inserted(ms: seq<Message>, at: nat, placeholders: seq<ReqPart>): seq<Message>
    requires at < |ms|
  {
    if at + 1 < |ms| && ms[at + 1].Request? then ms[at + 1 := Request(placeholders + ms[at + 1].req)]
    else ms[..at + 1] + [Request(placeholders)] + ms[at + 1..]
  }

  lemma InsertedAfter(before: seq<Message>, m: Message, rest: seq<Message>, placeholders: seq<ReqPart>)
    ensures Inserted(before + ([m] + rest), |before|, placeholders) ==
            before + (if rest != [] && rest[0].Request? then [m, Request(placeholders + rest[0].req)] + rest[1..]
                      else [m, Request(placeholders)] + rest)
  {
    var all := before + ([m] + rest);
    assert all[..|before| + 1] == before + [m] && all[|before| + 1..] == rest;
    if rest != [] && rest[0].Request? {
      ReplacedNext(before, m, rest, Request(placeholders + rest[0].req));
    } else {
      InsertedNext(before, m, rest, Request(placeholders));
    }
  }

  lemma ReplacedNext(before: seq<Message>, m: Message, rest: seq<Message>, next: Message)
    requires rest != []
    ensures (before + ([m] + rest))[|before| + 1 := next] == before + ([m, next] + rest[1..])
    ensures (before + ([m] + rest))[|before| + 1] == rest[0]
  {
  }

  lemma InsertedNext(before: seq<Message>, m: Message, rest: seq<Message>, next: Message)
    ensures (before + [m]) + [next] + rest == before + ([m, next] + rest)
  {
  }

  lemma InsertedIsInjected(ms: seq<Message>, i: nat, orphans: set<string>)
    requires i < |ms|
    ensures var result, placeholders := ms[..i + 1] + Injected(ms[i + 1..], orphans), PlaceholdersAfter(ms[i], orphans);
            ms[..i] + Injected(ms[i..], orphans) == if placeholders == [] then result else Inserted(result, i, placeholders)
  {
    var before, m, rest := ms[..i], ms[i], Injected(ms[i + 1..], orphans);
    assert ms[i..] == [m] + ms[i + 1..];
    InjectedNext(m, ms[i + 1..], orphans);
    assert ms[..i + 1] + rest == before + ([m] + rest);
    InsertedAfter(before, m, rest, PlaceholdersAfter(m, orphans));
  }

  method InjectPlaceholderReturns(ms: seq<Message>, orphans: set<string>) returns (result: seq<Message>)
    ensures result == Injected(ms, orphans)
  {
    result := ms;
    for i := |ms| downto 0
      invariant result == ms[..i] + Injected(ms[i..], orphans)
    {
      InsertedIsInjected(ms, i, orphans);
      var placeholders := PlaceholdersAfter(ms[i], orphans);
      if placeholders != [] {
        if i + 1 < |result| && result[i + 1].Request? {
          result := result[i + 1 := Request(placeholders + result[i + 1].req)];
        } else {
          result := result[..i + 1] + [Request(placeholders)] + result[i + 1..];
        }
      }
    }
  }

  // The whole repair.

  function CalledIds(ms: seq<Message>): set<string> {
    set m, p | m in ms && m.Response? && p in m.resp && p.Call? :: p.id
  }

  function ReturnedIds(ms: seq<Message>): set<string> {
    set m, p | m in ms && m.Request? && p in m.req && p.Return? :: p.id
  }

  /** No orphan and no repeat: such a history is left as it is. */
  ghost predicate Untouched(ms: seq<Message>) {
    && CalledIds(ms) == ReturnedIds(ms)
    && (forall x :: Answers(ms, x) <= 1) && (forall x :: Calls(ms, x) <= 1)
  }

  ghost function Paired(ms: seq<Message>): seq<Message> {
    if Untouched(ms) then ms
    else Injected(Cleaned(ms, ReturnedIds(ms) - CalledIds(ms)), CalledIds(ms) - ReturnedIds(ms))
  }

  lemma {:induction false} CallsInParts(parts: seq<RespPart>, x: string)
    ensures CallsIn(parts, x) > 0 <==> exists p <- parts :: p.Call? && p.id == x
  {
    if parts != [] {
      CallsInParts(parts[..|parts| - 1], x);
      assert forall p :: p in parts <==> p in parts[..|parts| - 1] || p == parts[|parts| - 1];
    }
  }

  lemma {:induction false} ReturnsInParts(parts: seq<ReqPart>, x: string)
    ensures ReturnsIn(parts, x) > 0 <==> exists p <- parts :: p.Return? && p.id == x
  {
    if parts != [] {
      ReturnsInParts(parts[..|parts| - 1], x);
      assert forall p :: p in parts <==> p in parts[..|parts| - 1] || p == parts[|parts| - 1];
    }
  }

  lemma {:induction false} CalledMeans(ms: seq<Message>, x: string)
    ensures x in CalledIds(ms) <==> Calls(ms, x) > 0
  {
    if ms != [] {
      var front, m := ms[..|ms| - 1], ms[|ms| - 1];
      CalledMeans(front, x);
      if m.Response? { CallsInParts(m.resp, x); }
      assert forall n :: n in ms <==> n in front || n == m;
    }
  }

  lemma {:induction false} ReturnedMeans(ms: seq<Message>, x: string)
    ensures x in ReturnedIds(ms) <==> Returns(ms, x) > 0
  {
    if ms != [] {
      var front, m := ms[..|ms| - 1], ms[|ms| - 1];
      ReturnedMeans(front, x);
      if m.Request? { ReturnsInParts(m.req, x); }
      assert forall n :: n in ms <==> n in front || n == m;
    }
  }

  lemma {:induction false} InjectedNothing(ms: seq<Message>)
    ensures Injected(ms, {}) == ms
  {
    if ms != [] {
      InjectedNothing(ms[1..]);
      if ms[0].Response? { NoPlaceholders(ms[0].resp, {}); }
    }
  }

  lemma {:induction false} NoPlaceholders(parts: seq<RespPart>, orphans: set<string>)
    ensures Placeholders(parts, orphans) == [] <==> forall x <- orphans :: CallsIn(parts, x) == 0
  {
    if parts != [] {
      NoPlaceholders(parts[..|parts| - 1], orphans);
    }
  }

  method PairOrphans(ms: seq<Message>) returns (result: seq<Message>)
    ensures result == Paired(ms)
  {
    var ids := CollectIds(ms);
    forall x ensures x in CalledIds(ms) <==> x in ids.called { CalledMeans(ms, x); }
    forall x ensures x in ReturnedIds(ms) <==> x in ids.satisfied { ReturnedMeans(ms, x); }
    assert ids.called == CalledIds(ms) && ids.satisfied == ReturnedIds(ms);
    var orphanReturns, orphanCalls := ids.satisfied - ids.called, ids.called - ids.satisfied;
    assert orphanReturns == {} && orphanCalls == {} <==> ids.called == ids.satisfied;
    if orphanReturns == {} && orphanCalls == {} && !ids.duplicateReturns && !ids.duplicateCalls {
      return ms;
    }
    var cleaned := DropOrphanAndDuplicateReturns(ms, orphanReturns);
    if orphanCalls == {} {
      InjectedNothing(cleaned);
      return cleaned;
    }
    result := InjectPlaceholderReturns(cleaned, orphanCalls);
  }

  // What the repair does to the counts.

  lemma {:induction false} CountsOfConcat(a: seq<Message>, b: seq<Message>, x: string)
    ensures Calls(a + b, x) == Calls(a, x) + Calls(b, x)
    ensures Answers(a + b, x) == Answers(a, x) + Answers(b, x)
    ensures Returns(a + b, x) == Returns(a, x) + Returns(b, x)
  {
    if b == [] {
      assert a + b == a;
    } else {
      assert (a + b)[..|a + b| - 1] == a + b[..|b| - 1];
      CountsOfConcat(a, b[..|b| - 1], x);
    }
  }

  lemma {:induction false} PartCountsOfConcat(a: seq<ReqPart>, b: seq<ReqPart>, x: string)
    ensures AnswersIn(a + b, x) == AnswersIn(a, x) + AnswersIn(b, x)
    ensures ReturnsIn(a + b, x) == ReturnsIn(a, x) + ReturnsIn(b, x)
  {
    if b == [] {
      assert a + b == a;
    } else {
      assert (a + b)[..|a + b| - 1] == a + b[..|b| - 1];
      PartCountsOfConcat(a, b[..|b| - 1], x);
    }
  }

  lemma {:induction false} SeenInMeans(parts: seq<ReqPart>, orphans: set<string>, seen: set<string>, x: string)
    ensures x in SeenIn(parts, orphans, seen) <==> x in seen || (x !in orphans && AnswersIn(parts, x) > 0)
  {
    if parts != [] {
      SeenInMeans(parts[..|parts| - 1], orphans, seen, x);
    }
  }

  lemma {:induction false} SeenMeans(ms: seq<Message>, orphans: set<string>, x: string)
    ensures x in Seen(ms, orphans) <==> x !in orphans && Answers(ms, x) > 0
  {
    if ms != [] {
      SeenMeans(ms[..|ms| - 1], orphans, x);
      var m := ms[|ms| - 1];
      if m.Request? { SeenInMeans(m.req, orphans, Seen(ms[..|ms| - 1], orphans), x); }
    }
  }

  lemma {:induction false} KeptCounts(parts: seq<ReqPart>, orphans: set<string>, seen: set<string>, x: string)
    ensures var kept := KeptParts(parts, orphans, seen);
            && AnswersIn(kept, x) == (if x in orphans || x in seen || AnswersIn(parts, x) == 0 then 0 else 1)
            && ReturnsIn(kept, x) - AnswersIn(kept, x) == ReturnsIn(parts, x) - AnswersIn(parts, x)
  {
    if parts != [] {
      KeptCounts(parts[..|parts| - 1], orphans, seen, x);
      SeenInMeans(parts[..|parts| - 1], orphans, seen, x);
    }
  }

  /** Cleaning keeps every call and every retried return, and one answer of each id that is called. */
  lemma {:induction false} CleanedCounts(ms: seq<Message>, orphans: set<string>, x: string)
    ensures var cleaned := Cleaned(ms, orphans);
            && Calls(cleaned, x) == Calls(ms, x)
            && Answers(cleaned, x) == (if x in orphans || Answers(ms, x) == 0 then 0 else 1)
            && Returns(cleaned, x) - Answers(cleaned, x) == Returns(ms, x) - Answers(ms, x)
  {
    if ms != [] {
      var front, m := ms[..|ms| - 1], ms[|ms| - 1];
      CleanedCounts(front, orphans, x);
      SeenMeans(front, orphans, x);
      if m.Request? { KeptCounts(m.req, orphans, Seen(front, orphans), x); }
      CountsOfConcat(Cleaned(front, orphans), CleanedMessage(m, orphans, Seen(front, orphans)), x);
    }
  }

  lemma {:induction false} PlaceholderCounts(parts: seq<RespPart>, orphans: set<string>, x: string)
    ensures AnswersIn(Placeholders(parts, orphans), x) == (if x in orphans then CallsIn(parts, x) else 0)
    ensures ReturnsIn(Placeholders(parts, orphans), x) == AnswersIn(Placeholders(parts, orphans), x)
  {
    if parts != [] {
      var front, p := parts[..|parts| - 1], parts[|parts| - 1];
      PlaceholderCounts(front, orphans, x);
      if p.Call? && p.id in orphans {
        OneMoreCounts(Placeholders(front, orphans), Placeholder(p), x);
      }
    }
  }

  lemma OneMoreCounts(front: seq<ReqPart>, p: ReqPart, x: string)
    ensures AnswersIn(front + [p], x) == AnswersIn(front, x) + (if IsAnswer(p) && p.id == x then 1 else 0)
    ensures ReturnsIn(front + [p], x) == ReturnsIn(front, x) + (if p.Return? && p.id == x then 1 else 0)
  {
    assert (front + [p])[..|front|] == front;
  }

  lemma CountsOfNext(m: Message, placeholders: seq<ReqPart>, parts: seq<ReqPart>, x: string)
    ensures var pair := [m, Request(placeholders + parts)];
            && Calls(pair, x) == Calls([m], x)
            && Answers(pair, x) == Answers([m], x) + AnswersIn(placeholders, x) + AnswersIn(parts, x)
            && Returns(pair, x) == Returns([m], x) + ReturnsIn(placeholders, x) + ReturnsIn(parts, x)
  {
    PartCountsOfConcat(placeholders, parts, x);
    assert [m, Request(placeholders + parts)] == [m] + [Request(placeholders + parts)];
    CountsOfConcat([m], [Request(placeholders + parts)], x);
  }

  /** Injecting adds one answer per orphan call and nothing else. */
  lemma {:induction false} InjectedCounts(ms: seq<Message>, orphans: set<string>, x: string)
    ensures var result, added := Injected(ms, orphans), if x in orphans then Calls(ms, x) else 0;
            && Calls(result, x) == Calls(ms, x)
            && Answers(result, x) == Answers(ms, x) + added
            && Returns(result, x) == Returns(ms, x) + added
  {
    if ms != [] {
      var m, rest, placeholders := ms[0], Injected(ms[1..], orphans), PlaceholdersAfter(ms[0], orphans);
      InjectedCounts(ms[1..], orphans, x);
      assert ms == [m] + ms[1..];
      CountsOfConcat([m], ms[1..], x);
      if m.Response? { PlaceholderCounts(m.resp, orphans, x); }
      if placeholders == [] {
        CountsOfConcat([m], rest, x);
      } else if rest != [] && rest[0].Request? {
        assert rest == [rest[0]] + rest[1..];
        CountsOfConcat([rest[0]], rest[1..], x);
        CountsOfNext(m, placeholders, rest[0].req, x);
        CountsOfConcat([m, Request(placeholders + rest[0].req)], rest[1..], x);
      } else {
        CountsOfNext(m, placeholders, [], x);
        assert placeholders + [] == placeholders;
        CountsOfConcat([m, Request(placeholders)], rest, x);
      }
    }
  }

  /** The first answer of an id, whichever message holds it. */
  function FirstAnswerIn(parts: seq<ReqPart>, x: string): seq<ReqPart> {
    if parts == [] then []
    else
      var first := FirstAnswerIn(parts[..|parts| - 1], x);
      var p := parts[|parts| - 1];
      if first == [] && IsAnswer(p) && p.id == x then [p] else first
  }

  function FirstAnswer(ms: seq<Message>, x: string): seq<ReqPart> {
    if ms == [] then []
    else
      var first := FirstAnswer(ms[..|ms| - 1], x);
      var m := ms[|ms| - 1];
      if first == [] && m.Request? then FirstAnswerIn(m.req, x) else first
  }

  lemma {:induction false} KeptFirst(parts: seq<ReqPart>, orphans: set<string>, seen: set<string>, x: string)
    ensures FirstAnswerIn(KeptParts(parts, orphans, seen), x) == if x in orphans || x in seen then [] else FirstAnswerIn(parts, x)
    ensures FirstAnswerIn(parts, x) == [] <==> AnswersIn(parts, x) == 0
  {
    if parts != [] {
      KeptFirst(parts[..|parts| - 1], orphans, seen, x);
      SeenInMeans(parts[..|parts| - 1], orphans, seen, x);
    }
  }

  /** Of several answers to one call, cleaning keeps the first. */
  lemma {:induction false} CleanedKeepsFirstAnswer(ms: seq<Message>, orphans: set<string>, x: string)
    requires x !in orphans
    ensures FirstAnswer(Cleaned(ms, orphans), x) == FirstAnswer(ms, x)
    ensures FirstAnswer(ms, x) == [] <==> Answers(ms, x) == 0
  {
    if ms != [] {
      var front, m := ms[..|ms| - 1], ms[|ms| - 1];
      CleanedKeepsFirstAnswer(front, orphans, x);
      SeenMeans(front, orphans, x);
      if m.Request? {
        KeptFirst(m.req, orphans, Seen(front, orphans), x);
        var kept := KeptParts(m.req, orphans, Seen(front, orphans));
        if kept == [] {
          assert Cleaned(ms, orphans) == Cleaned(front, orphans);
        } else {
          assert Cleaned(ms, orphans)[..|Cleaned(ms, orphans)| - 1] == Cleaned(front, orphans);
        }
      } else {
        assert Cleaned(ms, orphans)[..|Cleaned(ms, orphans)| - 1] == Cleaned(front, orphans);
      }
    }
  }

  // The repaired history.

  /** Every call has a return, every answer has its call, and no id is answered twice. */
  ghost predicate Repaired(ms: seq<Message>) {
    forall x :: (Calls(ms, x) > 0 ==> Returns(ms, x) > 0) && (Answers(ms, x) > 0 ==> Calls(ms, x) > 0) && Answers(ms, x) <= 1
  }

  /** No call id that nothing returned is called twice. */
  ghost predicate UnansweredOnce(ms: seq<Message>) {
    forall x :: Returns(ms, x) == 0 ==> Calls(ms, x) <= 1
  }

  lemma ReturnsCoverAnswers(ms: seq<Message>, x: string)
    ensures Returns(ms, x) >= Answers(ms, x)
  {
    CleanedCounts(ms, {x}, x);
  }

  /** How the repair leaves each id. */
  lemma PairedCounts(ms: seq<Message>, x: string)
    requires !Untouched(ms)
    ensures Calls(Paired(ms), x) == Calls(ms, x)
    ensures Answers(Paired(ms), x) ==
            (if Calls(ms, x) == 0 then 0
             else if Returns(ms, x) == 0 then Calls(ms, x)
             else if Answers(ms, x) == 0 then 0 else 1)
    ensures Calls(ms, x) > 0 ==> Returns(Paired(ms), x) > 0
  {
    var orphanReturns, orphanCalls := ReturnedIds(ms) - CalledIds(ms), CalledIds(ms) - ReturnedIds(ms);
    CalledMeans(ms, x);
    ReturnedMeans(ms, x);
    ReturnsCoverAnswers(ms, x);
    CleanedCounts(ms, orphanReturns, x);
    InjectedCounts(Cleaned(ms, orphanReturns), orphanCalls, x);
  }

  /** The repair succeeds exactly when no unanswered call id is called twice. */
  lemma RepairsExactlyWhenUnansweredOnce(ms: seq<Message>)
    ensures Repaired(Paired(ms)) <==> UnansweredOnce(ms)
  {
    if Untouched(ms) {
      forall x ensures Calls(ms, x) > 0 <==> Returns(ms, x) > 0 { CalledMeans(ms, x); ReturnedMeans(ms, x); }
      forall x ensures Returns(ms, x) >= Answers(ms, x) { ReturnsCoverAnswers(ms, x); }
    } else {
      forall x
        ensures (Calls(Paired(ms), x) > 0 ==> Returns(Paired(ms), x) > 0)
        ensures (Answers(Paired(ms), x) > 0 ==> Calls(Paired(ms), x) > 0)
        ensures Answers(Paired(ms), x) <= 1 <==> (Returns(ms, x) == 0 ==> Calls(ms, x) <= 1)
      {
        PairedCounts(ms, x);
      }
    }
  }

  /** Two responses that repeat an unanswered call id leave the history with two answers for it. */
  lemma RepeatedUnansweredCallStaysBroken()
    ensures var ms := [Response([Call("a", "t", "")]), Response([Call("a", "t", "")])];
            !Repaired(Paired(ms)) && Answers(Paired(ms), "a") == 2
  {
    var one := Response([Call("a", "t", "")]);
    var ms := [one, one];
    assert one.resp[..0] == [] && CallsIn(one.resp, "a") == 1;
    assert [one][..0] == [] && Calls([one], "a") == 1 && Returns([one], "a") == 0;
    assert ms[..1] == [one];
    assert Calls(ms, "a") == 2 && Returns(ms, "a") == 0;
    PairedCounts(ms, "a");
  }

  // What the repair leaves alone.

  type Choice = ReqPart -> bool

  /** The parts that are not dropped, in order. */
  function OtherRequestParts(parts: seq<ReqPart>, drop: Choice): seq<ReqPart> {
    if parts == [] then []
    else if drop(parts[|parts| - 1]) then OtherRequestParts(parts[..|parts| - 1], drop)
    else OtherRequestParts(parts[..|parts| - 1], drop) + [parts[|parts| - 1]]
  }

  datatype Part = FromUser(req: ReqPart) | FromModel(resp: seq<RespPart>)

  function AsParts(parts: seq<ReqPart>): seq<Part> {
    seq(|parts|, i requires 0 <= i < |parts| => FromUser(parts[i]))
  }

  /** The history's parts but those dropped, in order, each response whole, with where each request begins
      forgotten. */
  function OtherParts(ms: seq<Message>, drop: Choice): seq<Part> {
    if ms == [] then []
    else OtherParts(ms[..|ms| - 1], drop) + MessageParts(ms[|ms| - 1], drop)
  }

  function MessageParts(m: Message, drop: Choice): seq<Part> {
    match m
    case Response(parts) => [FromModel(parts)]
    case Request(parts) => AsParts(OtherRequestParts(parts, drop))
  }

  predicate Nothing(p: ReqPart) { false }

  /** Every part of the history, in order. */
  function AllParts(ms: seq<Message>): seq<Part> { OtherParts(ms, Nothing) }

  /** The returns that answer one of `ids`. */
  function ReturnsOf(ids: set<string>): Choice { (p: ReqPart) => p.Return? && p.id in ids }

  lemma {:induction false} OtherRequestPartsOfConcat(a: seq<ReqPart>, b: seq<ReqPart>, drop: Choice)
    ensures OtherRequestParts(a + b, drop) == OtherRequestParts(a, drop) + OtherRequestParts(b, drop)
  {
    if b == [] {
      assert a + b == a;
    } else {
      assert (a + b)[..|a + b| - 1] == a + b[..|b| - 1];
      OtherRequestPartsOfConcat(a, b[..|b| - 1], drop);
    }
  }

  lemma OtherPartsOfSnoc(front: seq<Message>, m: Message, drop: Choice)
    ensures OtherParts(front + [m], drop) == OtherParts(front, drop) + MessageParts(m, drop)
  {
    assert (front + [m])[..|front|] == front;
  }

  lemma {:induction false} OtherPartsOfConcat(a: seq<Message>, b: seq<Message>, drop: Choice)
    ensures OtherParts(a + b, drop) == OtherParts(a, drop) + OtherParts(b, drop)
  {
    if b == [] {
      assert a + b == a;
    } else {
      var front, m := b[..|b| - 1], b[|b| - 1];
      OtherPartsOfConcat(a, front, drop);
      assert OtherParts(a + b, drop) == OtherParts(a + front, drop) + MessageParts(m, drop) by {
        assert a + b == (a + front) + [m];
        OtherPartsOfSnoc(a + front, m, drop);
      }
      assert OtherParts(b, drop) == OtherParts(front, drop) + MessageParts(m, drop);
      Regrouped(OtherParts(a, drop), OtherParts(front, drop), MessageParts(m, drop));
    }
  }

  lemma Regrouped(a: seq<Part>, b: seq<Part>, c: seq<Part>)
    ensures (a + b) + c == a + (b + c)
  {
  }

  lemma {:induction false} KeptOthers(parts: seq<ReqPart>, orphans: set<string>, seen: set<string>)
    ensures OtherRequestParts(KeptParts(parts, orphans, seen), IsAnswer) == OtherRequestParts(parts, IsAnswer)
  {
    if parts != [] {
      var kept, p := KeptParts(parts[..|parts| - 1], orphans, seen), parts[|parts| - 1];
      KeptOthers(parts[..|parts| - 1], orphans, seen);
      assert (kept + [p])[..|kept|] == kept;
    }
  }

  lemma {:induction false} CleanedOthers(ms: seq<Message>, orphans: set<string>)
    ensures OtherParts(Cleaned(ms, orphans), IsAnswer) == OtherParts(ms, IsAnswer)
  {
    if ms != [] {
      var front, m := ms[..|ms| - 1], ms[|ms| - 1];
      var cleaned := Cleaned(front, orphans);
      CleanedOthers(front, orphans);
      if m.Request? {
        var kept := KeptParts(m.req, orphans, Seen(front, orphans));
        KeptOthers(m.req, orphans, Seen(front, orphans));
        if kept == [] {
          assert OtherRequestParts(m.req, IsAnswer) == [];
          assert cleaned + [] == cleaned;
          assert OtherParts(front, IsAnswer) + AsParts([]) == OtherParts(front, IsAnswer);
        } else {
          OtherPartsOfSnoc(cleaned, Request(kept), IsAnswer);
        }
      } else {
        OtherPartsOfSnoc(cleaned, m, IsAnswer);
      }
    }
  }

  lemma {:induction false} PlaceholdersAreDropped(parts: seq<RespPart>, orphans: set<string>, drop: Choice)
    requires forall p <- parts | p.Call? && p.id in orphans :: drop(Placeholder(p))
    ensures OtherRequestParts(Placeholders(parts, orphans), drop) == []
  {
    if parts != [] {
      var before, p := Placeholders(parts[..|parts| - 1], orphans), parts[|parts| - 1];
      PlaceholdersAreDropped(parts[..|parts| - 1], orphans, drop);
      if p.Call? && p.id in orphans {
        assert p in parts;
        assert (before + [Placeholder(p)])[..|before|] == before;
      }
    }
  }

  lemma OtherPartsOfOne(m: Message, drop: Choice)
    ensures OtherParts([m], drop) == MessageParts(m, drop)
  {
    assert [m][..0] == [];
  }

  lemma OtherPartsOfNext(m: Message, placeholders: seq<ReqPart>, parts: seq<ReqPart>, drop: Choice)
    requires OtherRequestParts(placeholders, drop) == []
    ensures OtherParts([m, Request(placeholders + parts)], drop) == OtherParts([m], drop) + OtherParts([Request(parts)], drop)
  {
    OtherRequestPartsOfConcat(placeholders, parts, drop);
    assert [] + OtherRequestParts(parts, drop) == OtherRequestParts(parts, drop);
    OtherPartsOfOne(Request(placeholders + parts), drop);
    OtherPartsOfOne(Request(parts), drop);
    assert [m, Request(placeholders + parts)] == [m] + [Request(placeholders + parts)];
    OtherPartsOfConcat([m], [Request(placeholders + parts)], drop);
  }

  lemma InjectedOthersJoined(m: Message, first: seq<ReqPart>, tail: seq<Message>, placeholders: seq<ReqPart>, drop: Choice)
    requires OtherRequestParts(placeholders, drop) == []
    ensures OtherParts([m, Request(placeholders + first)] + tail, drop) ==
            OtherParts([m], drop) + OtherParts([Request(first)] + tail, drop)
  {
    OtherPartsOfConcat([m, Request(placeholders + first)], tail, drop);
    OtherPartsOfConcat([Request(first)], tail, drop);
    OtherPartsOfNext(m, placeholders, first, drop);
    Regrouped(OtherParts([m], drop), OtherParts([Request(first)], drop), OtherParts(tail, drop));
  }

  lemma InjectedOthersNext(m: Message, rest: seq<Message>, placeholders: seq<ReqPart>, drop: Choice)
    requires OtherRequestParts(placeholders, drop) == []
    ensures OtherParts([m, Request(placeholders)] + rest, drop) == OtherParts([m], drop) + OtherParts(rest, drop)
  {
    assert placeholders + [] == placeholders;
    OtherPartsOfNext(m, placeholders, [], drop);
    OtherPartsOfOne(Request([]), drop);
    assert OtherParts([m], drop) + [] == OtherParts([m], drop);
    OtherPartsOfConcat([m, Request(placeholders)], rest, drop);
  }

  /** Injecting changes nothing but what it injects. */
  lemma InjectedOthersAfter(m: Message, more: seq<Message>, orphans: set<string>, drop: Choice)
    requires forall p: RespPart | p.Call? && p.id in orphans :: drop(Placeholder(p))
    ensures OtherParts(Injected([m] + more, orphans), drop) == OtherParts([m], drop) + OtherParts(Injected(more, orphans), drop)
  {
    var rest, placeholders := Injected(more, orphans), PlaceholdersAfter(m, orphans);
    InjectedNext(m, more, orphans);
    if placeholders == [] {
      OtherPartsOfConcat([m], rest, drop);
    } else {
      PlaceholdersAreDropped(m.resp, orphans, drop);
      if rest != [] && rest[0].Request? {
        InjectedOthersJoined(m, rest[0].req, rest[1..], placeholders, drop);
        assert [Request(rest[0].req)] + rest[1..] == rest;
      } else {
        InjectedOthersNext(m, rest, placeholders, drop);
      }
    }
  }

  lemma {:induction false} InjectedOthers(ms: seq<Message>, orphans: set<string>, drop: Choice)
    requires forall p: RespPart | p.Call? && p.id in orphans :: drop(Placeholder(p))
    ensures OtherParts(Injected(ms, orphans), drop) == OtherParts(ms, drop)
  {
    if ms != [] {
      var m, more := ms[0], ms[1..];
      InjectedOthers(more, orphans, drop);
      assert ms == [m] + more;
      OtherPartsOfConcat([m], more, drop);
      InjectedOthersAfter(m, more, orphans, drop);
    }
  }

  /** Only answers come and go: every other part, and every response whole, stays in order. */
  lemma PairingKeepsEverythingElse(ms: seq<Message>)
    ensures OtherParts(Paired(ms), IsAnswer) == OtherParts(ms, IsAnswer)
  {
    if !Untouched(ms) {
      CleanedOthers(ms, ReturnedIds(ms) - CalledIds(ms));
      InjectedOthers(Cleaned(ms, ReturnedIds(ms) - CalledIds(ms)), CalledIds(ms) - ReturnedIds(ms), IsAnswer);
    }
  }

  // The answers that stay keep their places.

  /** `a` is `b` with some elements left out. */
  predicate Subsequence<T(==)>(a: seq<T>, b: seq<T>) {
    if a == [] then true
    else if b == [] then false
    else if a[|a| - 1] == b[|b| - 1] then Subsequence(a[..|a| - 1], b[..|b| - 1])
    else Subsequence(a, b[..|b| - 1])
  }

  lemma {:induction false} SubsequenceSkips<T>(a: seq<T>, b: seq<T>, x: T)
    requires Subsequence(a, b)
    ensures Subsequence(a, b + [x])
    decreases |b|, 1
  {
    assert (b + [x])[..|b|] == b;
    if a != [] && a[|a| - 1] == x {
      SubsequenceDrops(a, b);
    }
  }

  lemma {:induction false} SubsequenceDrops<T>(a: seq<T>, b: seq<T>)
    requires Subsequence(a, b) && a != []
    ensures Subsequence(a[..|a| - 1], b)
    decreases |b|, 0
  {
    assert b == b[..|b| - 1] + [b[|b| - 1]];
    if a[|a| - 1] == b[|b| - 1] {
      SubsequenceSkips(a[..|a| - 1], b[..|b| - 1], b[|b| - 1]);
    } else {
      SubsequenceDrops(a, b[..|b| - 1]);
      SubsequenceSkips(a[..|a| - 1], b[..|b| - 1], b[|b| - 1]);
    }
  }

  lemma {:induction false} SubsequenceOfConcat<T>(a: seq<T>, b: seq<T>, c: seq<T>, d: seq<T>)
    requires Subsequence(a, b) && Subsequence(c, d)
    ensures Subsequence(a + c, b + d)
    decreases |d|
  {
    if d == [] {
      assert c == [] && a + c == a && b + d == b;
    } else {
      var x := d[|d| - 1];
      assert b + d == (b + d[..|d| - 1]) + [x];
      if c == [] {
        assert a + c == a;
        SubsequenceOfConcat(a, b, c, d[..|d| - 1]);
        SubsequenceSkips(a, b + d[..|d| - 1], x);
      } else if c[|c| - 1] == x {
        SubsequenceOfConcat(a, b, c[..|c| - 1], d[..|d| - 1]);
        assert (a + c)[..|a + c| - 1] == a + c[..|c| - 1];
        assert (b + d)[..|b + d| - 1] == b + d[..|d| - 1];
      } else {
        SubsequenceOfConcat(a, b, c, d[..|d| - 1]);
        SubsequenceSkips(a + c, b + d[..|d| - 1], x);
      }
    }
  }

  lemma {:induction false} NothingDropped(parts: seq<ReqPart>)
    ensures OtherRequestParts(parts, Nothing) == parts
  {
    if parts != [] {
      NothingDropped(parts[..|parts| - 1]);
    }
  }

  lemma {:induction false} KeptIsSubsequence(parts: seq<ReqPart>, orphans: set<string>, seen: set<string>)
    ensures Subsequence(AsParts(KeptParts(parts, orphans, seen)), AsParts(parts))
  {
    if parts != [] {
      var front, p := parts[..|parts| - 1], parts[|parts| - 1];
      var kept := KeptParts(front, orphans, seen);
      KeptIsSubsequence(front, orphans, seen);
      assert AsParts(parts) == AsParts(front) + [FromUser(p)];
      SubsequenceSkips(AsParts(kept), AsParts(front), FromUser(p));
      assert AsParts(kept + [p]) == AsParts(kept) + [FromUser(p)];
      SubsequenceOfConcat(AsParts(kept), AsParts(front), [FromUser(p)], [FromUser(p)]);
    }
  }

  lemma AllPartsOfOne(m: Message)
    ensures AllParts([m]) == match m case Response(parts) => [FromModel(parts)] case Request(parts) => AsParts(parts)
  {
    OtherPartsOfOne(m, Nothing);
    if m.Request? { NothingDropped(m.req); }
  }

  lemma CleanedMessageIsSubsequence(m: Message, orphans: set<string>, seen: set<string>)
    ensures Subsequence(AllParts(CleanedMessage(m, orphans, seen)), AllParts([m]))
  {
    AllPartsOfOne(m);
    if m.Request? {
      KeptIsSubsequence(m.req, orphans, seen);
      AllPartsOfOne(Request(KeptParts(m.req, orphans, seen)));
    }
  }

  lemma SubsequenceGrows(cleaned: seq<Message>, front: seq<Message>, kept: seq<Message>, m: Message)
    requires Subsequence(AllParts(cleaned), AllParts(front)) && Subsequence(AllParts(kept), AllParts([m]))
    ensures Subsequence(AllParts(cleaned + kept), AllParts(front + [m]))
  {
    var a, b, c, d := AllParts(cleaned), AllParts(front), AllParts(kept), AllParts([m]);
    OtherPartsOfConcat(front, [m], Nothing);
    OtherPartsOfConcat(cleaned, kept, Nothing);
    SubsequenceOfConcat(a, b, c, d);
  }

  ghost predicate LeavesOut(cleaned: seq<Message>, ms: seq<Message>) { Subsequence(AllParts(cleaned), AllParts(ms)) }

  lemma LeavesOutMore(front: seq<Message>, m: Message, orphans: set<string>)
    requires LeavesOut(Cleaned(front, orphans), front)
    ensures LeavesOut(Cleaned(front + [m], orphans), front + [m])
  {
    var kept := CleanedMessage(m, orphans, Seen(front, orphans));
    CleanedMessageIsSubsequence(m, orphans, Seen(front, orphans));
    SubsequenceGrows(Cleaned(front, orphans), front, kept, m);
    CleanedOfSnoc(front, m, orphans);
  }

  /** Cleaning only leaves parts out. */
  lemma {:induction false} CleanedIsSubsequence(ms: seq<Message>, orphans: set<string>)
    ensures LeavesOut(Cleaned(ms, orphans), ms)
  {
    if ms != [] {
      var front, m := ms[..|ms| - 1], ms[|ms| - 1];
      CleanedIsSubsequence(front, orphans);
      LeavesOutMore(front, m, orphans);
      WholeAgain(ms);
    }
  }

  lemma WholeAgain(ms: seq<Message>)
    requires ms != []
    ensures ms[..|ms| - 1] + [ms[|ms| - 1]] == ms
  {
  }

  lemma {:induction false} NoneReturned(parts: seq<ReqPart>, ids: set<string>)
    requires forall x <- ids :: ReturnsIn(parts, x) == 0
    ensures OtherRequestParts(parts, ReturnsOf(ids)) == OtherRequestParts(parts, Nothing)
  {
    if parts != [] {
      NoneReturned(parts[..|parts| - 1], ids);
    }
  }

  /** Where no return answers an id, dropping its returns drops nothing. */
  lemma {:induction false} NoneReturnedAnywhere(ms: seq<Message>, ids: set<string>)
    requires forall x <- ids :: Returns(ms, x) == 0
    ensures OtherParts(ms, ReturnsOf(ids)) == AllParts(ms)
  {
    if ms != [] {
      NoneReturnedAnywhere(ms[..|ms| - 1], ids);
      if ms[|ms| - 1].Request? {
        NoneReturned(ms[|ms| - 1].req, ids);
      }
    }
  }

  /** Deleting the placeholders from an injected history gives the history. */
  lemma InjectingOnlyAddsPlaceholders(ms: seq<Message>, orphans: set<string>)
    requires forall x <- orphans :: Returns(ms, x) == 0
    ensures OtherParts(Injected(ms, orphans), ReturnsOf(orphans)) == AllParts(ms)
  {
    InjectedOthers(ms, orphans, ReturnsOf(orphans));
    NoneReturnedAnywhere(ms, orphans);
  }

  /** Without its placeholders, which are all the returns of the calls that had none, the repaired history is
      the input with some of its parts left out and the rest in order. */
  lemma PairedIsInputLessParts(ms: seq<Message>)
    ensures var unanswered := CalledIds(ms) - ReturnedIds(ms);
            Subsequence(OtherParts(Paired(ms), ReturnsOf(unanswered)), AllParts(ms))
  {
    var unanswered, orphans := CalledIds(ms) - ReturnedIds(ms), ReturnedIds(ms) - CalledIds(ms);
    forall x <- unanswered ensures Returns(ms, x) == 0 { ReturnedMeans(ms, x); }
    if Untouched(ms) {
      NoneReturnedAnywhere(ms, unanswered);
      WholeIsSubsequence(AllParts(ms));
    } else {
      forall x <- unanswered ensures Returns(Cleaned(ms, orphans), x) == 0 {
        CleanedCounts(ms, orphans, x);
        ReturnsCoverAnswers(ms, x);
      }
      InjectingOnlyAddsPlaceholders(Cleaned(ms, orphans), unanswered);
      CleanedIsSubsequence(ms, orphans);
    }
  }

  lemma {:induction false} WholeIsSubsequence<T>(a: seq<T>)
    ensures Subsequence(a, a)
  {
    if a != [] {
      WholeIsSubsequence(a[..|a| - 1]);
    }
  }

  /** The message after a response opens with the placeholders of its orphan calls, in call order. */
  ghost predicate Placed(ms: seq<Message>, orphans: set<string>) {
    forall i | 0 <= i < |ms| && PlaceholdersAfter(ms[i], orphans) != [] ::
      i + 1 < |ms| && ms[i + 1].Request? && PlaceholdersAfter(ms[i], orphans) <= ms[i + 1].req
  }

  lemma PlacedAfter(head: seq<Message>, rest: seq<Message>, orphans: set<string>)
    requires Placed(rest, orphans) && head != [] && PlaceholdersAfter(head[|head| - 1], orphans) == []
    requires forall i | 0 <= i < |head| - 1 && PlaceholdersAfter(head[i], orphans) != [] ::
               head[i + 1].Request? && PlaceholdersAfter(head[i], orphans) <= head[i + 1].req
    ensures Placed(head + rest, orphans)
  {
    var all := head + rest;
    forall i | 0 <= i < |all| && PlaceholdersAfter(all[i], orphans) != []
      ensures i + 1 < |all| && all[i + 1].Request? && PlaceholdersAfter(all[i], orphans) <= all[i + 1].req
    {
      if i >= |head| {
        assert all[i] == rest[i - |head|];
      } else {
        assert all[i] == head[i] && i + 1 < |head|;
      }
    }
  }

  lemma {:induction false} InjectedPlaced(ms: seq<Message>, orphans: set<string>)
    ensures Placed(Injected(ms, orphans), orphans)
  {
    if ms != [] {
      var rest, placeholders := Injected(ms[1..], orphans), PlaceholdersAfter(ms[0], orphans);
      InjectedPlaced(ms[1..], orphans);
      if placeholders == [] {
        PlacedAfter([ms[0]], rest, orphans);
      } else if rest != [] && rest[0].Request? {
        assert Placed(rest[1..], orphans) by {
          assert forall i | 0 <= i < |rest| - 1 :: rest[1..][i] == rest[i + 1];
        }
        PlacedAfter([ms[0], Request(placeholders + rest[0].req)], rest[1..], orphans);
      } else {
        PlacedAfter([ms[0], Request(placeholders)], rest, orphans);
      }
    }
  }

  /** The calls of a response among some ids, in order. */
  function CallsAmong(parts: seq<RespPart>, ids: set<string>): (calls: seq<RespPart>)
    ensures forall p <- calls :: p.Call?
  {
    if parts == [] then []
    else
      var p := parts[|parts| - 1];
      CallsAmong(parts[..|parts| - 1], ids) + if p.Call? && p.id in ids then [p] else []
  }

  /** Placeholders answer the calls one by one: by id and tool, as a failure that is no retry. */
  ghost predicate AnswerCalls(placeholders: seq<ReqPart>, calls: seq<RespPart>)
    requires forall p <- calls :: p.Call?
  {
    && |placeholders| == |calls|
    && forall k | 0 <= k < |calls| :: placeholders[k].Return? && placeholders[k].id == calls[k].id && placeholders[k].tool == calls[k].tool &&
                                      placeholders[k].body == Plain(PLACEHOLDER) && !placeholders[k].retried
  }

  lemma {:induction false} PlaceholdersAnswer(parts: seq<RespPart>, orphans: set<string>)
    ensures AnswerCalls(Placeholders(parts, orphans), CallsAmong(parts, orphans))
  {
    if parts != [] {
      PlaceholdersAnswer(parts[..|parts| - 1], orphans);
    }
  }

  lemma PlaceholdersFollowTheirCalls(ms: seq<Message>)
    requires !Untouched(ms)
    ensures Placed(Paired(ms), CalledIds(ms) - ReturnedIds(ms))
    ensures forall m <- Paired(ms) :: m.Response? ==>
              AnswerCalls(PlaceholdersAfter(m, CalledIds(ms) - ReturnedIds(ms)), CallsAmong(m.resp, CalledIds(ms) - ReturnedIds(ms)))
  {
    InjectedPlaced(Cleaned(ms, ReturnedIds(ms) - CalledIds(ms)), CalledIds(ms) - ReturnedIds(ms));
    forall m <- Paired(ms) | m.Response?
      ensures AnswerCalls(PlaceholdersAfter(m, CalledIds(ms) - ReturnedIds(ms)), CallsAmong(m.resp, CalledIds(ms) - ReturnedIds(ms)))
    {
      PlaceholdersAnswer(m.resp, CalledIds(ms) - ReturnedIds(ms));
    }
  }

  // Repairing twice.

  ghost predicate NoEmptyRequest(ms: seq<Message>) {
    forall m <- ms :: m.Request? ==> m.req != []
  }

  lemma {:induction false} CleanedHasNoEmptyRequest(ms: seq<Message>, orphans: set<string>)
    ensures NoEmptyRequest(Cleaned(ms, orphans))
  {
    if ms != [] {
      CleanedHasNoEmptyRequest(ms[..|ms| - 1], orphans);
    }
  }

  lemma {:induction false} InjectedHasNoEmptyRequest(ms: seq<Message>, orphans: set<string>)
    requires NoEmptyRequest(ms)
    ensures NoEmptyRequest(Injected(ms, orphans))
  {
    if ms != [] {
      InjectedHasNoEmptyRequest(ms[1..], orphans);
    }
  }

  lemma {:induction false} KeptAll(parts: seq<ReqPart>, orphans: set<string>, seen: set<string>)
    requires forall x :: AnswersIn(parts, x) > 0 ==> x !in orphans && x !in seen && AnswersIn(parts, x) == 1
    ensures KeptParts(parts, orphans, seen) == parts
  {
    if parts != [] {
      var front, p := parts[..|parts| - 1], parts[|parts| - 1];
      forall x | AnswersIn(front, x) > 0 ensures x !in orphans && x !in seen && AnswersIn(front, x) == 1 {
        assert AnswersIn(parts, x) >= AnswersIn(front, x);
      }
      KeptAll(front, orphans, seen);
      if IsAnswer(p) {
        assert AnswersIn(parts, p.id) == AnswersIn(front, p.id) + 1;
        SeenInMeans(front, orphans, seen, p.id);
      }
    }
  }

  lemma AnswersOfSnoc(front: seq<Message>, m: Message, x: string)
    ensures Answers(front + [m], x) == Answers(front, x) + if m.Request? then AnswersIn(m.req, x) else 0
  {
    assert (front + [m])[..|front|] == front;
  }

  lemma CleanedOfSnoc(front: seq<Message>, m: Message, orphans: set<string>)
    ensures Cleaned(front + [m], orphans) == Cleaned(front, orphans) + CleanedMessage(m, orphans, Seen(front, orphans))
  {
    assert (front + [m])[..|front|] == front;
  }

  /** A request whose answers are all new and wanted is kept whole. */
  lemma CleanedMessageAll(front: seq<Message>, m: Message, orphans: set<string>)
    requires m.Request? ==> m.req != []
    requires forall x :: Answers(front + [m], x) > 0 ==> x !in orphans && Answers(front + [m], x) == 1
    ensures CleanedMessage(m, orphans, Seen(front, orphans)) == [m]
  {
    if m.Request? {
      forall x | AnswersIn(m.req, x) > 0 ensures x !in orphans && x !in Seen(front, orphans) && AnswersIn(m.req, x) == 1 {
        AnswersOfSnoc(front, m, x);
        SeenMeans(front, orphans, x);
      }
      KeptAll(m.req, orphans, Seen(front, orphans));
    }
  }

  lemma {:induction false} CleanedAll(ms: seq<Message>, orphans: set<string>)
    requires NoEmptyRequest(ms)
    requires forall x :: Answers(ms, x) > 0 ==> x !in orphans && Answers(ms, x) == 1
    ensures Cleaned(ms, orphans) == ms
  {
    if ms != [] {
      var front, m := ms[..|ms| - 1], ms[|ms| - 1];
      assert front + [m] == ms && m in ms;
      forall x | Answers(front, x) > 0 ensures x !in orphans && Answers(front, x) == 1 {
        AnswersOfSnoc(front, m, x);
      }
      CleanedAll(front, orphans);
      CleanedMessageAll(front, m, orphans);
      CleanedOfSnoc(front, m, orphans);
    }
  }

  /** Repairing a second time changes nothing, exactly when no unanswered call id is called twice. */
  lemma RepairingTwiceExactlyWhenUnansweredOnce(ms: seq<Message>)
    ensures Paired(Paired(ms)) == Paired(ms) <==> UnansweredOnce(ms)
  {
    RepairsExactlyWhenUnansweredOnce(ms);
    if UnansweredOnce(ms) {
      if !Untouched(ms) {
        RepairedIsStable(ms);
      }
    } else {
      var p := Paired(ms);
      var x :| Returns(ms, x) == 0 && Calls(ms, x) > 1;
      assert !Untouched(ms);
      PairedCounts(ms, x);
      assert Answers(p, x) > 1;
      assert !Untouched(p);
      PairedCounts(p, x);
    }
  }

  lemma RepairedIsStable(ms: seq<Message>)
    requires !Untouched(ms) && UnansweredOnce(ms)
    ensures Paired(Paired(ms)) == Paired(ms)
  {
    var p := Paired(ms);
    RepairsExactlyWhenUnansweredOnce(ms);
    var orphanReturns, orphanCalls := ReturnedIds(p) - CalledIds(p), CalledIds(p) - ReturnedIds(p);
    forall x ensures x !in orphanCalls && (Answers(p, x) > 0 ==> x !in orphanReturns && Answers(p, x) == 1) {
      CalledMeans(p, x);
      ReturnedMeans(p, x);
    }
    assert orphanCalls == {};
    CleanedHasNoEmptyRequest(ms, ReturnedIds(ms) - CalledIds(ms));
    InjectedHasNoEmptyRequest(Cleaned(ms, ReturnedIds(ms) - CalledIds(ms)), CalledIds(ms) - ReturnedIds(ms));
    CleanedAll(p, orphanReturns);
    InjectedNothing(p);
  }
}
