/** The history processors in their order, and the briefing a model reads from a history. */
module HistoryPipeline {
  import opened Wrappers
  import opened Messages
  import opened Pairing
  import opened Elision
  import D = Digest
  import B = Briefings
  import opened UpdateTexts
  import opened Compaction

  /** The sections a part sends after the update lead, in order. */
  function UpdateItems(p: ReqPart): seq<string> {
    var text := D.UpdateText(p);
    if text == [] then [] else ItemsOf(text[0])
  }

  function Applied(briefing: string, item: string): string {
    match GoneHeading(item)
    case Some(heading) => B.Replaced(briefing, heading, None)
    case None => B.Replaced(briefing, B.Heading(item), Some(item))
  }

  function AfterItems(briefing: string, items: seq<string>): string {
    if items == [] then briefing
    else Applied(AfterItems(briefing, items[..|items| - 1]), items[|items| - 1])
  }

  function AfterParts(briefing: string, parts: seq<ReqPart>): string {
    if parts == [] then briefing
    else AfterItems(AfterParts(briefing, parts[..|parts| - 1]), UpdateItems(parts[|parts| - 1]))
  }

  /** The instructions as the model reads them after every update of the history. */
  function Briefing(instructions: string, ms: seq<Message>): string {
    if ms == [] then instructions
    else
      var before := Briefing(instructions, ms[..|ms| - 1]);
      if ms[|ms| - 1].Request? then AfterParts(before, ms[|ms| - 1].req) else before
  }

  method ApplyItems(begun: string, items: seq<string>) returns (briefing: string)
    ensures briefing == AfterItems(begun, items)
  {
    briefing := begun;
    for k := 0 to |items|
      invariant briefing == AfterItems(begun, items[..k])
    {
      assert items[..k + 1][..k] == items[..k];
      var gone := GoneHeading(items[k]);
      if gone.Some? {
        briefing := B.Replaced(briefing, gone.value, None);
      } else {
        briefing := B.Replaced(briefing, B.Heading(items[k]), Some(items[k]));
      }
    }
    assert items[..|items|] == items;
  }

  method ApplyParts(begun: string, parts: seq<ReqPart>) returns (briefing: string)
    ensures briefing == AfterParts(begun, parts)
  {
    briefing := begun;
    for j := 0 to |parts|
      invariant briefing == AfterParts(begun, parts[..j])
    {
      assert parts[..j + 1][..j] == parts[..j];
      briefing := ApplyItems(briefing, UpdateItems(parts[j]));
    }
    assert parts[..|parts|] == parts;
  }

  method BriefingNow(instructions: string, ms: seq<Message>) returns (briefing: string)
    ensures briefing == Briefing(instructions, ms)
  {
    briefing := instructions;
    for i := 0 to |ms|
      invariant briefing == Briefing(instructions, ms[..i])
    {
      assert ms[..i + 1][..i] == ms[..i];
      if ms[i].Response? {
        continue;
      }
      briefing := ApplyParts(briefing, ms[i].req);
    }
    assert ms[..|ms|] == ms;
  }

  // The briefing is a matter of the section updates alone.

  lemma {:induction false} AfterPartsConcat(briefing: string, a: seq<ReqPart>, b: seq<ReqPart>)
    ensures AfterParts(briefing, a + b) == AfterParts(AfterParts(briefing, a), b)
  {
    if b == [] {
      assert a + b == a;
    } else {
      assert (a + b)[..|a + b| - 1] == a + b[..|b| - 1];
      AfterPartsConcat(briefing, a, b[..|b| - 1]);
    }
  }

  lemma {:induction false} OnlyUpdatesCount(briefing: string, parts: seq<ReqPart>)
    ensures AfterParts(briefing, parts) == AfterParts(briefing, UpdatesIn(parts))
  {
    if parts != [] {
      var front, p := parts[..|parts| - 1], parts[|parts| - 1];
      OnlyUpdatesCount(briefing, front);
      if D.IsSectionUpdate(p) {
        assert (UpdatesIn(front) + [p])[..|UpdatesIn(front)|] == UpdatesIn(front);
      } else {
        assert UpdateItems(p) == [];
      }
    }
  }

  lemma {:induction false} BriefingFromUpdates(instructions: string, ms: seq<Message>)
    ensures Briefing(instructions, ms) == AfterParts(instructions, SectionUpdates(ms))
  {
    if ms != [] {
      var front, m := ms[..|ms| - 1], ms[|ms| - 1];
      BriefingFromUpdates(instructions, front);
      if m.Request? {
        OnlyUpdatesCount(Briefing(instructions, front), m.req);
        AfterPartsConcat(instructions, SectionUpdates(front), UpdatesIn(m.req));
      }
    }
  }

  // Pairing and elision keep the section updates.

  function UpdatesAmong(parts: seq<Part>): seq<ReqPart> {
    if parts == [] then []
    else if parts[|parts| - 1].FromUser? && D.IsSectionUpdate(parts[|parts| - 1].req)
    then UpdatesAmong(parts[..|parts| - 1]) + [parts[|parts| - 1].req]
    else UpdatesAmong(parts[..|parts| - 1])
  }

  lemma {:induction false} UpdatesAmongConcat(a: seq<Part>, b: seq<Part>)
    ensures UpdatesAmong(a + b) == UpdatesAmong(a) + UpdatesAmong(b)
  {
    if b == [] {
      assert a + b == a;
    } else {
      assert (a + b)[..|a + b| - 1] == a + b[..|b| - 1];
      UpdatesAmongConcat(a, b[..|b| - 1]);
    }
  }

  lemma {:induction false} UpdatesAmongRequest(parts: seq<ReqPart>)
    ensures UpdatesAmong(AsParts(OtherRequestParts(parts, IsAnswer))) == UpdatesIn(parts)
  {
    if parts != [] {
      var front, p := parts[..|parts| - 1], parts[|parts| - 1];
      UpdatesAmongRequest(front);
      if !IsAnswer(p) {
        var others := AsParts(OtherRequestParts(front, IsAnswer));
        assert AsParts(OtherRequestParts(parts, IsAnswer)) == others + [FromUser(p)];
        assert (others + [FromUser(p)])[..|others|] == others;
        assert UpdatesAmong(others + [FromUser(p)]) == if D.IsSectionUpdate(p) then UpdatesAmong(others) + [p] else UpdatesAmong(others);
      } else {
        assert OtherRequestParts(parts, IsAnswer) == OtherRequestParts(front, IsAnswer);
        assert !D.IsSectionUpdate(p);
      }
    }
  }

  lemma {:induction false} UpdatesFromOthers(ms: seq<Message>)
    ensures SectionUpdates(ms) == UpdatesAmong(OtherParts(ms, IsAnswer))
  {
    if ms != [] {
      var front, m := ms[..|ms| - 1], ms[|ms| - 1];
      UpdatesFromOthers(front);
      match m
      case Request(parts) =>
        UpdatesAmongRequest(parts);
        UpdatesAmongConcat(OtherParts(front, IsAnswer), AsParts(OtherRequestParts(parts, IsAnswer)));
      case Response(parts) =>
        assert (OtherParts(front, IsAnswer) + [FromModel(parts)])[..|OtherParts(front, IsAnswer)|] == OtherParts(front, IsAnswer);
    }
  }

  lemma PairingKeepsUpdates(ms: seq<Message>)
    ensures SectionUpdates(Paired(ms)) == SectionUpdates(ms)
  {
    UpdatesFromOthers(Paired(ms));
    UpdatesFromOthers(ms);
    PairingKeepsEverythingElse(ms);
  }

  lemma {:induction false} ElidedPartsKeepUpdates(parts: seq<ReqPart>, ids: set<string>)
    ensures UpdatesIn(ElidedParts(parts, ids)) == UpdatesIn(parts)
  {
    if parts != [] {
      assert ElidedParts(parts, ids)[..|parts| - 1] == ElidedParts(parts[..|parts| - 1], ids);
      ElidedPartsKeepUpdates(parts[..|parts| - 1], ids);
    }
  }

  lemma {:induction false} ElidedMessagesKeepUpdates(ms: seq<Message>, ids: set<string>)
    ensures SectionUpdates(ElidedMessages(ms, ids)) == SectionUpdates(ms)
  {
    if ms != [] {
      assert ElidedMessages(ms, ids)[..|ms| - 1] == ElidedMessages(ms[..|ms| - 1], ids);
      ElidedMessagesKeepUpdates(ms[..|ms| - 1], ids);
      if ms[|ms| - 1].Request? {
        ElidedPartsKeepUpdates(ms[|ms| - 1].req, ids);
      }
    }
  }

  // The pipeline.

  ghost function Processed(ms: seq<Message>): seq<Message> { Compacted(Elided(Paired(ms))) }

  method Process(ms: seq<Message>) returns (result: seq<Message>)
    ensures result == Processed(ms)
  {
    var paired := PairOrphans(ms);
    var elided := ElideConsumed(paired);
    result := CompactHistory(elided);
  }

  lemma ProcessingKeepsUpdates(ms: seq<Message>)
    ensures SectionUpdates(Processed(ms)) == SectionUpdates(ms)
  {
    PairingKeepsUpdates(ms);
    ElidedMessagesKeepUpdates(Paired(ms), ElideIds(Paired(ms)));
    CompactionKeepsUpdates(Elided(Paired(ms)));
  }

  /** The model reads the same briefing from the processed history as from the whole one. */
  lemma ProcessingKeepsTheBriefing(instructions: string, ms: seq<Message>)
    ensures Briefing(instructions, Processed(ms)) == Briefing(instructions, ms)
  {
    ProcessingKeepsUpdates(ms);
    BriefingFromUpdates(instructions, Processed(ms));
    BriefingFromUpdates(instructions, ms);
  }

  // What the pipeline leaves of the answers.

  ghost predicate HoldsPart(ms: seq<Message>, p: ReqPart) { exists i: nat, j: nat :: PartAt(ms, i, j, p) }

  predicate PartAt(ms: seq<Message>, i: nat, j: nat, p: ReqPart) {
    i < |ms| && ms[i].Request? && j < |ms[i].req| && ms[i].req[j] == p
  }

  lemma {:induction false} KeptOfHead(parts: seq<ReqPart>, p: ReqPart)
    requires p in WithoutDigests(parts)
    ensures p in parts
  {
    if parts != [] && p in WithoutDigests(parts[..|parts| - 1]) {
      KeptOfHead(parts[..|parts| - 1], p);
    }
  }

  lemma {:induction false} UpdatesAreNoAnswers(ms: seq<Message>, p: ReqPart)
    requires p in SectionUpdates(ms)
    ensures !p.Return?
  {
    var front, m := ms[..|ms| - 1], ms[|ms| - 1];
    if m.Request? && p in UpdatesIn(m.req) {
      NoAnswersAmong(m.req, p);
    } else {
      UpdatesAreNoAnswers(front, p);
    }
  }

  lemma {:induction false} NoAnswersAmong(parts: seq<ReqPart>, p: ReqPart)
    requires p in UpdatesIn(parts)
    ensures !p.Return?
  {
    if p in UpdatesIn(parts[..|parts| - 1]) {
      NoAnswersAmong(parts[..|parts| - 1], p);
    }
  }

  /** A pass makes no answer and changes none. */
  lemma CompactionKeepsAnswers(ms: seq<Message>, p: ReqPart)
    requires p.Return? && HoldsPart(Compacted(ms), p)
    ensures HoldsPart(ms, p)
  {
    if Compacted(ms) != ms {
      var start := Plan(ms).value.start;
      var i: nat, j: nat :| PartAt(Compacted(ms), i, j, p);
      if i == 0 {
        AnswersOfHead(ms[0].req, ms[1..start], p);
        var k :| 0 <= k < |ms[0].req| && ms[0].req[k] == p;
        assert PartAt(ms, 0, k, p);
      } else {
        assert Compacted(ms)[i] == ms[start..][i - 1] == ms[start + i - 1];
        assert PartAt(ms, start + i - 1, j, p);
      }
    }
  }

  lemma AnswersOfHead(head: seq<ReqPart>, middle: seq<Message>, p: ReqPart)
    requires p.Return? && p in CompactedHead(head, middle)
    ensures p in head
  {
    if p in WithoutDigests(head) {
      KeptOfHead(head, p);
    } else if p in SectionUpdates(middle) {
      UpdatesAreNoAnswers(middle, p);
    }
  }

  /** The call is one of the whole blocks of calls before the recent ones. */
  ghost predicate Consumed(ms: seq<Message>, id: string) {
    exists k :: 0 <= k < |CallOrder(ms)| && k < Blocks(|CallOrder(ms)|) * ELIDE_BLOCK && CallOrder(ms)[k] == id
  }

  /** An answer that could still be shortened. */
  predicate Whole(p: ReqPart) { PlainAnswer(p) && !p.files && !AlreadyElided(p.body) && |Rendered(p.body)| > ELIDE_MIN_CHARS }

  lemma ElidedAnswers(ms: seq<Message>, p: ReqPart)
    requires p.Return? && HoldsPart(Elided(ms), p)
    ensures Consumed(ms, p.id) ==> !Whole(p)
    ensures !HoldsPart(ms, p) ==> Consumed(ms, p.id) && AlreadyElided(p.body)
  {
    var i: nat, j: nat :| PartAt(Elided(ms), i, j, p);
    var before := ms[i].req[j];
    ElidedExactly(ms, i, j);
    if p == before {
      assert PartAt(ms, i, j, p);
    } else {
      DigestIsElided(before.body);
      var k :| 0 <= k < |CallOrder(ms)| && CallOrder(ms)[k] == before.id && k < Blocks(|CallOrder(ms)|) * ELIDE_BLOCK;
      assert Consumed(ms, p.id);
    }
  }

  /** No answer to a consumed call comes out whole, and any other that comes out is as the repaired history held it. */
  lemma ConsumedAnswersComeOutElided(ms: seq<Message>, p: ReqPart)
    requires p.Return? && HoldsPart(Processed(ms), p)
    ensures Consumed(Paired(ms), p.id) ==> !Whole(p)
    ensures HoldsPart(Paired(ms), p) || (Consumed(Paired(ms), p.id) && AlreadyElided(p.body))
  {
    CompactionKeepsAnswers(Elided(Paired(ms)), p);
    ElidedAnswers(Paired(ms), p);
  }
}
