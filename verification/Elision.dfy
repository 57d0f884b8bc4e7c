/** Shortening the results of calls the run has already consumed, a whole block of calls at a time. */
module Elision {
  import opened Messages

  const KEEP_RECENT_TOOL_PAIRS := 3
  const ELIDE_BLOCK := 8
  const ELIDE_MIN_CHARS := 400
  const ELIDE_DIGEST_CHARS := 220
  const ELIDED_MARKER := "<elided to control context size"
  const ELIDED_ENDING := "already acted on, do not fetch again>"

  function Head(text: string, limit: nat): string {
    if |text| <= limit then text else text[..limit]
  }

  predicate EndsWith(text: string, ending: string) {
    |ending| <= |text| && text[|text| - |ending|..] == ending
  }

  function Digest(body: Body): Body {
    Plain(Head(Rendered(body), ELIDE_DIGEST_CHARS) + ("... " + ELIDED_MARKER + "; " + ELIDED_ENDING))
  }

  predicate AlreadyElided(body: Body) {
    body.Plain? && EndsWith(body.text, ELIDED_ENDING)
  }

  predicate TooSmallToElide(body: Body) {
    |Rendered(body)| <= ELIDE_MIN_CHARS
  }

  /** A plain answer: not a retry, and not a return of a richer kind. */
  predicate PlainAnswer(p: ReqPart) {
    p.Return? && p.exact && !p.retried
  }

  predicate Consumable(p: ReqPart, ids: set<string>) {
    PlainAnswer(p) && p.id in ids && !p.files && !AlreadyElided(p.body) && !TooSmallToElide(p.body)
  }

  function ElidedPart(p: ReqPart, ids: set<string>): ReqPart {
    if Consumable(p, ids) then p.(body := Digest(p.body)) else p
  }

  function ElidedParts(parts: seq<ReqPart>, ids: set<string>): seq<ReqPart> {
    seq(|parts|, i requires 0 <= i < |parts| => ElidedPart(parts[i], ids))
  }

  function ElidedMessage(m: Message, ids: set<string>): Message {
    if m.Response? then m else Request(ElidedParts(m.req, ids))
  }

  function ElidedMessages(ms: seq<Message>, ids: set<string>): seq<Message> {
    seq(|ms|, i requires 0 <= i < |ms| => ElidedMessage(ms[i], ids))
  }

  function CallsOf(parts: seq<RespPart>): seq<string> {
    if parts == [] then []
    else CallsOf(parts[..|parts| - 1]) + (if parts[|parts| - 1].Call? then [parts[|parts| - 1].id] else [])
  }

  /** Every tool call id of the history, in the order it was made. */
  function CallOrder(ms: seq<Message>): seq<string> {
    if ms == [] then []
    else CallOrder(ms[..|ms| - 1]) + (if ms[|ms| - 1].Response? then CallsOf(ms[|ms| - 1].resp) else [])
  }

  /** How many whole blocks of calls lie before the recent ones. */
  function Blocks(calls: nat): (blocks: nat)
    ensures blocks * ELIDE_BLOCK + (if blocks > 0 then KEEP_RECENT_TOOL_PAIRS else 0) <= calls
    ensures calls < (blocks + 1) * ELIDE_BLOCK + KEEP_RECENT_TOOL_PAIRS
  {
    if calls < KEEP_RECENT_TOOL_PAIRS then 0 else (calls - KEEP_RECENT_TOOL_PAIRS) / ELIDE_BLOCK
  }

  function ElideIds(ms: seq<Message>): set<string> {
    var calls := CallOrder(ms);
    set id <- calls[..Blocks(|calls|) * ELIDE_BLOCK]
  }

  function Elided(ms: seq<Message>): seq<Message> {
    ElidedMessages(ms, ElideIds(ms))
  }

  method OrderedToolCallIds(ms: seq<Message>) returns (ids: seq<string>)
    ensures ids == CallOrder(ms)
  {
    ids := [];
    for i := 0 to |ms|
      invariant ids == CallOrder(ms[..i])
    {
      assert ms[..i + 1][..i] == ms[..i];
      if ms[i].Response? {
        var parts := ms[i].resp;
        for j := 0 to |parts|
          invariant ids == CallOrder(ms[..i]) + CallsOf(parts[..j])
        {
          assert parts[..j + 1][..j] == parts[..j];
          if parts[j].Call? {
            ids := ids + [parts[j].id];
          }
        }
        assert parts[..|parts|] == parts;
      }
    }
    assert ms[..|ms|] == ms;
  }

  lemma ElidedSnoc(parts: seq<ReqPart>, i: nat, ids: set<string>)
    requires i < |parts|
    ensures ElidedParts(parts[..i + 1], ids) == ElidedParts(parts[..i], ids) + [ElidedPart(parts[i], ids)]
    ensures parts[..i + 1] == parts[..i] + [parts[i]]
  {
  }

  method ElideReturnsInMessage(m: Message, ids: set<string>) returns (result: Message)
    ensures result == ElidedMessage(m, ids)
  {
    if m.Response? {
      return m;
    }
    var parts: seq<ReqPart>, changed := [], false;
    for i := 0 to |m.req|
      invariant parts == ElidedParts(m.req[..i], ids)
      invariant !changed ==> parts == m.req[..i]
    {
      var part := m.req[i];
      ElidedSnoc(m.req, i, ids);
      if PlainAnswer(part) && part.id in ids && !part.files && !AlreadyElided(part.body) && !TooSmallToElide(part.body) {
        parts := parts + [part.(body := Digest(part.body))];
        changed := true;
      } else {
        parts := parts + [part];
      }
    }
    assert m.req[..|m.req|] == m.req;
    if !changed {
      return m;
    }
    return Request(parts);
  }

  lemma ElidingNothing(ms: seq<Message>)
    ensures ElidedMessages(ms, {}) == ms
  {
    forall i | 0 <= i < |ms| ensures ElidedMessage(ms[i], {}) == ms[i] {
      if ms[i].Request? { assert ElidedParts(ms[i].req, {}) == ms[i].req; }
    }
  }

  method ElideConsumed(ms: seq<Message>) returns (result: seq<Message>)
    ensures result == Elided(ms)
  {
    var calls := OrderedToolCallIds(ms);
    var blocks := Blocks(|calls|);
    if blocks == 0 {
      ElidingNothing(ms);
      assert ElideIds(ms) == {};
      return ms;
    }
    var ids := set id <- calls[..blocks * ELIDE_BLOCK];
    result := [];
    for i := 0 to |ms|
      invariant result == ElidedMessages(ms[..i], ids)
    {
      var m := ElideReturnsInMessage(ms[i], ids);
      result := result + [m];
    }
    assert ms[..|ms|] == ms;
  }

  // Elision is incremental.

  lemma DigestIsElided(body: Body)
    ensures AlreadyElided(Digest(body))
  {
    var text := Digest(body).text;
    var front := Head(Rendered(body), ELIDE_DIGEST_CHARS) + ("... " + ELIDED_MARKER + "; ");
    assert text == front + ELIDED_ENDING;
  }

  lemma PartTwice(p: ReqPart, some: set<string>, more: set<string>)
    requires some <= more
    ensures ElidedPart(ElidedPart(p, some), more) == ElidedPart(p, more)
  {
    if Consumable(p, some) { DigestIsElided(p.body); }
  }

  lemma MessagesTwice(ms: seq<Message>, some: set<string>, more: set<string>)
    requires some <= more
    ensures ElidedMessages(ElidedMessages(ms, some), more) == ElidedMessages(ms, more)
  {
    forall i | 0 <= i < |ms| ensures ElidedMessage(ElidedMessage(ms[i], some), more) == ElidedMessage(ms[i], more) {
      if ms[i].Request? {
        forall j | 0 <= j < |ms[i].req|
          ensures ElidedParts(ElidedParts(ms[i].req, some), more)[j] == ElidedParts(ms[i].req, more)[j]
        {
          PartTwice(ms[i].req[j], some, more);
        }
        assert ElidedParts(ElidedParts(ms[i].req, some), more) == ElidedParts(ms[i].req, more);
      }
    }
  }

  lemma {:induction false} CallOrderOfConcat(a: seq<Message>, b: seq<Message>)
    ensures CallOrder(a + b) == CallOrder(a) + CallOrder(b)
  {
    if b == [] {
      assert a + b == a;
    } else {
      assert (a + b)[..|a + b| - 1] == a + b[..|b| - 1];
      CallOrderOfConcat(a, b[..|b| - 1]);
    }
  }

  /** Elision rewrites no call. */
  lemma {:induction false} CallOrderKept(ms: seq<Message>, ids: set<string>)
    ensures CallOrder(ElidedMessages(ms, ids)) == CallOrder(ms)
  {
    if ms != [] {
      CallOrderKept(ms[..|ms| - 1], ids);
      assert ElidedMessages(ms, ids)[..|ms| - 1] == ElidedMessages(ms[..|ms| - 1], ids);
    }
  }

  lemma IdsGrow(h: seq<Message>, ext: seq<Message>)
    ensures ElideIds(h) <= ElideIds(h + ext)
    ensures Blocks(|CallOrder(h)|) == Blocks(|CallOrder(h + ext)|) ==> ElideIds(h) == ElideIds(h + ext)
  {
    CallOrderOfConcat(h, ext);
    var before, after := CallOrder(h), CallOrder(h + ext);
    var n, m := Blocks(|before|) * ELIDE_BLOCK, Blocks(|after|) * ELIDE_BLOCK;
    assert n <= m;
    assert before[..n] == after[..m][..n];
  }

  /** Eliding as the run grows gives the history eliding the whole run gives. */
  lemma ElisionIsIncremental(h: seq<Message>, ext: seq<Message>)
    ensures Elided(Elided(h) + ext) == Elided(h + ext)
  {
    IdsGrow(h, ext);
    CallOrderKept(h, ElideIds(h));
    CallOrderOfConcat(Elided(h), ext);
    CallOrderOfConcat(h, ext);
    var ids := ElideIds(h + ext);
    assert ElideIds(Elided(h) + ext) == ids;
    MessagesTwice(h, ElideIds(h), ids);
    assert ElidedMessages(Elided(h) + ext, ids) == ElidedMessages(Elided(h), ids) + ElidedMessages(ext, ids);
    assert ElidedMessages(h + ext, ids) == ElidedMessages(h, ids) + ElidedMessages(ext, ids);
  }

  lemma ElisionIsIdempotent(h: seq<Message>)
    ensures Elided(Elided(h)) == Elided(h)
  {
    ElisionIsIncremental(h, []);
    assert Elided(h) + [] == Elided(h) && h + [] == h;
  }

  /** Between two block edges each request extends the one before it exactly. */
  lemma {:induction false} ElisionIsPrefixStable(h: seq<Message>, ext: seq<Message>)
    requires Blocks(|CallOrder(h)|) == Blocks(|CallOrder(h + ext)|)
    ensures Elided(h) <= Elided(h + ext)
  {
    IdsGrow(h, ext);
  }

  /** Only the body of a consumed plain answer changes, and it gets strictly shorter. */
  lemma ElisionOnlyShortens(ms: seq<Message>, i: nat, j: nat)
    requires i < |ms| && ms[i].Request? && j < |ms[i].req|
    ensures |Elided(ms)| == |ms| && Elided(ms)[i].Request? && |Elided(ms)[i].req| == |ms[i].req|
    ensures var p, q := ms[i].req[j], Elided(ms)[i].req[j];
            || q == p
            || (Consumable(p, ElideIds(ms)) && q == p.(body := q.body) && |Rendered(q.body)| < |Rendered(p.body)|)
  {
  }

  ghost predicate DistinctIds(ids: seq<string>) {
    forall i, j | 0 <= i < j < |ids| :: ids[i] != ids[j]
  }

  /** With distinct ids the results of the last three calls stay whole. */
  lemma RecentResultsStayWhole(ms: seq<Message>, k: nat, i: nat, j: nat)
    requires DistinctIds(CallOrder(ms)) && |CallOrder(ms)| - KEEP_RECENT_TOOL_PAIRS <= k < |CallOrder(ms)|
    requires i < |ms| && ms[i].Request? && j < |ms[i].req| && ms[i].req[j].Return? && ms[i].req[j].id == CallOrder(ms)[k]
    ensures Elided(ms)[i].req[j] == ms[i].req[j]
  {
    var calls := CallOrder(ms);
    var n := Blocks(|calls|) * ELIDE_BLOCK;
    assert n <= k + 1 && n <= |calls|;
    forall e | 0 <= e < n ensures calls[..n][e] != calls[k] { assert calls[..n][e] == calls[e]; }
  }

  /** What is elided is exactly the consumable answers to the calls of the whole blocks. */
  lemma ElidedExactly(ms: seq<Message>, i: nat, j: nat)
    requires i < |ms| && ms[i].Request? && j < |ms[i].req|
    ensures var p, calls := ms[i].req[j], CallOrder(ms);
            Elided(ms)[i].req[j] != p <==>
              && PlainAnswer(p) && !p.files && !AlreadyElided(p.body) && |Rendered(p.body)| > ELIDE_MIN_CHARS
              && exists k :: 0 <= k < |calls| && calls[k] == p.id && k < Blocks(|calls|) * ELIDE_BLOCK
  {
    var p, calls := ms[i].req[j], CallOrder(ms);
    var n := Blocks(|calls|) * ELIDE_BLOCK;
    assert n <= |calls|;
    forall k | 0 <= k < n ensures calls[..n][k] == calls[k] { }
    if p.Return? && p.id in ElideIds(ms) {
      var e :| 0 <= e < n && calls[..n][e] == p.id;
      assert calls[e] == p.id;
    }
  }

  /** What is left of an elided answer: the first characters of what it rendered as, and the mark. */
  lemma ElidedReads(ms: seq<Message>, i: nat, j: nat)
    requires i < |ms| && ms[i].Request? && j < |ms[i].req| && Elided(ms)[i].req[j] != ms[i].req[j]
    ensures var whole, body := Rendered(ms[i].req[j].body), Elided(ms)[i].req[j].body;
            && body.Plain? && |body.text| > ELIDE_DIGEST_CHARS && body.text[..ELIDE_DIGEST_CHARS] == whole[..ELIDE_DIGEST_CHARS]
            && body.text[ELIDE_DIGEST_CHARS..] == "... " + ELIDED_MARKER + "; " + ELIDED_ENDING
  {
    var p := ms[i].req[j];
    assert Consumable(p, ElideIds(ms)) && Elided(ms)[i].req[j] == p.(body := Digest(p.body));
    MarkFollows(Rendered(p.body)[..ELIDE_DIGEST_CHARS]);
  }

  lemma MarkFollows(head: string)
    ensures var mark := "... " + ELIDED_MARKER + "; " + ELIDED_ENDING;
            (head + ("... " + ELIDED_MARKER + "; " + ELIDED_ENDING))[|head|..] == mark
  {
  }
}
