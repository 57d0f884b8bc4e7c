/** The gate that keeps a text or reasoning part off the log while it is empty. */
module EmptyParts {
  import opened Wrappers
  import opened Chunks

  /** The starts held back, by the id of their part, and what one chunk lets through. */
  datatype Admission = Admission(held: map<string, StreamKey>, let: seq<Chunk>)

  function Admitted(held: map<string, StreamKey>, c: Chunk): Admission {
    match c
    case StreamStart(key) => Admission(held[key.id := key], [])
    case StreamDelta(key, _) =>
      if key.id in held then Admission(held - {key.id}, [StreamStart(held[key.id]), c]) else Admission(held, [c])
    case StreamEnd(key) => if key.id in held then Admission(held - {key.id}, []) else Admission(held, [c])
    case _ => Admission(held, [c])
  }

  /** What the gate holds after a stream, and everything it let through. */
  function Gated(chunks: seq<Chunk>): Admission {
    if chunks == [] then Admission(map[], [])
    else
      var before := Gated(chunks[..|chunks| - 1]);
      var now := Admitted(before.held, chunks[|chunks| - 1]);
      Admission(now.held, before.let + now.let)
  }

  class EmptyPartGate {
    var held: map<string, StreamKey>

    constructor ()
      ensures held == map[]
    {
      held := map[];
    }

    method Admit(c: Chunk) returns (let: seq<Chunk>)
      modifies this
      ensures Admission(held, let) == Admitted(old(held), c)
    {
      match c {
        case StreamStart(key) =>
          held := held[key.id := key];
          return [];
        case StreamDelta(key, _) =>
          if key.id in held {
            let := [StreamStart(held[key.id]), c];
            held := held - {key.id};
            return;
          }
        case StreamEnd(key) =>
          if key.id in held {
            held := held - {key.id};
            return [];
          }
        case _ =>
      }
      let := [c];
    }
  }

  // No empty part gets through.

  /** Every start is followed at once by a delta of its part. */
  predicate NoneEmpty(chunks: seq<Chunk>) {
    forall i | 0 <= i < |chunks| && chunks[i].StreamStart? ::
      i + 1 < |chunks| && chunks[i + 1].StreamDelta? && chunks[i + 1].key.id == chunks[i].key.id
  }

  /** The held starts are known by their own ids. */
  predicate HeldById(held: map<string, StreamKey>) { forall id <- held :: held[id].id == id }

  lemma NoneEmptyConcat(a: seq<Chunk>, b: seq<Chunk>)
    requires NoneEmpty(a) && NoneEmpty(b)
    ensures NoneEmpty(a + b)
  {
    var all := a + b;
    forall i | 0 <= i < |all| && all[i].StreamStart?
      ensures i + 1 < |all| && all[i + 1].StreamDelta? && all[i + 1].key.id == all[i].key.id
    {
      if i < |a| { assert all[i + 1] == a[i + 1]; } else { assert all[i + 1] == b[i + 1 - |a|]; }
    }
  }

  lemma {:induction false} NoEmptyPartIsLogged(chunks: seq<Chunk>)
    ensures NoneEmpty(Gated(chunks).let) && HeldById(Gated(chunks).held)
  {
    if chunks != [] {
      var before := Gated(chunks[..|chunks| - 1]);
      NoEmptyPartIsLogged(chunks[..|chunks| - 1]);
      NoneEmptyConcat(before.let, Admitted(before.held, chunks[|chunks| - 1]).let);
    }
  }

  // The delta that lets a start through is of the same kind, exactly when the stream's own are.

  /** Every start is followed at once by a delta of its whole key, its kind with its id. */
  predicate NoneMistaken(chunks: seq<Chunk>) {
    forall i | 0 <= i < |chunks| && chunks[i].StreamStart? ::
      i + 1 < |chunks| && chunks[i + 1].StreamDelta? && chunks[i + 1].key == chunks[i].key
  }

  predicate Streamed(c: Chunk, id: string) { (c.StreamStart? || c.StreamDelta? || c.StreamEnd?) && c.key.id == id }

  /** The start a part's id stands at after a stream: its last chunk's, if that is one. */
  function StandsAt(chunks: seq<Chunk>, id: string): Option<StreamKey> {
    if chunks == [] then None
    else
      var c := chunks[|chunks| - 1];
      if !Streamed(c, id) then StandsAt(chunks[..|chunks| - 1], id)
      else if c.StreamStart? then Some(c.key)
      else None
  }

  /** No delta comes right after the start, under its id, of a part of the other kind. */
  predicate KindsMatch(chunks: seq<Chunk>) {
    forall i | 0 <= i < |chunks| && chunks[i].StreamDelta? :: FitsItsStart(chunks[..i], chunks[i])
  }

  predicate FitsItsStart(before: seq<Chunk>, c: Chunk)
    requires c.StreamDelta?
  {
    var start := StandsAt(before, c.key.id);
    start.Some? ==> start.value == c.key
  }

  lemma {:induction false} HeldIsWhereTheStreamStands(chunks: seq<Chunk>, id: string)
    ensures var held := Gated(chunks).held; StandsAt(chunks, id) == if id in held then Some(held[id]) else None
  {
    if chunks != [] {
      HeldIsWhereTheStreamStands(chunks[..|chunks| - 1], id);
    }
  }

  lemma NoneMistakenConcat(a: seq<Chunk>, b: seq<Chunk>)
    requires NoneEmpty(a)
    ensures NoneMistaken(a + b) <==> NoneMistaken(a) && NoneMistaken(b)
  {
    var all := a + b;
    assert forall i | 0 <= i < |a| :: all[i] == a[i];
    assert forall i | 0 <= i < |b| :: all[|a| + i] == b[i];
    assert forall i | |a| <= i < |all| :: all[i] == b[i - |a|];
  }

  lemma AdmittedMistakes(held: map<string, StreamKey>, c: Chunk)
    ensures NoneMistaken(Admitted(held, c).let) <==> (c.StreamDelta? && c.key.id in held ==> held[c.key.id] == c.key)
  {
    var let := Admitted(held, c).let;
    if c.StreamDelta? && c.key.id in held {
      assert let[0] == StreamStart(held[c.key.id]) && let[1] == c;
    }
  }

  lemma KindsMatchSnoc(front: seq<Chunk>, c: Chunk)
    ensures KindsMatch(front + [c]) <==> KindsMatch(front) && (c.StreamDelta? ==> FitsItsStart(front, c))
  {
    var all := front + [c];
    assert all[..|front|] == front;
    assert forall i | 0 <= i < |front| :: all[i] == front[i] && all[..i] == front[..i];
  }

  /** No start is let through before a delta of another part exactly when no delta of the stream comes right
      after the start, under its id, of a part of the other kind. */
  lemma {:induction false} NoneMistakenExactlyWhenKindsMatch(chunks: seq<Chunk>)
    ensures NoneMistaken(Gated(chunks).let) <==> KindsMatch(chunks)
  {
    if chunks != [] {
      var front, c := chunks[..|chunks| - 1], chunks[|chunks| - 1];
      var before := Gated(front);
      NoneMistakenExactlyWhenKindsMatch(front);
      NoEmptyPartIsLogged(front);
      NoneMistakenConcat(before.let, Admitted(before.held, c).let);
      AdmittedMistakes(before.held, c);
      if c.StreamDelta? { HeldIsWhereTheStreamStands(front, c.key.id); }
      KindsMatchSnoc(front, c);
      assert front + [c] == chunks;
    }
  }

  /** The gate itself keeps starts by their ids alone: a reasoning delta lets a text start of its id through. */
  lemma AStartCanBeMistaken(id: string, delta: string)
    ensures var text, reasoning := StreamKey(TextStream, id), StreamKey(ReasoningStream, id);
            var let := Gated([StreamStart(text), StreamDelta(reasoning, delta)]).let;
            let == [StreamStart(text), StreamDelta(reasoning, delta)] && !NoneMistaken(let)
  {
    var start, other := StreamStart(StreamKey(TextStream, id)), StreamDelta(StreamKey(ReasoningStream, id), delta);
    assert [start, other][..1] == [start] && [start][..0] == [];
    assert Gated([start]) == Admission(map[][id := start.key], []);
    var let := Gated([start, other]).let;
    assert let == [start, other];
    assert let[0].StreamStart? && let[1].key != let[0].key;
  }

  // Everything else gets through, in order.

  predicate Bracket(c: Chunk) { c.StreamStart? || c.StreamEnd? }

  function Within(chunks: seq<Chunk>): seq<Chunk> {
    if chunks == [] then []
    else if Bracket(chunks[|chunks| - 1]) then Within(chunks[..|chunks| - 1])
    else Within(chunks[..|chunks| - 1]) + [chunks[|chunks| - 1]]
  }

  lemma {:induction false} WithinConcat(a: seq<Chunk>, b: seq<Chunk>)
    ensures Within(a + b) == Within(a) + Within(b)
  {
    if b == [] {
      assert a + b == a;
    } else {
      assert (a + b)[..|a + b| - 1] == a + b[..|b| - 1];
      WithinConcat(a, b[..|b| - 1]);
    }
  }

  lemma WithinOne(c: Chunk)
    ensures Within([c]) == if Bracket(c) then [] else [c]
  {
    assert [c][..0] == [];
  }

  lemma WithinTwo(a: Chunk, b: Chunk)
    requires Bracket(a) && !Bracket(b)
    ensures Within([a, b]) == [b]
  {
    WithinOne(a);
    WithinOne(b);
    WithinConcat([a], [b]);
    assert [a, b] == [a] + [b];
  }

  lemma AdmittedWithin(held: map<string, StreamKey>, c: Chunk)
    ensures Bracket(c) ==> Within(Admitted(held, c).let) == []
    ensures !Bracket(c) ==> Within(Admitted(held, c).let) == [c]
  {
    WithinOne(c);
    if c.StreamDelta? && c.key.id in held {
      WithinTwo(StreamStart(held[c.key.id]), c);
    }
  }

  lemma {:induction false} EverythingElseIsLogged(chunks: seq<Chunk>)
    ensures Within(Gated(chunks).let) == Within(chunks)
  {
    if chunks != [] {
      var front, c := chunks[..|chunks| - 1], chunks[|chunks| - 1];
      var before := Gated(front);
      EverythingElseIsLogged(front);
      AdmittedWithin(before.held, c);
      WithinConcat(before.let, Admitted(before.held, c).let);
    }
  }

  // A part with a delta keeps its start and its end.

  /** How often a part is started, and how often it is ended. */
  function Starts(chunks: seq<Chunk>, id: string): nat {
    if chunks == [] then 0
    else
      var c := chunks[|chunks| - 1];
      Starts(chunks[..|chunks| - 1], id) + if c.StreamStart? && c.key.id == id then 1 else 0
  }

  function Ends(chunks: seq<Chunk>, id: string): nat {
    if chunks == [] then 0
    else
      var c := chunks[|chunks| - 1];
      Ends(chunks[..|chunks| - 1], id) + if c.StreamEnd? && c.key.id == id then 1 else 0
  }

  lemma {:induction false} BracketsConcat(a: seq<Chunk>, b: seq<Chunk>, id: string)
    ensures Starts(a + b, id) == Starts(a, id) + Starts(b, id) && Ends(a + b, id) == Ends(a, id) + Ends(b, id)
  {
    if b == [] {
      assert a + b == a;
    } else {
      assert (a + b)[..|a + b| - 1] == a + b[..|b| - 1];
      BracketsConcat(a, b[..|b| - 1], id);
    }
  }

  lemma BracketsOfOne(c: Chunk, id: string)
    ensures Starts([c], id) == if c.StreamStart? && c.key.id == id then 1 else 0
    ensures Ends([c], id) == if c.StreamEnd? && c.key.id == id then 1 else 0
  {
    assert [c][..0] == [];
  }

  /** A part that is started once at a time: between two starts of an id stands its end. */
  predicate StartedInTurn(chunks: seq<Chunk>, id: string) {
    chunks != [] ==>
      && StartedInTurn(chunks[..|chunks| - 1], id)
      && (chunks[|chunks| - 1].StreamStart? && chunks[|chunks| - 1].key.id == id ==>
            Starts(chunks[..|chunks| - 1], id) == Ends(chunks[..|chunks| - 1], id))
      && (chunks[|chunks| - 1].StreamEnd? && chunks[|chunks| - 1].key.id == id ==>
            Starts(chunks[..|chunks| - 1], id) == Ends(chunks[..|chunks| - 1], id) + 1)
  }

  function Balance(chunks: seq<Chunk>, id: string): int { Starts(chunks, id) - Ends(chunks, id) }

  function Holding(held: map<string, StreamKey>, id: string): int { if id in held then 1 else 0 }

  /** What one chunk lets through balances what it brings and what it leaves held. */
  lemma AdmittedBalance(held: map<string, StreamKey>, c: Chunk, id: string)
    requires HeldById(held) && (c.StreamStart? && c.key.id == id ==> id !in held)
    ensures var now := Admitted(held, c);
            Balance([c], id) + Holding(held, id) == Balance(now.let, id) + Holding(now.held, id)
  {
    BracketsOfOne(c, id);
    if c.StreamDelta? && c.key.id in held {
      var start := StreamStart(held[c.key.id]);
      BracketsOfOne(start, id);
      BracketsConcat([start], [c], id);
      assert [start, c] == [start] + [c];
    }
  }

  /** Starts and ends are dropped in pairs: what gets through is as balanced as what came in. */
  lemma {:induction false} DroppedInPairs(chunks: seq<Chunk>, id: string)
    requires StartedInTurn(chunks, id)
    ensures var gated := Gated(chunks);
            && (id in gated.held ==> Balance(chunks, id) == 1)
            && Balance(chunks, id) == Balance(gated.let, id) + Holding(gated.held, id)
  {
    if chunks != [] {
      var front, c := chunks[..|chunks| - 1], chunks[|chunks| - 1];
      var before := Gated(front);
      var now := Admitted(before.held, c);
      DroppedInPairs(front, id);
      assert HeldById(before.held) by { NoEmptyPartIsLogged(front); }
      assert Balance(chunks, id) == Balance(front, id) + Balance([c], id) by {
        assert chunks == front + [c];
        BracketsConcat(front, [c], id);
      }
      assert Balance(before.let + now.let, id) == Balance(before.let, id) + Balance(now.let, id) by {
        BracketsConcat(before.let, now.let, id);
      }
      AdmittedBalance(before.held, c, id);
      HeldAfter(before.held, c, id);
    }
  }

  lemma HeldAfter(held: map<string, StreamKey>, c: Chunk, id: string)
    ensures id in Admitted(held, c).held ==>
              if c.StreamStart? && c.key.id == id then Balance([c], id) == 1 else id in held && Balance([c], id) == 0
  {
    BracketsOfOne(c, id);
  }
}
