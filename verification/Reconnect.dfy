/** A client that goes back to a thread: from its record of the log, through the chain of tails, to the
    streams it reads. */
module Reconnect {
  import opened Wrappers
  import opened ConversationLog
  import opened CursorStore
  import opened Resume
  import opened WholeChains

  /** The message a client's record leaves open, where its tail starts, and what it already holds of it. */
  function MessageOf(kept: Kept): Option<string> { if kept.open.Some? then Some(kept.open.value.messageId) else None }

  function TailFrom(kept: Kept): nat { if kept.open.Some? then kept.open.value.after else kept.cursor }

  function HeldThrough(kept: Kept): nat { if kept.open.Some? then kept.cursor else 0 }

  function StartOf(r: Row): Option<string> { if r.valid then Opens(r) else None }

  /** No message is started again once another has been. */
  predicate NeverReturns(log: seq<Row>) {
    forall a, b, c | a in log && b in log && c in log && a.id < b.id < c.id ::
      StartOf(a).Some? && StartOf(a) == StartOf(c) && StartOf(b).Some? ==> StartOf(b) == StartOf(a)
  }

  // The frames of a log, as a chain carries them.

  lemma {:induction false} EventsAreWithin(frames: seq<Frame>)
    ensures forall f <- frames | f.Event? :: f.row in Events(frames)
  {
    if frames != [] {
      EventsAreWithin(frames[..|frames| - 1]);
    }
  }

  lemma {:induction false} EventsInOrder(frames: seq<Frame>)
    requires InOrder(Events(frames))
    ensures OrderedEvents(frames)
  {
    if frames != [] {
      var front, last := frames[..|frames| - 1], frames[|frames| - 1];
      var before := Events(front);
      assert Events(frames) == if last.Event? then before + [last.row] else before;
      assert forall i | 0 <= i < |before| :: before[i] == Events(frames)[i];
      EventsInOrder(front);
      EventsAreWithin(front);
      forall i, j | 0 <= i < j < |frames| && frames[i].Event? && frames[j].Event?
        ensures frames[i].row.id < frames[j].row.id
      {
        assert frames[i] == front[i] && frames[i] in front;
        if j < |front| {
          assert frames[j] == front[j];
        } else {
          var k :| 0 <= k < |before| && before[k] == frames[i].row;
          assert Events(frames)[|before|] == last.row;
        }
      }
    }
  }

  lemma FirstInOrder(r: Row, rest: seq<Row>)
    requires r.id > 0 && InOrder(rest) && forall f <- rest :: f.id > r.id
    ensures InOrder([r] + rest)
  {
    forall j | 0 < j < |rest| + 1 ensures ([r] + rest)[j] in rest { }
  }

  lemma {:induction false} WireInOrder(log: seq<Row>)
    requires InOrder(log)
    ensures InOrder(Wire(log))
  {
    if log != [] {
      InOrderFrom(log, 1);
      WireInOrder(log[1..]);
      WireIsFramed(log[1..]);
      forall f <- Wire(log[1..]) ensures f.id > log[0].id {
        LaterRow(log, f);
      }
      FirstInOrder(log[0], Wire(log[1..]));
    }
  }

  lemma RowsAfter(log: seq<Row>, cursor: nat)
    requires InOrder(log)
    ensures forall r <- After(log, cursor) :: r in log && r.id > cursor
  {
    var n := Count(log, cursor);
    forall r <- After(log, cursor) ensures r in log && r.id > cursor {
      var k: nat :| k < |log[n..]| && log[n..][k] == r;
      assert log[n + k] == r;
    }
  }

  /** Every frame a chain from the client's cursor carries is a framed row of the log after that cursor. */
  lemma ChainOfLog(log: seq<Row>, frames: seq<Frame>, cursor: nat)
    requires InOrder(log) && Events(frames) <= Wire(After(log, cursor))
    ensures OrderedEvents(frames)
    ensures forall f <- frames | f.Event? :: f.row in log && Framed(f.row) && f.row.id > cursor
  {
    var rows := After(log, cursor);
    InOrderFrom(log, Count(log, cursor));
    WireInOrder(rows);
    PrefixInOrder(Events(frames), Wire(rows));
    EventsInOrder(frames);
    EventsAreWithin(frames);
    WireIsFramed(rows);
    RowsAfter(log, cursor);
  }

  lemma PrefixInOrder(part: seq<Row>, whole: seq<Row>)
    requires part <= whole && InOrder(whole)
    ensures InOrder(part) && forall r <- part :: r in whole
  {
    assert forall i | 0 <= i < |part| :: part[i] == whole[i];
  }

  // The client's cursor fits its chain.

  /** Of a grown log, the rows up to one of the old log's are the old log's. */
  lemma OldRow(log: seq<Row>, more: seq<Row>, r: Row, end: Row)
    requires InOrder(log + more) && r in log + more && end in log && r.id <= end.id
    ensures r in log
  {
    var i: nat :| i < |log + more| && (log + more)[i] == r;
    var j: nat :| j < |log| && log[j] == end;
    assert (log + more)[j] == end;
  }

  lemma {:induction false} LastEndIsAnEnd(log: seq<Row>)
    ensures LastEnd(log) == 0 || exists r <- log :: Ends(r) && r.id == LastEnd(log)
  {
    if log != [] && !Ends(log[|log| - 1]) {
      LastEndIsAnEnd(log[..|log| - 1]);
    }
  }

  lemma SameRow(log: seq<Row>, a: Row, b: Row)
    requires InOrder(log) && a in log && b in log && a.id == b.id
    ensures a == b
  {
    var i: nat :| i < |log| && log[i] == a;
    var j: nat :| j < |log| && log[j] == b;
  }

  /** The row that opened the client's message, after which its log starts no other. */
  lemma OpeningRow(log: seq<Row>) returns (opening: Row)
    requires InOrder(log) && KeptOf(Wire(log)).open.Some?
    ensures opening in log && StartOf(opening) == MessageOf(KeptOf(Wire(log)))
    ensures forall r <- log | r.id > opening.id && StartOf(r).Some? :: StartOf(r) == StartOf(opening)
  {
    ClientAgreesWithServer(log);
    var open, kept := ScanOf(Valid(log)).open.value, KeptOf(Wire(log));
    var i: nat :| OpensBoth(log, open, kept.open.value.after, i);
    opening := log[i];
    forall r <- log | r.id > opening.id && StartOf(r).Some? ensures StartOf(r) == StartOf(opening) {
      var j: nat :| j < |log| && log[j] == r;
      assert j > i && !Interrupts(log[j], open.messageId);
    }
  }

  lemma {:induction false} FromInOrder(frames: seq<Frame>, awaiting: Option<string>)
    requires OrderedEvents(frames)
    ensures OrderedEvents(From(frames, awaiting))
  {
    if frames != [] {
      FromInOrder(frames[1..], awaiting);
    }
  }

  /** No frame from the client's own start up to its cursor starts another message. */
  lemma StartsItsOwn(log: seq<Row>, opening: Row, first: Row, r: Row)
    requires InOrder(log) && NeverReturns(log) && opening in log && first in log && r in log
    requires StartOf(first).Some? && StartOf(first) == StartOf(opening) && StartOf(r).Some? && first.id <= r.id
    requires forall later <- log | later.id > opening.id && StartOf(later).Some? :: StartOf(later) == StartOf(opening)
    ensures StartOf(r) == StartOf(opening)
  {
    if r.id == opening.id {
      SameRow(log, r, opening);
    } else if r.id == first.id {
      SameRow(log, r, first);
    }
  }

  lemma CursorIsARow(log: seq<Row>)
    requires InOrder(log) && KeptOf(Wire(log)).cursor > 0
    ensures exists r <- log :: Ends(r) && r.id == KeptOf(Wire(log)).cursor
  {
    CursorIsLastEnd(log);
    LastEndIsAnEnd(log);
  }

  /** The record of a client that has read `log` fits any chain from its own cursor, in a log that has
      grown since: its cursor is no start's, and no other message starts on the way to it. */
  lemma ClientFits(log: seq<Row>, more: seq<Row>, frames: seq<Frame>)
    requires InOrder(log + more) && NeverReturns(log) && KeptOf(Wire(log)).open.Some?
    requires Events(frames) <= Wire(After(log + more, TailFrom(KeptOf(Wire(log)))))
    ensures var kept := KeptOf(Wire(log));
            OrderedEvents(frames) && PositiveIds(frames) && NoStartAt(frames, kept.cursor) &&
            OneMessageWithin(From(frames, MessageOf(kept)), kept.cursor, MessageOf(kept))
  {
    InOrderPart(log, more);
    var kept, all := KeptOf(Wire(log)), log + more;
    ChainOfLog(all, frames, TailFrom(kept));
    var taken := From(frames, MessageOf(kept));
    FromIsWithin(frames, MessageOf(kept));
    FromInOrder(frames, MessageOf(kept));
    if kept.cursor > 0 {
      CursorIsARow(log);
      var end :| end in log && Ends(end) && end.id == kept.cursor;
      forall f <- frames | f.Event? && f.row.id == kept.cursor ensures Opens(f.row).None? {
        SameRow(all, f.row, end);
      }
      var opening := OpeningRow(log);
      forall f <- taken | f.Event? && f.row.id <= kept.cursor && Opens(f.row).Some?
        ensures Opens(f.row) == MessageOf(kept)
      {
        FromStartsThere(frames, MessageOf(kept));
        LaterEvents(taken);
        assert f == taken[0] || f in taken[1..];
        assert taken[0] in taken;
        OldRow(log, more, f.row, end);
        OldRow(log, more, taken[0].row, end);
        StartsItsOwn(log, opening, taken[0].row, f.row);
      }
    }
  }

  /** What a resume delivers of a chain: its rows from the client's own start on, each once and in order,
      one message a stream, the part the client holds as one write, and the record of one whole read. */
  predicate Whole(kept: Kept, frames: seq<Frame>, streams: seq<Outcome>) {
    var taken := From(frames, MessageOf(kept));
    && Written(streams) == Payloads(taken)
    && (forall s <- streams :: OneMessage(s.reader))
    && streams != []
    && streams[0].reader.writes == WritesOf(Flat(streams[0].reader.writes), HeldThrough(kept))
    && streams[|streams| - 1].reader.kept == RecordedAll(kept, taken)
  }

  /** Whether a message is still open once the client has recorded a chain's frames from its own start on. */
  function StillOpen(kept: Kept): seq<Frame> -> bool {
    frames => RecordedAll(kept, From(frames, MessageOf(kept))).open.Some?
  }

  /** Going back to a thread: what a client that has read `log` is brought by the chain of tails of the log
      grown since. From a host that serves each tail whole the chain comes to the end of the turn that closes what
      is open, past the cursor the client holds, and the streams are whole; from one that breaks off they are whole
      so long as the chain reaches that cursor. */
  method ReconnectToStream(kept: Kept, initial: seq<Frame>, host: nat -> Option<seq<Frame>>,
                           ghost bound: nat, ghost log: seq<Row>, ghost more: seq<Row>)
      returns (frames: seq<Frame>, streams: seq<Outcome>)
    requires IdsWithin(initial, bound) && forall cursor: nat :: host(cursor).Some? ==> IdsWithin(host(cursor).value, bound)
    requires InOrder(log + more)
    ensures kept == KeptOf(Wire(log)) && Honest(log + more, initial, TailFrom(kept), host) ==>
              Events(frames) <= Wire(After(log + more, TailFrom(kept)))
    ensures kept == KeptOf(Wire(log)) && WholeHost(log + more, initial, TailFrom(kept), host) ==>
              UpToClose(log + more, TailFrom(kept), frames, StillOpen(kept)) && ReachesCursor(kept, frames)
    ensures kept == KeptOf(Wire(log)) && WholeHost(log + more, initial, TailFrom(kept), host) && NeverReturns(log) ==>
              Whole(kept, frames, streams)
    ensures kept == KeptOf(Wire(log)) && Honest(log + more, initial, TailFrom(kept), host) && NeverReturns(log) &&
            ReachesCursor(kept, frames) ==>
              Whole(kept, frames, streams)
  {
    ghost var responses;
    frames, responses := TailChain(initial, TailFrom(kept), host, StillOpen(kept), bound, log + more);
    streams := ResumeThread(frames, MessageOf(kept), HeldThrough(kept), kept);
    if kept == KeptOf(Wire(log)) && WholeHost(log + more, initial, TailFrom(kept), host) {
      ChainIsWhole(log + more, initial, TailFrom(kept), host, StillOpen(kept), responses);
      WholeChainReaches(log, more, frames, kept);
      WholeIsHonest(log + more, initial, TailFrom(kept), host);
    }
    if kept == KeptOf(Wire(log)) && Honest(log + more, initial, TailFrom(kept), host) && NeverReturns(log) {
      ReconnectReadsTheLog(log, more, frames, kept);
    }
  }

  lemma WholeIsHonest(log: seq<Row>, initial: seq<Frame>, from: nat, host: nat -> Option<seq<Frame>>)
    requires WholeHost(log, initial, from, host)
    ensures Honest(log, initial, from, host)
  {
  }

  // A whole chain reaches the client's cursor.

  /** The row that opened the client's message: no turn ends between its tail and that row, and nothing after it in
      its log closes the message or starts another. */
  ghost predicate Opening(log: seq<Row>, open: OpenMessage, r: Row) {
    && r in log && r.valid && r.entry == Start(Some(open.messageId)) && r.id > open.after
    && (forall d <- log | Ends(d) && d.id < r.id :: d.id <= open.after)
    && (forall later <- log | later.id >= r.id :: !Interrupts(later, open.messageId))
  }

  lemma HasOpening(log: seq<Row>) returns (r: Row)
    requires InOrder(log) && KeptOf(Wire(log)).open.Some?
    ensures Opening(log, KeptOf(Wire(log)).open.value, r)
  {
    ClientAgreesWithServer(log);
    var open, kept := ScanOf(Valid(log)).open.value, KeptOf(Wire(log)).open.value;
    var i: nat :| OpensBoth(log, open, kept.after, i);
    r := log[i];
    forall d <- log | Ends(d) && d.id < r.id ensures d.id <= kept.after {
      var j: nat :| j < |log| && log[j] == d;
      assert j < i;
    }
    forall later <- log | later.id >= r.id ensures !Interrupts(later, kept.messageId) {
      var j: nat :| j < |log| && log[j] == later;
      assert j >= i;
    }
  }

  lemma {:induction false} RecordedConcat(kept: Kept, a: seq<Frame>, b: seq<Frame>)
    ensures RecordedAll(kept, a + b) == RecordedAll(RecordedAll(kept, a), b)
    decreases a
  {
    if a == [] {
      assert a + b == b;
    } else {
      assert (a + b)[1..] == a[1..] + b;
      RecordedConcat(if a[0].Event? then Recorded(kept, a[0].row) else kept, a[1..], b);
    }
  }

  lemma {:induction false} StaysOpen(kept: Kept, frames: seq<Frame>, messageId: string)
    requires kept.open.Some? && kept.open.value.messageId == messageId
    requires forall f <- frames | f.Event? :: f.row.valid && !Interrupts(f.row, messageId)
    ensures RecordedAll(kept, frames).open.Some?
    decreases frames
  {
    if frames != [] {
      assert frames[0] in frames;
      StaysOpen(if frames[0].Event? then Recorded(kept, frames[0].row) else kept, frames[1..], messageId);
    }
  }

  lemma {:induction false} FromHolds(frames: seq<Frame>, awaiting: Option<string>, r: Row)
    requires awaiting.Some? && Event(r) in frames && Opens(r) == awaiting
    ensures Event(r) in From(frames, awaiting)
  {
    if !(frames[0].Event? && Opens(frames[0].row) == awaiting) {
      FromHolds(frames[1..], awaiting, r);
    }
  }

  lemma OpenAfter(kept: Kept, a: seq<Frame>, r: Row, b: seq<Frame>, messageId: string)
    requires r.entry == Start(Some(messageId))
    requires forall f <- b | f.Event? :: f.row.valid && !Interrupts(f.row, messageId)
    ensures RecordedAll(kept, a + [Event(r)] + b).open.Some?
  {
    RecordedConcat(kept, a + [Event(r)], b);
    RecordedConcat(kept, a, [Event(r)]);
    assert RecordedAll(RecordedAll(kept, a), [Event(r)]) == Recorded(RecordedAll(kept, a), r) by { assert [Event(r)][1..] == []; }
    StaysOpen(RecordedAll(kept, a + [Event(r)]), b, messageId);
  }

  lemma SplitAt(frames: seq<Frame>, k: nat)
    requires k < |frames| && OrderedEvents(frames) && frames[k].Event?
    ensures frames == frames[..k] + [frames[k]] + frames[k + 1..]
    ensures forall f <- frames[k + 1..] :: f in frames && (f.Event? ==> f.row.id > frames[k].row.id)
  {
    forall f <- frames[k + 1..] ensures f in frames && (f.Event? ==> f.row.id > frames[k].row.id) {
      var n: nat :| n < |frames[k + 1..]| && frames[k + 1..][n] == f;
      assert frames[k + 1 + n] == f;
    }
  }

  /** Once the chain is past the row that opened the message, and among rows of the client's own log, the message
      is open. */
  lemma OpenAfterOpening(kept: Kept, frames: seq<Frame>, r: Row)
    requires kept.open.Some? && OrderedEvents(frames) && Event(r) in frames && r.entry == Start(Some(kept.open.value.messageId))
    requires forall f <- frames | f.Event? && f.row.id >= r.id :: f.row.valid && !Interrupts(f.row, kept.open.value.messageId)
    ensures StillOpen(kept)(frames)
  {
    var messageId := kept.open.value.messageId;
    var taken := From(frames, Some(messageId));
    FromHolds(frames, Some(messageId), r);
    FromIsWithin(frames, Some(messageId));
    FromInOrder(frames, Some(messageId));
    var k: nat :| k < |taken| && taken[k] == Event(r);
    SplitAt(taken, k);
    OpenAfter(kept, taken[..k], r, taken[k + 1..], messageId);
  }

  lemma {:induction false} EventIsAFrame(frames: seq<Frame>, r: Row)
    requires r in Events(frames)
    ensures Event(r) in frames
  {
    if !(frames[|frames| - 1].Event? && frames[|frames| - 1].row == r) {
      EventIsAFrame(frames[..|frames| - 1], r);
    }
  }

  lemma {:induction false} WireHas(log: seq<Row>, r: Row)
    requires r in log && Framed(r)
    ensures r in Wire(log)
  {
    if log[0] != r {
      WireHas(log[1..], r);
    }
  }

  lemma WireAfterHas(log: seq<Row>, cursor: nat, r: Row)
    requires InOrder(log) && r in log && Framed(r) && r.id > cursor
    ensures r in Wire(After(log, cursor))
  {
    var n := Count(log, cursor);
    var k: nat :| k < |log| && log[k] == r;
    assert log[n..][k - n] == r;
    WireHas(log[n..], r);
  }

  lemma PrefixHas(part: seq<Row>, whole: seq<Row>, r: Row)
    requires InOrder(whole) && part <= whole && part != [] && r in whole && r.id <= part[|part| - 1].id
    ensures r in part
  {
    var k: nat :| k < |whole| && whole[k] == r;
    assert part[|part| - 1] == whole[|part| - 1];
    assert k < |part|;
    assert part[k] == r;
  }

  /** A chain that ends at a turn's end short of the client's cursor has the message open there. */
  lemma OpenShortOfCursor(log: seq<Row>, more: seq<Row>, frames: seq<Frame>, kept: Kept)
    requires InOrder(log + more) && kept == KeptOf(Wire(log)) && kept.open.Some?
    requires Events(frames) <= Wire(After(log + more, kept.open.value.after))
    requires EndsOnDone(frames) && LastId(frames) < kept.cursor
    ensures StillOpen(kept)(frames)
  {
    InOrderPart(log, more);
    var all, after, d := log + more, kept.open.value.after, frames[|frames| - 1].row;
    ChainOfLog(all, frames, after);
    CursorIsARow(log);
    var end :| end in log && Ends(end) && end.id == kept.cursor;
    assert frames[|frames| - 1] in frames;
    OldRow(log, more, d, end);
    var r := HasOpening(log);
    assert r.id < d.id by { if r.id == d.id { SameRow(log, r, d); } }
    var rest := Wire(After(all, after));
    InOrderFrom(all, Count(all, after));
    WireInOrder(After(all, after));
    WireAfterHas(all, after, r);
    assert Events(frames)[|Events(frames)| - 1] == d;
    PrefixHas(Events(frames), rest, r);
    EventIsAFrame(frames, r);
    forall f <- frames | f.Event? && f.row.id >= r.id ensures f.row.valid && !Interrupts(f.row, kept.open.value.messageId) {
      LastIsLast(frames, f);
      OldRow(log, more, f.row, end);
    }
    OpenAfterOpening(kept, frames, r);
  }

  lemma LastIsLast(frames: seq<Frame>, f: Frame)
    requires OrderedEvents(frames) && EndsOnDone(frames) && f in frames && f.Event?
    ensures f.row.id <= LastId(frames)
  {
    var k: nat :| k < |frames| && frames[k] == f;
  }

  /** A chain of all the rows there are after the client's tail reaches the cursor. */
  lemma AllRowsReach(log: seq<Row>, more: seq<Row>, frames: seq<Frame>, kept: Kept)
    requires InOrder(log + more) && kept == KeptOf(Wire(log)) && kept.open.Some? && kept.cursor > 0
    requires Events(frames) == Wire(After(log + more, kept.open.value.after))
    ensures Reaches(frames, kept.cursor)
  {
    InOrderPart(log, more);
    CursorIsARow(log);
    var end :| end in log && Ends(end) && end.id == kept.cursor;
    var r := HasOpening(log);
    var reached := if end.id > kept.open.value.after then end else r;
    assert reached in log + more && Framed(reached);
    WireAfterHas(log + more, kept.open.value.after, reached);
    EventIsAFrame(frames, reached);
  }

  lemma WholeChainReaches(log: seq<Row>, more: seq<Row>, frames: seq<Frame>, kept: Kept)
    requires InOrder(log + more) && kept == KeptOf(Wire(log))
    requires UpToClose(log + more, TailFrom(kept), frames, StillOpen(kept))
    ensures ReachesCursor(kept, frames)
  {
    if HeldThrough(kept) > 0 {
      if Events(frames) == Wire(After(log + more, TailFrom(kept))) {
        AllRowsReach(log, more, frames, kept);
      } else if LastId(frames) < kept.cursor {
        OpenShortOfCursor(log, more, frames, kept);
      } else {
        assert frames[|frames| - 1] in frames;
      }
    }
  }

  function Reading(kept: Kept, frames: seq<Frame>): seq<Outcome> {
    Streams(frames, MessageOf(kept), HeldThrough(kept), kept)
  }

  /** The chain has no more of the client's message, or goes as far as the client's cursor. */
  predicate ReachesCursor(kept: Kept, frames: seq<Frame>) { HeldThrough(kept) > 0 ==> Reaches(frames, HeldThrough(kept)) }

  /** A client that has read `log` and goes back to it, grown: the streams bring what the chain carries,
      and, with something of its own message to bring, only if the chain reaches the client's cursor. */
  lemma ReconnectReadsTheLog(log: seq<Row>, more: seq<Row>, frames: seq<Frame>, kept: Kept)
    requires InOrder(log + more) && NeverReturns(log) && kept == KeptOf(Wire(log))
    requires Events(frames) <= Wire(After(log + more, TailFrom(kept)))
    ensures ReachesCursor(kept, frames) ==> Whole(kept, frames, Reading(kept, frames))
    ensures From(frames, MessageOf(kept)) != [] && !ReachesCursor(kept, frames) ==>
              Written(Reading(kept, frames)) != Payloads(From(frames, MessageOf(kept)))
  {
    if kept.open.Some? {
      ClientFits(log, more, frames);
      ReadingIsWhole(frames, kept);
    } else {
      ChainOfLog(log + more, frames, kept.cursor);
      ResumePartitionsTheTail(frames, None, 0, kept);
    }
  }

  lemma ReadingIsWhole(frames: seq<Frame>, kept: Kept)
    requires kept.open.Some? && OrderedEvents(frames) && PositiveIds(frames) && NoStartAt(frames, kept.cursor)
    requires OneMessageWithin(From(frames, MessageOf(kept)), kept.cursor, MessageOf(kept))
    ensures ReachesCursor(kept, frames) ==> Whole(kept, frames, Reading(kept, frames))
    ensures From(frames, MessageOf(kept)) != [] && !ReachesCursor(kept, frames) ==>
              Written(Reading(kept, frames)) != Payloads(From(frames, MessageOf(kept)))
  {
    if ReachesCursor(kept, frames) {
      ResumePartitionsTheTail(frames, MessageOf(kept), kept.cursor, kept);
    } else if From(frames, MessageOf(kept)) != [] {
      ResumeIsWholeExactly(frames, MessageOf(kept), kept.cursor, kept);
    }
  }

  // A message started again after another.

  function Interrupted(): seq<Row> {
    [Row(1, Start(Some("a")), true), Row(2, Start(Some("b")), true), Row(3, Start(Some("a")), true), Row(4, Done, true)]
  }

  function AsFrames(rows: seq<Row>): seq<Frame> {
    if rows == [] then [] else AsFrames(rows[..|rows| - 1]) + [Event(rows[|rows| - 1])]
  }

  lemma {:induction false} FramesOfRows(rows: seq<Row>)
    ensures |AsFrames(rows)| == |rows| && forall i | 0 <= i < |rows| :: AsFrames(rows)[i] == Event(rows[i])
    ensures Events(AsFrames(rows)) == rows
  {
    if rows != [] {
      var front := AsFrames(rows[..|rows| - 1]);
      FramesOfRows(rows[..|rows| - 1]);
      assert AsFrames(rows)[..|rows| - 1] == front;
    }
  }

  lemma {:induction false} AllFramed(log: seq<Row>)
    requires forall r <- log :: Framed(r)
    ensures Wire(log) == log
  {
    if log != [] {
      AllFramed(log[1..]);
    }
  }

  lemma OneByOne(a: Row, b: Row, c: Row, d: Row)
    ensures [] + [a] == [a] && [a] + [b] == [a, b] && [a, b] + [c] == [a, b, c] && [a, b, c] + [d] == [a, b, c, d]
  {
  }

  lemma KeptOfFour(a: Row, b: Row, c: Row, d: Row)
    ensures KeptOf([a, b, c, d]) == Recorded(Recorded(Recorded(Recorded(Kept(0, None), a), b), c), d)
  {
    OneByOne(a, b, c, d);
    assert KeptOf([a]) == Recorded(Kept(0, None), a) by { KeptSnoc([], a); }
    assert KeptOf([a, b]) == Recorded(KeptOf([a]), b) by { KeptSnoc([a], b); }
    assert KeptOf([a, b, c]) == Recorded(KeptOf([a, b]), c) by { KeptSnoc([a, b], c); }
    KeptSnoc([a, b, c], d);
  }

  lemma InterruptedKept()
    ensures KeptOf(Interrupted()) == Kept(4, Some(OpenMessage("a", 0)))
  {
    KeptOfFour(Row(1, Start(Some("a")), true), Row(2, Start(Some("b")), true), Row(3, Start(Some("a")), true), Row(4, Done, true));
  }

  lemma InterruptedRecord()
    ensures Wire(Interrupted()) == Interrupted() && KeptOf(Interrupted()) == Kept(4, Some(OpenMessage("a", 0)))
    ensures Count(Interrupted(), 0) == 0
  {
    AllFramed(Interrupted());
    InterruptedKept();
  }

  lemma FourFrames(a: Row, b: Row, c: Row, d: Row)
    ensures AsFrames([a, b, c, d]) == [Event(a), Event(b), Event(c), Event(d)]
  {
    FramesOfRows([a, b, c, d]);
  }

  lemma InterruptedFrames()
    ensures var frames := AsFrames(Interrupted());
            && OrderedEvents(frames) && PositiveIds(frames) && NoStartAt(frames, 4)
            && Reaches(frames, 4) && From(frames, Some("a")) == frames
            && !OneMessageWithin(frames, 4, Some("a"))
  {
    var b, d := Row(2, Start(Some("b")), true), Row(4, Done, true);
    FourFrames(Row(1, Start(Some("a")), true), b, Row(3, Start(Some("a")), true), d);
    assert Event(b) in AsFrames(Interrupted()) && Event(d) in AsFrames(Interrupted());
  }

  lemma NotWholeFrom(kept: Kept, frames: seq<Frame>)
    requires kept == Kept(4, Some(OpenMessage("a", 0)))
    requires OrderedEvents(frames) && PositiveIds(frames) && NoStartAt(frames, 4) && Reaches(frames, 4)
    requires From(frames, Some("a")) == frames && !OneMessageWithin(frames, 4, Some("a"))
    ensures ReachesCursor(kept, frames)
    ensures Written(Reading(kept, frames)) != Payloads(From(frames, MessageOf(kept)))
  {
    ResumeIsWholeExactly(frames, Some("a"), 4, kept);
  }

  lemma Returning(log: seq<Row>, a: Row, b: Row, c: Row)
    requires a in log && b in log && c in log && a.id < b.id < c.id
    requires StartOf(a).Some? && StartOf(a) == StartOf(c) && StartOf(b).Some? && StartOf(b) != StartOf(a)
    ensures !NeverReturns(log)
  {
  }

  lemma InterruptedInOrder()
    ensures InOrder(Interrupted())
  {
  }

  lemma InterruptedReturns()
    ensures InOrder(Interrupted()) && !NeverReturns(Interrupted())
  {
    InterruptedInOrder();
    Returning(Interrupted(), Row(1, Start(Some("a")), true), Row(2, Start(Some("b")), true), Row(3, Start(Some("a")), true));
  }

  /** The guard is needed: a message started again after another is not read back whole. */
  lemma AReturningMessageIsNotWhole()
    ensures InOrder(Interrupted()) && !NeverReturns(Interrupted())
    ensures var kept, frames := KeptOf(Wire(Interrupted())), AsFrames(Interrupted());
            && Events(frames) == Wire(After(Interrupted(), TailFrom(kept)))
            && ReachesCursor(kept, frames)
            && Written(Reading(kept, frames)) != Payloads(From(frames, MessageOf(kept)))
  {
    InterruptedReturns();
    InterruptedRecord();
    InterruptedFrames();
    FramesOfRows(Interrupted());
    NotWholeFrom(KeptOf(Wire(Interrupted())), AsFrames(Interrupted()));
  }
}
