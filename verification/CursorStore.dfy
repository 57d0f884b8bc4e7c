/** What a client keeps of a thread between reads: the last turn's end, and the message left open. */
module CursorStore {
  import opened Wrappers
  import opened ConversationLog

  /** One thread's record. */
  datatype Kept = Kept(cursor: nat, open: Option<OpenMessage>)

  /** The record once a frame has been taken. */
  function Recorded(kept: Kept, r: Row): Kept {
    match r.entry
    case Done => if r.id <= kept.cursor then kept else kept.(cursor := r.id)
    case Start(Some(messageId)) =>
      if kept.open.Some? && kept.open.value.messageId == messageId then kept
      else kept.(open := Some(OpenMessage(messageId, kept.cursor)))
    case Finish(reason) => if reason == Some(SUSPENDED) then kept else kept.(open := None)
    case _ => kept
  }

  function KeptOf(frames: seq<Row>): Kept {
    if frames == [] then Kept(0, None) else Recorded(KeptOf(frames[..|frames| - 1]), frames[|frames| - 1])
  }

  class MemoryCursorStore {
    var cursors: map<string, nat>
    var messages: map<string, OpenMessage>

    constructor ()
      ensures forall thread :: Read(thread) == Kept(0, None)
    {
      cursors, messages := map[], map[];
    }

    function Read(thread: string): Kept
      reads this
    {
      Kept(if thread in cursors then cursors[thread] else 0, if thread in messages then Some(messages[thread]) else None)
    }

    method WriteOpenMessage(thread: string, open: Option<OpenMessage>)
      modifies this`messages
      ensures Read(thread) == old(Read(thread)).(open := open)
      ensures forall other | other != thread :: Read(other) == old(Read(other))
    {
      messages := if open.None? then messages - {thread} else messages[thread := open.value];
    }

    method Advance(thread: string, cursor: nat)
      modifies this`cursors
      ensures Read(thread) == if cursor <= old(Read(thread)).cursor then old(Read(thread)) else old(Read(thread)).(cursor := cursor)
      ensures forall other | other != thread :: Read(other) == old(Read(other))
    {
      if cursor <= Read(thread).cursor {
        return;
      }
      cursors := cursors[thread := cursor];
    }

    method RecordFrameCursor(thread: string, r: Row)
      modifies this
      ensures Read(thread) == Recorded(old(Read(thread)), r)
      ensures forall other | other != thread :: Read(other) == old(Read(other))
    {
      match r.entry {
        case Done => Advance(thread, r.id);
        case Start(Some(messageId)) =>
          var open := Read(thread).open;
          if open.None? || open.value.messageId != messageId {
            WriteOpenMessage(thread, Some(OpenMessage(messageId, Read(thread).cursor)));
          }
        case Finish(reason) =>
          if reason != Some(SUSPENDED) {
            WriteOpenMessage(thread, None);
          }
        case _ =>
      }
    }
  }

  // The client and the server agree.

  lemma WireSnoc(log: seq<Row>)
    requires log != []
    ensures var front, last := log[..|log| - 1], log[|log| - 1];
            Wire(log) == if Framed(last) then Wire(front) + [last] else Wire(front)
  {
    var front, last := log[..|log| - 1], log[|log| - 1];
    assert log == front + [last];
    WireOfConcat(front, [last]);
    assert Wire([last]) == if Framed(last) then [last] else [];
  }

  lemma KeptSnoc(frames: seq<Row>, r: Row)
    ensures KeptOf(frames + [r]) == Recorded(KeptOf(frames), r)
  {
    assert (frames + [r])[..|frames|] == frames;
  }

  lemma ScanSnoc(entries: seq<Row>, r: Row)
    ensures ScanOf(entries + [r]) == Scanned(ScanOf(entries), r)
  {
    assert (entries + [r])[..|entries|] == entries;
  }

  predicate Ends(r: Row) { r.valid && r.entry.Done? }

  function LastEnd(log: seq<Row>): nat {
    if log == [] then 0 else if Ends(log[|log| - 1]) then log[|log| - 1].id else LastEnd(log[..|log| - 1])
  }

  /** No turn ends after `cursor` in the first `i` rows. */
  predicate NoEndAfter(log: seq<Row>, cursor: nat, i: nat)
    requires i <= |log|
  {
    forall j | 0 <= j < i && Ends(log[j]) :: log[j].id <= cursor
  }

  lemma {:induction false} LastEndMeans(log: seq<Row>)
    requires InOrder(log)
    ensures NoEndAfter(log, LastEnd(log), |log|)
    ensures LastEnd(log) <= ScanOf(Valid(log)).previous
  {
    if log != [] {
      var front, last := log[..|log| - 1], log[|log| - 1];
      LastEndMeans(front);
      assert forall j | 0 <= j < |front| :: front[j] == log[j];
      if last.valid {
        ScanSnoc(Valid(front), last);
        PreviousWithin(front);
        if ScanOf(Valid(front)).previous > 0 {
          assert ScanOf(Valid(front)).previous <= last.id by {
            var i :| 0 <= i < |front| && front[i].id == ScanOf(Valid(front)).previous;
            assert log[i].id < last.id;
          }
        }
      }
    }
  }

  lemma PreviousWithin(log: seq<Row>)
    requires InOrder(log)
    ensures ScanOf(Valid(log)).previous == 0 || exists i | 0 <= i < |log| :: log[i].id == ScanOf(Valid(log)).previous
  {
    PreviousMeans(log);
  }

  /** The record's cursor is the last turn's end. */
  lemma {:induction false} CursorIsLastEnd(log: seq<Row>)
    requires InOrder(log)
    ensures KeptOf(Wire(log)).cursor == LastEnd(log)
  {
    if log != [] {
      var front, last := log[..|log| - 1], log[|log| - 1];
      CursorIsLastEnd(front);
      WireSnoc(log);
      if Framed(last) {
        KeptSnoc(Wire(front), last);
        if Ends(last) {
          LastEndWithin(front);
          if LastEnd(front) > 0 {
            var i :| 0 <= i < |front| && front[i].id == LastEnd(front);
            assert log[i].id < last.id;
          }
        }
      }
    }
  }

  lemma {:induction false} LastEndWithin(log: seq<Row>)
    ensures LastEnd(log) == 0 || exists i | 0 <= i < |log| :: log[i].id == LastEnd(log)
  {
    if log != [] && !Ends(log[|log| - 1]) {
      var front := log[..|log| - 1];
      LastEndWithin(front);
      if LastEnd(front) > 0 {
        var i :| 0 <= i < |front| && front[i].id == LastEnd(front);
        assert log[i].id == LastEnd(log);
      }
    }
  }

  /** A frame that closes the message, or starts another. */
  predicate Interrupts(r: Row, messageId: string) {
    r.valid && (Closes(r.entry) || (r.entry.Start? && r.entry.messageId.Some? && r.entry.messageId.value != messageId))
  }

  /** Row `i` opened the message the server names; it comes after the server's cursor, no turn ends
      between the client's and that row, and nothing after it closes the message or starts another. */
  ghost predicate OpensBoth(log: seq<Row>, open: OpenMessage, after: nat, i: nat) {
    && OpenedBy(log, open, i) && NoEndAfter(log, after, i)
    && forall j | i <= j < |log| :: !Interrupts(log[j], open.messageId)
  }

  /** Both name the same message, and the client's cursor is no later than the server's. */
  ghost predicate SameOpen(log: seq<Row>, kept: Kept, scan: Scan) {
    if scan.open.None? then kept.open.None?
    else
      && kept.open.Some? && kept.open.value.messageId == scan.open.value.messageId
      && kept.open.value.after <= scan.open.value.after
      && exists i: nat :: OpensBoth(log, scan.open.value, kept.open.value.after, i)
  }

  lemma OpensStill(front: seq<Row>, last: Row, open: OpenMessage, after: nat)
    requires exists i: nat :: OpensBoth(front, open, after, i)
    requires !Interrupts(last, open.messageId)
    ensures exists i: nat :: OpensBoth(front + [last], open, after, i)
  {
    var i: nat :| OpensBoth(front, open, after, i);
    assert forall j | 0 <= j < |front| :: front[j] == (front + [last])[j];
    assert OpensBoth(front + [last], open, after, i);
  }

  lemma OpensNow(log: seq<Row>, messageId: string)
    requires InOrder(log) && log != []
    requires log[|log| - 1].valid && log[|log| - 1].entry == Start(Some(messageId))
    ensures var front := log[..|log| - 1];
            OpensBoth(log, OpenMessage(messageId, ScanOf(Valid(front)).previous), LastEnd(front), |log| - 1)
  {
    var front := log[..|log| - 1];
    assert forall j | 0 <= j < |front| :: front[j] == log[j];
    PreviousMeans(front);
    LastEndMeans(front);
    var previous := ScanOf(Valid(front)).previous;
    if previous > 0 {
      var i :| 0 <= i < |front| && front[i].id == previous;
      assert log[i].id < log[|log| - 1].id;
    }
  }

  lemma SameOpenNext(log: seq<Row>, kept: Kept, scan: Scan)
    requires InOrder(log) && log != []
    requires var front := log[..|log| - 1];
             SameOpen(front, kept, scan) && kept.cursor == LastEnd(front) && scan.previous == ScanOf(Valid(front)).previous
    ensures var last := log[|log| - 1];
            SameOpen(log, if Framed(last) then Recorded(kept, last) else kept, if last.valid then Scanned(scan, last) else scan)
  {
    var front, last := log[..|log| - 1], log[|log| - 1];
    assert log == front + [last];
    if scan.open.Some? && !Interrupts(last, scan.open.value.messageId) {
      OpensStill(front, last, scan.open.value, kept.open.value.after);
    }
    if last.valid && last.entry.Start? && last.entry.messageId.Some? {
      OpensNow(log, last.entry.messageId.value);
      LastEndMeans(front);
    }
  }

  /** Reading a log from an empty record, the client names the message the server names. */
  lemma {:induction false} ClientAgreesWithServer(log: seq<Row>)
    requires InOrder(log)
    ensures SameOpen(log, KeptOf(Wire(log)), ScanOf(Valid(log)))
  {
    if log != [] {
      var front, last := log[..|log| - 1], log[|log| - 1];
      ClientAgreesWithServer(front);
      CursorIsLastEnd(front);
      SameOpenNext(log, KeptOf(Wire(front)), ScanOf(Valid(front)));
      WireSnoc(log);
      if last.valid { ScanSnoc(Valid(front), last); }
      if Framed(last) { KeptSnoc(Wire(front), last); }
    }
  }

  /** So the tail the client asks for holds the start that opened its message. */
  lemma ClientTailMeetsItsStart(log: seq<Row>, more: seq<Row>)
    requires InOrder(log + more) && KeptOf(Wire(log)).open.Some?
    ensures var open := KeptOf(Wire(log)).open.value;
            exists r <- Tail(log + more, open.after) :: r.entry == Start(Some(open.messageId))
  {
    InOrderPart(log, more);
    ClientAgreesWithServer(log);
    var open, scan := KeptOf(Wire(log)).open.value, ScanOf(Valid(log)).open.value;
    var i: nat :| OpensBoth(log, scan, open.after, i);
    assert NoEndAfter(log + more, open.after, i) by {
      forall j | 0 <= j < i ensures (log + more)[j] == log[j] { }
    }
    assert (log + more)[i] == log[i];
    InTail(log + more, open.after, i);
  }

  lemma InTail(log: seq<Row>, cursor: nat, i: nat)
    requires InOrder(log) && i < |log| && Framed(log[i]) && log[i].id > cursor && NoEndAfter(log, cursor, i)
    ensures log[i] in Tail(log, cursor)
  {
    var k := Count(log, cursor);
    assert k <= i;
    var before := log[k..i];
    forall r <- before ensures !Ends(r) {
      var n :| 0 <= n < |before| && before[n] == r;
      assert log[k + n] == r && log[k].id > cursor;
    }
    assert After(log, cursor) == before + [log[i]] + log[i + 1..];
    ReachedBeforeDone(before, log[i], log[i + 1..]);
  }

  lemma {:induction false} ReachedBeforeDone(before: seq<Row>, r: Row, more: seq<Row>)
    requires Framed(r) && forall b <- before :: !Ends(b)
    ensures r in UpToDone(Wire(before + [r] + more))
  {
    var all := before + [r] + more;
    if before == [] {
      assert all[0] == r;
      assert UpToDone(Wire(all))[0] == r;
    } else {
      assert all[0] == before[0] && before[0] in before;
      assert all[1..] == before[1..] + [r] + more;
      ReachedBeforeDone(before[1..], r, more);
    }
  }
}
