/** Resuming a thread: the chain of tails, the payloads one read accepts, and the turns it holds over. */
module Resume {
  import opened Wrappers
  import opened ConversationLog
  import opened CursorStore

  datatype Frame = Keepalive | Event(row: Row)

  function Events(frames: seq<Frame>): seq<Row> {
    if frames == [] then []
    else if frames[|frames| - 1].Event? then Events(frames[..|frames| - 1]) + [frames[|frames| - 1].row]
    else Events(frames[..|frames| - 1])
  }

  // The chain of tails.

  predicate IdsWithin(frames: seq<Frame>, bound: nat) { forall f <- frames :: f.Event? ==> f.row.id <= bound }

  /** A response a host that keeps to the log may serve: the tail after the cursor, cut anywhere. */
  predicate Serves(frames: seq<Frame>, log: seq<Row>, cursor: nat) { Events(frames) <= Tail(log, cursor) }

  ghost predicate Honest(log: seq<Row>, initial: seq<Frame>, from: nat, host: nat -> Option<seq<Frame>>) {
    && Serves(initial, log, from)
    && forall cursor: nat :: host(cursor).Some? ==> Serves(host(cursor).value, log, cursor)
  }

  function Concat(responses: seq<seq<Frame>>): seq<Frame> {
    if responses == [] then [] else Concat(responses[..|responses| - 1]) + responses[|responses| - 1]
  }

  /** What response `k` was asked for: the first from the client's cursor, each next from the last row before it. */
  function Requested(responses: seq<seq<Frame>>, from: nat, k: nat): nat
    requires k < |responses| && forall n | 0 <= n < k :: EndsOnDone(responses[n])
  {
    if k == 0 then from else LastId(responses[k - 1])
  }

  function LastId(response: seq<Frame>): nat
    requires EndsOnDone(response)
  {
    response[|response| - 1].row.id
  }

  /** After response `k` the chain asks on: it ended a turn, past what it was asked for, and a message is open. */
  predicate AsksOn(responses: seq<seq<Frame>>, from: nat, goesOn: seq<Frame> -> bool, k: nat)
    requires k < |responses| && forall n | 0 <= n < k :: EndsOnDone(responses[n])
  {
    EndsOnDone(responses[k]) && goesOn(Concat(responses[..k + 1])) && LastId(responses[k]) > Requested(responses, from, k)
  }

  /** The responses of a chain so far: each but the first was asked for after the one before it. */
  ghost predicate Follows(responses: seq<seq<Frame>>, initial: seq<Frame>, from: nat, host: nat -> Option<seq<Frame>>,
                          goesOn: seq<Frame> -> bool) {
    && responses != [] && responses[0] == initial
    && (forall n | 0 <= n < |responses| - 1 :: EndsOnDone(responses[n]))
    && forall k | 0 <= k < |responses| - 1 ::
         AsksOn(responses, from, goesOn, k) && host(LastId(responses[k])) == Some(responses[k + 1])
  }

  /** A chain that has ended: it does not ask on, or nothing answers it. */
  ghost predicate IsChain(responses: seq<seq<Frame>>, initial: seq<Frame>, from: nat, host: nat -> Option<seq<Frame>>,
                          goesOn: seq<Frame> -> bool) {
    && Follows(responses, initial, from, host, goesOn)
    && (AsksOn(responses, from, goesOn, |responses| - 1) ==> host(LastId(responses[|responses| - 1])) == None)
  }

  lemma FollowsOn(responses: seq<seq<Frame>>, initial: seq<Frame>, from: nat, host: nat -> Option<seq<Frame>>,
                  goesOn: seq<Frame> -> bool, next: seq<Frame>)
    requires Follows(responses, initial, from, host, goesOn) && AsksOn(responses, from, goesOn, |responses| - 1)
    requires host(LastId(responses[|responses| - 1])) == Some(next)
    ensures Follows(responses + [next], initial, from, host, goesOn)
    ensures Requested(responses + [next], from, |responses|) == LastId(responses[|responses| - 1])
    ensures Concat(responses + [next]) == Concat(responses) + next
  {
    var more := responses + [next];
    assert more[..|responses|] == responses;
    forall k | 0 <= k < |responses|
      ensures AsksOn(more, from, goesOn, k) && host(LastId(more[k])) == Some(more[k + 1])
    {
      assert more[..k + 1] == responses[..k + 1];
      assert AsksOn(responses, from, goesOn, k);
    }
  }

  /** Follow the tails while a message is open. The chain stops where a response ends no turn or does not carry
      the thread past its request, where no message is open, and where nothing answers. It ends whatever the host
      serves, so long as the log is finite; and from a host that keeps to the log it yields the frames after `from`
      with no gap and no repeat. */
  method TailChain(initial: seq<Frame>, from: nat, host: nat -> Option<seq<Frame>>, goesOn: seq<Frame> -> bool,
                   ghost bound: nat, ghost log: seq<Row>) returns (yielded: seq<Frame>, ghost responses: seq<seq<Frame>>)
    requires IdsWithin(initial, bound) && forall cursor: nat :: host(cursor).Some? ==> IdsWithin(host(cursor).value, bound)
    requires InOrder(log)
    ensures yielded == Concat(responses) && IsChain(responses, initial, from, host, goesOn)
    ensures Honest(log, initial, from, host) ==> Events(yielded) <= Wire(After(log, from))
  {
    yielded, responses := [], [initial];
    var response, requested := initial, from;
    assert Concat([initial]) == [] + initial by { assert [initial][..0] == []; }
    while true
      invariant IdsWithin(response, bound)
      invariant Follows(responses, initial, from, host, goesOn) && Concat(responses) == yielded + response
      invariant response == responses[|responses| - 1] && requested == Requested(responses, from, |responses| - 1)
      invariant Honest(log, initial, from, host) ==> Leads(log, from, yielded, requested) && Serves(response, log, requested)
      decreases if bound >= requested then bound - requested + 1 else 0
    {
      var endedOnDone, cursor := EndOf(response);
      if Honest(log, initial, from, host) {
        ResponseYielded(log, from, yielded, requested, response);
      }
      yielded := yielded + response;
      assert responses[..|responses|] == responses;
      if !endedOnDone || !goesOn(yielded) || cursor <= requested {
        return;
      }
      var body := host(cursor);
      if body.None? {
        return;
      }
      assert response[|response| - 1] in response;
      FollowsOn(responses, initial, from, host, goesOn, body.value);
      responses := responses + [body.value];
      requested, response := cursor, body.value;
    }
  }

  /** What was yielded leads up to what is requested next. */
  predicate Leads(log: seq<Row>, from: nat, yielded: seq<Frame>, requested: nat) {
    Events(yielded) + Wire(After(log, requested)) == Wire(After(log, from))
  }

  predicate EndsOnDone(response: seq<Frame>) {
    response != [] && response[|response| - 1].Event? && response[|response| - 1].row.entry.Done?
  }

  method EndOf(response: seq<Frame>) returns (endedOnDone: bool, cursor: nat)
    ensures endedOnDone == EndsOnDone(response)
    ensures endedOnDone ==> cursor == response[|response| - 1].row.id
  {
    endedOnDone, cursor := false, 0;
    for i := 0 to |response|
      invariant endedOnDone == EndsOnDone(response[..i])
      invariant endedOnDone ==> cursor == response[i - 1].row.id
    {
      if response[i].Event? {
        cursor := response[i].row.id;
      }
      endedOnDone := response[i].Event? && response[i].row.entry.Done?;
    }
    assert response[..|response|] == response;
  }

  lemma ResponseYielded(log: seq<Row>, from: nat, yielded: seq<Frame>, requested: nat, response: seq<Frame>)
    requires InOrder(log) && Leads(log, from, yielded, requested) && Serves(response, log, requested)
    ensures Events(yielded + response) <= Wire(After(log, from))
    ensures EndsOnDone(response) ==> Leads(log, from, yielded + response, response[|response| - 1].row.id)
  {
    var whole, rest := Wire(After(log, from)), Wire(After(log, requested));
    assert Events(yielded + response) == Events(yielded) + Events(response) by { EventsOfConcat(yielded, response); }
    assert Events(response) <= rest by { PrefixOfWire(log, requested, response); }
    PrefixJoins(Events(yielded), Events(response), rest, whole);
    if EndsOnDone(response) {
      WholeTail(log, requested, response);
      Regrouped(Events(yielded), Events(response), Wire(After(log, response[|response| - 1].row.id)));
    }
  }

  lemma PrefixJoins(a: seq<Row>, b: seq<Row>, rest: seq<Row>, whole: seq<Row>)
    requires b <= rest && a + rest == whole
    ensures a + b <= whole
  {
    assert whole[..|a + b|] == a + rest[..|b|];
  }

  lemma Regrouped(a: seq<Row>, b: seq<Row>, c: seq<Row>)
    ensures (a + b) + c == a + (b + c)
  {
  }

  lemma {:induction false} EventsOfConcat(a: seq<Frame>, b: seq<Frame>)
    ensures Events(a + b) == Events(a) + Events(b)
  {
    if b == [] {
      assert a + b == a;
    } else {
      assert (a + b)[..|a + b| - 1] == a + b[..|b| - 1];
      EventsOfConcat(a, b[..|b| - 1]);
    }
  }

  lemma PrefixOfWire(log: seq<Row>, cursor: nat, response: seq<Frame>)
    requires Serves(response, log, cursor)
    ensures Events(response) <= Wire(After(log, cursor))
  {
    TailSplits(Wire(After(log, cursor)));
  }

  /** A response that ends a turn is the whole tail. */
  lemma WholeTail(log: seq<Row>, cursor: nat, response: seq<Frame>)
    requires InOrder(log) && Serves(response, log, cursor)
    requires EndsOnDone(response)
    ensures var last := response[|response| - 1].row.id;
            Events(response) + Wire(After(log, last)) == Wire(After(log, cursor))
  {
    var rows, tail, last := Events(response), Tail(log, cursor), response[|response| - 1].row;
    assert rows[|rows| - 1] == last by { assert rows == Events(response[..|response| - 1]) + [last]; }
    assert |rows| == |tail| by {
      assert rows[|rows| - 1] == tail[|rows| - 1];
      DoneIsLast(Wire(After(log, cursor)), |rows| - 1);
    }
    assert rows == tail;
    TailLeads(log, cursor);
  }

  lemma {:induction false} DoneIsLast(frames: seq<Row>, i: nat)
    requires i < |UpToDone(frames)| && UpToDone(frames)[i].entry.Done?
    ensures i == |UpToDone(frames)| - 1
  {
    if !frames[0].entry.Done? {
      DoneIsLast(frames[1..], i - 1);
    }
  }

  // The payloads one read accepts.

  /** The rows a read hands on: chunks this client knows, and no turn's end. */
  predicate Payload(r: Row) { !r.entry.Done? && !Envelope(r.entry) && !r.entry.Unrecognised? }

  function Opens(r: Row): Option<string> { if r.entry.Start? then r.entry.messageId else None }

  /** One read under way: what it waits for, the message it carries, and what it has written. `replayed`
      buffers the prefix the client already holds. */
  datatype Reader = Reader(
    awaiting: Option<string>, current: Option<string>, replayed: Option<seq<Row>>, reached: nat, writes: seq<seq<Row>>, kept: Kept)

  function Begun(messageId: Option<string>, through: nat, kept: Kept): Reader {
    Reader(messageId, messageId, if through > 0 then Some([]) else None, 0, [], kept)
  }

  function Flushed(r: Reader): Reader {
    if r.replayed.None? then r
    else r.(replayed := None, writes := if r.replayed.value == [] then r.writes else r.writes + [r.replayed.value])
  }

  /** A frame's cursor met: past what the client holds, the buffer goes out. */
  function Met(r: Reader, row: Row, through: nat): Reader {
    if row.id > through then Flushed(r) else r.(reached := row.id)
  }

  predicate Skips(r: Reader, row: Row) { r.awaiting.Some? && Opens(row) != r.awaiting }

  function Recording(r: Reader, row: Row): Reader { r.(awaiting := None, kept := Recorded(r.kept, row)) }

  predicate Crosses(r: Reader, row: Row) { Opens(row).Some? && r.current.Some? && Opens(row) != r.current }

  function Taken(r: Reader, row: Row): Reader {
    if !Payload(row) then r
    else
      var named := if Opens(row).Some? then r.(current := Opens(row)) else r;
      if r.replayed.Some? then named.(replayed := Some(r.replayed.value + [row])) else named.(writes := r.writes + [[row]])
  }

  /** A prefix that ends before the cursor the client holds is dropped. */
  function Closed(r: Reader, through: nat): Reader { if r.reached >= through then Flushed(r) else r }

  /** How a read ends: with the frames, or at the start of another message, which it holds with the rest. */
  datatype Outcome = Outcome(reader: Reader, held: Option<string>, rest: seq<Frame>)

  function Read(r: Reader, frames: seq<Frame>, through: nat, mayHold: bool): Outcome
    decreases frames
  {
    if frames == [] then Outcome(Closed(r, through), None, [])
    else if frames[0].Keepalive? then Read(r, frames[1..], through, mayHold)
    else
      var row := frames[0].row;
      var met := Met(r, row, through);
      if Skips(met, row) then Read(met, frames[1..], through, mayHold)
      else
        var recorded := Recording(met, row);
        if Payload(row) && mayHold && Crosses(recorded, row)
        then Outcome(Closed(recorded, through), Opens(row), frames)
        else Read(Taken(recorded, row), frames[1..], through, mayHold)
  }

  method AcceptedPayloads(frames: seq<Frame>, messageId: Option<string>, through: nat, mayHold: bool, kept: Kept)
      returns (outcome: Outcome)
    ensures outcome == Read(Begun(messageId, through, kept), frames, through, mayHold)
  {
    var awaiting, current := messageId, messageId;
    var replayed: Option<seq<Row>> := if through > 0 then Some([]) else None;
    var reached, writes, record: Kept := 0, [], kept;
    for i := 0 to |frames|
      invariant Read(Begun(messageId, through, kept), frames, through, mayHold) ==
                Read(Reader(awaiting, current, replayed, reached, writes, record), frames[i..], through, mayHold)
    {
      assert frames[i..][1..] == frames[i + 1..];
      if frames[i].Keepalive? {
        continue;
      }
      var row := frames[i].row;
      if row.id > through {
        if replayed.Some? {
          if replayed.value != [] {
            writes := writes + [replayed.value];
          }
          replayed := None;
        }
      } else {
        reached := row.id;
      }
      var opens := Opens(row);
      if awaiting.Some? {
        if opens != awaiting {
          continue;
        }
        awaiting := None;
      }
      record := Recorded(record, row);
      if row.entry.Done? || Envelope(row.entry) || row.entry.Unrecognised? {
        continue;
      }
      if mayHold && opens.Some? && current.Some? && opens != current {
        return Outcome(Closed(Reader(awaiting, current, replayed, reached, writes, record), through), opens, frames[i..]);
      }
      if opens.Some? {
        current := opens;
      }
      if replayed.Some? {
        replayed := Some(replayed.value + [row]);
      } else {
        writes := writes + [[row]];
      }
    }
    outcome := Outcome(Closed(Reader(awaiting, current, replayed, reached, writes, record), through), None, []);
  }

  // What a read delivers.

  /** The payloads of the frames, in order. */
  function Payloads(frames: seq<Frame>): seq<Row> {
    if frames == [] then []
    else if frames[0].Event? && Payload(frames[0].row) then [frames[0].row] + Payloads(frames[1..])
    else Payloads(frames[1..])
  }

  /** The frames from the awaited start on. */
  function From(frames: seq<Frame>, awaiting: Option<string>): seq<Frame> {
    if awaiting.None? || frames == [] then frames
    else if frames[0].Event? && Opens(frames[0].row) == awaiting then frames
    else From(frames[1..], awaiting)
  }

  function Flat(writes: seq<seq<Row>>): seq<Row> {
    if writes == [] then [] else Flat(writes[..|writes| - 1]) + writes[|writes| - 1]
  }

  /** Everything taken so far, written or still buffered. */
  function Total(r: Reader): seq<Row> { Flat(r.writes) + if r.replayed.Some? then r.replayed.value else [] }

  lemma FlatSnoc(writes: seq<seq<Row>>, write: seq<Row>)
    ensures Flat(writes + [write]) == Flat(writes) + write
  {
    assert (writes + [write])[..|writes|] == writes;
  }

  lemma FlushKeepsTotal(r: Reader)
    ensures Total(Flushed(r)) == Total(r)
  {
    if r.replayed.Some? {
      FlatSnoc(r.writes, r.replayed.value);
    }
  }

  lemma TakenAdds(r: Reader, row: Row)
    ensures Total(Taken(r, row)) == Total(r) + (if Payload(row) then [row] else [])
  {
    if r.replayed.None? {
      FlatSnoc(r.writes, [row]);
    }
  }

  /** What a frame leaves to be taken of those after it. */
  lemma FromNext(frames: seq<Frame>, awaiting: Option<string>)
    requires frames != []
    ensures frames[0].Keepalive? ==> Payloads(From(frames, awaiting)) == Payloads(From(frames[1..], awaiting))
    ensures frames[0].Event? && awaiting.Some? && Opens(frames[0].row) != awaiting ==>
              Payloads(From(frames, awaiting)) == Payloads(From(frames[1..], awaiting))
    ensures frames[0].Event? && (awaiting.None? || Opens(frames[0].row) == awaiting) ==>
              From(frames, awaiting) == frames &&
              Payloads(frames) == (if Payload(frames[0].row) then [frames[0].row] else []) + Payloads(frames[1..])
  {
  }

  /** What was taken is what the frames carry from the awaited start up to the held one. */
  lemma {:induction false} ReadTakesPayloads(r: Reader, frames: seq<Frame>, through: nat, mayHold: bool)
    ensures var outcome := Read(r, frames, through, mayHold);
            Total(outcome.reader) + Payloads(outcome.rest) == Total(r) + Payloads(From(frames, r.awaiting)) &&
            (outcome.held.None? ==> outcome.rest == [])
    decreases frames, 1
  {
    if frames == [] {
      FlushKeepsTotal(r);
    } else {
      FromNext(frames, r.awaiting);
      match frames[0]
      case Keepalive => ReadTakesPayloads(r, frames[1..], through, mayHold);
      case Event(row) =>
        var met := Met(r, row, through);
        FlushKeepsTotal(r);
        if Skips(met, row) {
          ReadTakesPayloads(met, frames[1..], through, mayHold);
        } else {
          TakesFrame(r, Recording(met, row), row, frames, through, mayHold);
        }
    }
  }

  lemma {:induction false} TakesFrame(r: Reader, recorded: Reader, row: Row, frames: seq<Frame>, through: nat, mayHold: bool)
    requires frames != [] && frames[0] == Event(row) && recorded.awaiting == None && Total(recorded) == Total(r)
    ensures var outcome := if Payload(row) && mayHold && Crosses(recorded, row)
                           then Outcome(Closed(recorded, through), Opens(row), frames)
                           else Read(Taken(recorded, row), frames[1..], through, mayHold);
            Total(outcome.reader) + Payloads(outcome.rest) == Total(r) + Payloads(frames) &&
            (outcome.held.None? ==> outcome.rest == [])
    decreases frames, 0
  {
    if Payload(row) && mayHold && Crosses(recorded, row) {
      FlushKeepsTotal(recorded);
    } else {
      var taken, rest, one := Taken(recorded, row), Payloads(frames[1..]), if Payload(row) then [row] else [];
      assert Total(taken) == Total(r) + one by { TakenAdds(recorded, row); }
      ReadTakesPayloads(taken, frames[1..], through, mayHold);
      assert taken.awaiting == None;
      FromNext(frames, None);
      Regrouped(Total(r), one, rest);
    }
  }

  /** Up to the client's cursor the frames start no message but its own. */
  predicate OneMessageWithin(frames: seq<Frame>, through: nat, messageId: Option<string>) {
    forall f <- frames | f.Event? && f.row.id <= through && Opens(f.row).Some? :: Opens(f.row) == messageId
  }

  predicate OrderedEvents(frames: seq<Frame>) {
    forall i, j | 0 <= i < j < |frames| && frames[i].Event? && frames[j].Event? :: frames[i].row.id < frames[j].row.id
  }

  /** The read has met the client's cursor: its buffer is out, or may go out. */
  predicate Past(r: Reader, through: nat) { r.replayed.None? || r.reached >= through }

  predicate Reaches(frames: seq<Frame>, through: nat) { exists f <- frames :: f.Event? && f.row.id >= through }

  predicate AllPast(frames: seq<Frame>, through: nat) { forall f <- frames :: f.Event? ==> f.row.id > through }

  /** The frames still to come lead to the client's cursor, with no other message's start before it. */
  predicate LeadsPast(r: Reader, frames: seq<Frame>, through: nat) {
    && OneMessageWithin(From(frames, r.awaiting), through, r.current)
    && (Past(r, through) || Reaches(frames, through))
    && (r.reached >= through ==> AllPast(frames, through))
  }

  lemma LaterEvents(frames: seq<Frame>)
    requires OrderedEvents(frames) && frames != [] && frames[0].Event?
    ensures forall f <- frames[1..] :: f.Event? ==> f.row.id > frames[0].row.id
  {
    forall f <- frames[1..] | f.Event? ensures f.row.id > frames[0].row.id {
      var k :| 0 <= k < |frames[1..]| && frames[1..][k] == f;
      assert frames[k + 1] == f;
    }
  }

  /** A row passed over on the way: what is left to come still leads there. */
  lemma SkippedLeadsPast(r: Reader, frames: seq<Frame>, through: nat)
    requires OrderedEvents(frames) && frames != [] && frames[0].Event? && LeadsPast(r, frames, through)
    requires Skips(r, frames[0].row)
    ensures LeadsPast(Met(r, frames[0].row, through), frames[1..], through)
  {
    LaterEvents(frames);
    assert forall f <- frames :: f == frames[0] || f in frames[1..];
  }

  /** And one taken, unless it starts another message past the cursor. */
  lemma TakenLeadsPast(r: Reader, frames: seq<Frame>, through: nat)
    requires OrderedEvents(frames) && frames != [] && frames[0].Event? && LeadsPast(r, frames, through)
    requires !Skips(r, frames[0].row)
    ensures var row := frames[0].row;
            var recorded := Recording(Met(r, row, through), row);
            (row.id > through || !Crosses(recorded, row) ==> LeadsPast(Taken(recorded, row), frames[1..], through)) &&
            (row.id <= through && r.current.Some? ==> !Crosses(recorded, row))
  {
    LaterEvents(frames);
    assert From(frames, r.awaiting) == frames && frames[0] in frames;
    assert forall f <- frames :: f == frames[0] || f in frames[1..];
  }

  lemma {:induction false} ReadGetsPast(r: Reader, frames: seq<Frame>, through: nat, mayHold: bool)
    requires OrderedEvents(frames) && LeadsPast(r, frames, through)
    requires mayHold ==> r.current.Some? || r.replayed.None?
    ensures Read(r, frames, through, mayHold).reader.replayed.None?
    decreases frames
  {
    if frames != [] && frames[0].Keepalive? {
      assert forall f <- frames :: f == frames[0] || f in frames[1..];
      ReadGetsPast(r, frames[1..], through, mayHold);
    } else if frames != [] {
      var row := frames[0].row;
      var met := Met(r, row, through);
      if Skips(met, row) {
        SkippedLeadsPast(r, frames, through);
        ReadGetsPast(met, frames[1..], through, mayHold);
      } else {
        TakenLeadsPast(r, frames, through);
        var recorded := Recording(met, row);
        if !(Payload(row) && mayHold && Crosses(recorded, row)) {
          ReadGetsPast(Taken(recorded, row), frames[1..], through, mayHold);
        }
      }
    }
  }

  /** A read that starts on its own message, or on any, stops at another's start, never at its first frame. */
  lemma {:induction false} HeldIsLater(r: Reader, frames: seq<Frame>, through: nat, mayHold: bool)
    ensures var outcome := Read(r, frames, through, mayHold);
            |outcome.rest| <= |frames| && (forall f <- outcome.rest :: f in frames) &&
            (outcome.held.Some? ==>
               mayHold && outcome.rest != [] && outcome.rest[0].Event? && Opens(outcome.rest[0].row) == outcome.held &&
               (r.current.None? || r.awaiting == r.current ==> |outcome.rest| < |frames|))
    ensures OrderedEvents(frames) ==> OrderedEvents(Read(r, frames, through, mayHold).rest)
    decreases frames
  {
    if frames != [] {
      var rest := frames[1..];
      match frames[0]
      case Keepalive => HeldIsLater(r, rest, through, mayHold);
      case Event(row) =>
        if Skips(Met(r, row, through), row) {
          HeldIsLater(Met(r, row, through), rest, through, mayHold);
        } else {
          var recorded := Recording(Met(r, row, through), row);
          if !(Payload(row) && mayHold && Crosses(recorded, row)) {
            HeldIsLater(Taken(recorded, row), rest, through, mayHold);
          }
        }
    }
  }

  // One message per stream.

  /** Every start taken names the stream's message. */
  predicate OneMessage(r: Reader) {
    forall row <- Total(r) :: Opens(row).Some? ==> Opens(row) == r.current
  }

  lemma {:induction false} StreamsCarryOneMessage(r: Reader, frames: seq<Frame>, through: nat)
    requires OneMessage(r)
    ensures OneMessage(Read(r, frames, through, true).reader)
    decreases frames
  {
    if frames == [] {
      FlushKeepsTotal(r);
    } else if frames[0].Keepalive? {
      StreamsCarryOneMessage(r, frames[1..], through);
    } else {
      var row := frames[0].row;
      var met := Met(r, row, through);
      FlushKeepsTotal(r);
      if Skips(met, row) {
        StreamsCarryOneMessage(met, frames[1..], through);
      } else {
        var recorded := Recording(met, row);
        if Payload(row) && Crosses(recorded, row) {
          FlushKeepsTotal(recorded);
        } else {
          TakenAdds(recorded, row);
          StreamsCarryOneMessage(Taken(recorded, row), frames[1..], through);
        }
      }
    }
  }

  // The prefix goes out as one write.

  /** The rows up to the client's cursor as one write, and each later one as its own. */
  function WritesOf(rows: seq<Row>, through: nat): seq<seq<Row>> {
    if rows == [] then []
    else
      var front, row := rows[..|rows| - 1], rows[|rows| - 1];
      if row.id > through then WritesOf(front, through) + [[row]] else [rows]
  }

  predicate Within(rows: seq<Row>, through: nat) { forall row <- rows :: row.id <= through }

  /** Nothing is written while the prefix is buffered; then it went out whole, and every row after it alone. */
  predicate WritesPrefixOnce(r: Reader, through: nat) {
    if r.replayed.Some? then r.writes == [] && Within(r.replayed.value, through)
    else r.writes == WritesOf(Total(r), through)
  }

  lemma WritesOfPrefix(rows: seq<Row>, through: nat)
    requires Within(rows, through)
    ensures WritesOf(rows, through) == if rows == [] then [] else [rows]
  {
    if rows != [] { assert rows[|rows| - 1] in rows; }
  }

  lemma FlushWritesOnce(r: Reader, through: nat)
    requires WritesPrefixOnce(r, through)
    ensures WritesPrefixOnce(Flushed(r), through)
  {
    if r.replayed.Some? {
      var held := r.replayed.value;
      FlushKeepsTotal(r);
      assert Total(r) == held;
      WritesOfPrefix(held, through);
    }
  }

  lemma TakenWritesOnce(r: Reader, row: Row, through: nat)
    requires WritesPrefixOnce(r, through) && (r.replayed.None? <==> row.id > through)
    ensures WritesPrefixOnce(Taken(r, row), through)
  {
    if Payload(row) && r.replayed.None? {
      var rows := Total(r);
      TakenAdds(r, row);
      assert (rows + [row])[..|rows|] == rows;
    }
  }

  lemma {:induction false} PrefixIsOneWrite(r: Reader, frames: seq<Frame>, through: nat, mayHold: bool)
    requires OrderedEvents(frames) && WritesPrefixOnce(r, through)
    requires r.replayed.None? ==> forall f <- frames :: f.Event? ==> f.row.id > through
    ensures WritesPrefixOnce(Read(r, frames, through, mayHold).reader, through)
    decreases frames
  {
    if frames == [] {
      FlushWritesOnce(r, through);
    } else {
      var rest := frames[1..];
      assert frames[0] in frames;
      if frames[0].Keepalive? {
        PrefixIsOneWrite(r, rest, through, mayHold);
      } else {
        var row := frames[0].row;
        var met := Met(r, row, through);
        FlushWritesOnce(r, through);
        LaterEvents(frames);
        if Skips(met, row) {
          PrefixIsOneWrite(met, rest, through, mayHold);
        } else {
          var recorded := Recording(met, row);
          assert WritesPrefixOnce(recorded, through);
          if Payload(row) && mayHold && Crosses(recorded, row) {
            FlushWritesOnce(recorded, through);
          } else {
            TakenWritesOnce(recorded, row, through);
            PrefixIsOneWrite(Taken(recorded, row), rest, through, mayHold);
          }
        }
      }
    }
  }

  // What the record keeps.

  function RecordedAll(kept: Kept, frames: seq<Frame>): Kept
    decreases frames
  {
    if frames == [] then kept
    else RecordedAll(if frames[0].Event? then Recorded(kept, frames[0].row) else kept, frames[1..])
  }

  /** Every frame from the awaited start on is recorded; a held start is recorded by both reads, to the
      same effect. */
  lemma {:induction false} ReadRecords(r: Reader, frames: seq<Frame>, through: nat, mayHold: bool)
    ensures var outcome := Read(r, frames, through, mayHold);
            RecordedAll(outcome.reader.kept, outcome.rest) == RecordedAll(r.kept, From(frames, r.awaiting))
    decreases frames
  {
    if frames != [] {
      match frames[0]
      case Keepalive => ReadRecords(r, frames[1..], through, mayHold);
      case Event(row) =>
        if Skips(Met(r, row, through), row) {
          ReadRecords(Met(r, row, through), frames[1..], through, mayHold);
        } else {
          var recorded := Recording(Met(r, row, through), row);
          assert From(frames, r.awaiting) == frames;
          if Payload(row) && mayHold && Crosses(recorded, row) {
            assert Recorded(recorded.kept, row) == recorded.kept;
          } else {
            ReadRecords(Taken(recorded, row), frames[1..], through, mayHold);
          }
        }
    }
  }

  // Stream after stream.

  /** The reads a resume makes of one chain: the first for the message left open, each next for the turn
      the last one held. */
  function Streams(frames: seq<Frame>, messageId: Option<string>, through: nat, kept: Kept): seq<Outcome>
    decreases |frames|
  {
    var first := Read(Begun(messageId, through, kept), frames, through, true);
    if first.held.None? then [first]
    else
      HeldIsLater(Begun(messageId, through, kept), frames, through, true);
      [first] + Streams(first.rest, first.held, 0, first.reader.kept)
  }

  method ResumeThread(frames: seq<Frame>, messageId: Option<string>, through: nat, kept: Kept) returns (streams: seq<Outcome>)
    ensures streams == Streams(frames, messageId, through, kept)
  {
    var first := AcceptedPayloads(frames, messageId, through, true, kept);
    streams := [first];
    while streams[|streams| - 1].held.Some?
      invariant streams != []
      invariant var last := streams[|streams| - 1];
                Streams(frames, messageId, through, kept) ==
                streams + if last.held.None? then [] else Streams(last.rest, last.held, 0, last.reader.kept)
      decreases |streams[|streams| - 1].rest| + if streams[|streams| - 1].held.Some? then 1 else 0
    {
      var last := streams[|streams| - 1];
      HeldIsLater(Begun(last.held, 0, last.reader.kept), last.rest, 0, true);
      var next := AcceptedPayloads(last.rest, last.held, 0, true, last.reader.kept);
      streams := streams + [next];
    }
  }

  /** What the streams write, one after another. */
  function Written(streams: seq<Outcome>): seq<Row> {
    if streams == [] then [] else Flat(streams[0].reader.writes) + Written(streams[1..])
  }

  predicate PositiveIds(frames: seq<Frame>) { forall f <- frames :: f.Event? ==> f.row.id > 0 }

  /** A chain the client's own cursor fits: from the awaited start up to the cursor no other message
      starts, and the chain reaches the cursor. */
  predicate Fits(frames: seq<Frame>, messageId: Option<string>, through: nat) {
    && OrderedEvents(frames) && PositiveIds(frames)
    && OneMessageWithin(From(frames, messageId), through, messageId)
    && (through > 0 ==> messageId.Some? && Reaches(frames, through))
  }

  lemma FirstStream(frames: seq<Frame>, messageId: Option<string>, through: nat, kept: Kept)
    requires Fits(frames, messageId, through)
    ensures var first := Read(Begun(messageId, through, kept), frames, through, true);
            first.reader.writes == WritesOf(Flat(first.reader.writes), through) && OneMessage(first.reader) &&
            Flat(first.reader.writes) + Payloads(first.rest) == Payloads(From(frames, messageId)) &&
            RecordedAll(first.reader.kept, first.rest) == RecordedAll(kept, From(frames, messageId))
  {
    var begun := Begun(messageId, through, kept);
    var first := Read(begun, frames, through, true);
    ReadTakesPayloads(begun, frames, through, true);
    ReadGetsPast(begun, frames, through, true);
    PrefixIsOneWrite(begun, frames, through, true);
    StreamsCarryOneMessage(begun, frames, through);
    ReadRecords(begun, frames, through, true);
    assert Total(first.reader) == Flat(first.reader.writes);
  }

  /** The streams of a resume partition the tail: together they write every payload from the awaited start
      on, each once and in order; each carries one message; the prefix the client holds is one write; and
      the record is that of one uninterrupted read. */
  lemma {:induction false} ResumePartitionsTheTail(frames: seq<Frame>, messageId: Option<string>, through: nat, kept: Kept)
    requires Fits(frames, messageId, through)
    ensures var streams := Streams(frames, messageId, through, kept);
            && Written(streams) == Payloads(From(frames, messageId))
            && (forall s <- streams :: OneMessage(s.reader))
            && streams[0].reader.writes == WritesOf(Flat(streams[0].reader.writes), through)
            && streams[|streams| - 1].reader.kept == RecordedAll(kept, From(frames, messageId))
    decreases |frames|
  {
    var begun := Begun(messageId, through, kept);
    var first := Read(begun, frames, through, true);
    FirstStream(frames, messageId, through, kept);
    HeldIsLater(begun, frames, through, true);
    ReadTakesPayloads(begun, frames, through, true);
    if first.held.Some? {
      var more := Streams(first.rest, first.held, 0, first.reader.kept);
      assert From(first.rest, first.held) == first.rest;
      assert Fits(first.rest, first.held, 0);
      ResumePartitionsTheTail(first.rest, first.held, 0, first.reader.kept);
      assert ([first] + more)[1..] == more;
    } else {
      assert Streams(frames, messageId, through, kept) == [first] && [first][1..] == [];
    }
  }

  // When the streams are whole, exactly.

  /** The client's cursor is a turn's end, not a start. */
  predicate NoStartAt(frames: seq<Frame>, through: nat) {
    forall f <- frames | f.Event? && f.row.id == through :: Opens(f.row).None?
  }

  /** The read under way still buffers its own message's prefix. */
  predicate Buffering(r: Reader) {
    && r.replayed.Some? && r.writes == [] && r.current.Some?
    && (if r.awaiting.Some? then r.awaiting == r.current else r.replayed.value != [])
  }

  predicate FallsShort(r: Reader, frames: seq<Frame>, through: nat) {
    && (r.awaiting.Some? ==> From(frames, r.awaiting) != [])
    && (!OneMessageWithin(From(frames, r.awaiting), through, r.current) || !Reaches(frames, through))
  }

  lemma {:induction false} FromIsWithin(frames: seq<Frame>, awaiting: Option<string>)
    ensures forall f <- From(frames, awaiting) :: f in frames
  {
    if frames != [] {
      FromIsWithin(frames[1..], awaiting);
    }
  }

  /** Short of the cursor, the next row is before it. */
  lemma ShortOfCursor(r: Reader, frames: seq<Frame>, through: nat)
    requires OrderedEvents(frames) && NoStartAt(frames, through) && frames != [] && frames[0].Event?
    requires FallsShort(r, frames, through)
    ensures frames[0].row.id < through
  {
    LaterEvents(frames);
    FromIsWithin(frames, r.awaiting);
    assert frames[0] in frames;
    assert forall f <- frames :: f == frames[0] || f in frames[1..];
  }

  /** And stays so over a row that is no other message's start. */
  lemma StaysShort(r: Reader, next: Reader, frames: seq<Frame>, through: nat)
    requires frames != [] && FallsShort(r, frames, through) && next.current == r.current
    requires if r.awaiting.Some? && !(frames[0].Event? && Opens(frames[0].row) == r.awaiting) then next.awaiting == r.awaiting
             else next.awaiting == None && (frames[0].Event? && Opens(frames[0].row).Some? ==> Opens(frames[0].row) == r.current)
    ensures FallsShort(next, frames[1..], through)
  {
    var rest := frames[1..];
    if Reaches(rest, through) {
      var f :| f in rest && f.Event? && f.row.id >= through;
      assert f in frames;
    }
    if next.awaiting == None {
      assert From(frames, r.awaiting) == frames && From(rest, None) == rest;
      assert forall f <- frames :: f == frames[0] || f in rest;
    }
  }

  /** A read that meets another message before the client's cursor, or never meets the cursor, writes
      nothing of what it took. */
  lemma {:induction false} ShortReadWritesNothing(r: Reader, frames: seq<Frame>, through: nat)
    requires OrderedEvents(frames) && NoStartAt(frames, through)
    requires Buffering(r) && r.reached < through && FallsShort(r, frames, through)
    ensures var outcome := Read(r, frames, through, true);
            outcome.reader.writes == [] && Total(outcome.reader) != []
    decreases frames
  {
    if frames == [] {
      assert Total(r) == r.replayed.value;
    } else if frames[0].Keepalive? {
      StaysShort(r, r, frames, through);
      ShortReadWritesNothing(r, frames[1..], through);
    } else {
      var row := frames[0].row;
      ShortOfCursor(r, frames, through);
      var met := Met(r, row, through);
      if Skips(met, row) {
        StaysShort(r, met, frames, through);
        ShortReadWritesNothing(met, frames[1..], through);
      } else {
        var recorded := Recording(met, row);
        if Payload(row) && Crosses(recorded, row) {
          assert Total(recorded) == recorded.replayed.value;
        } else {
          StaysShort(r, Taken(recorded, row), frames, through);
          ShortReadWritesNothing(Taken(recorded, row), frames[1..], through);
        }
      }
    }
  }

  lemma PayloadsOfOwnStart(frames: seq<Frame>, messageId: Option<string>)
    requires messageId.Some? && From(frames, messageId) != []
    ensures Payloads(From(frames, messageId)) != []
  {
    FromStartsThere(frames, messageId);
  }

  lemma {:induction false} FromStartsThere(frames: seq<Frame>, messageId: Option<string>)
    requires messageId.Some? && From(frames, messageId) != []
    ensures From(frames, messageId)[0].Event? && Opens(From(frames, messageId)[0].row) == messageId
  {
    if !(frames[0].Event? && Opens(frames[0].row) == messageId) {
      FromStartsThere(frames[1..], messageId);
    }
  }

  /** From a client's own record the streams write the whole tail exactly when no other message starts
      between its own start and its cursor and the chain reaches the cursor. */
  lemma ResumeIsWholeExactly(frames: seq<Frame>, messageId: Option<string>, through: nat, kept: Kept)
    requires OrderedEvents(frames) && PositiveIds(frames) && NoStartAt(frames, through)
    requires messageId.Some? && through > 0 && From(frames, messageId) != []
    ensures Written(Streams(frames, messageId, through, kept)) == Payloads(From(frames, messageId)) <==>
            OneMessageWithin(From(frames, messageId), through, messageId) && Reaches(frames, through)
  {
    if OneMessageWithin(From(frames, messageId), through, messageId) && Reaches(frames, through) {
      ResumePartitionsTheTail(frames, messageId, through, kept);
    } else {
      var begun := Begun(messageId, through, kept);
      var first := Read(begun, frames, through, true);
      ShortReadWritesNothing(begun, frames, through);
      ReadTakesPayloads(begun, frames, through, true);
      HeldIsLater(begun, frames, through, true);
      if first.held.Some? {
        var more := Streams(first.rest, first.held, 0, first.reader.kept);
        assert From(first.rest, first.held) == first.rest;
        ResumePartitionsTheTail(first.rest, first.held, 0, first.reader.kept);
        assert ([first] + more)[1..] == more;
        assert Written(Streams(frames, messageId, through, kept)) == Payloads(first.rest);
      } else {
        PayloadsOfOwnStart(frames, messageId);
        assert Streams(frames, messageId, through, kept) == [first] && [first][1..] == [];
      }
    }
  }
}
