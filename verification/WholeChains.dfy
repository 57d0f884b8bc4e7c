/** What a chain of tails brings from a host that serves each tail whole. */
module WholeChains {
  import opened Wrappers
  import opened ConversationLog
  import opened Resume

  /** A response that is the tail after `cursor`, whole: where it ends a turn it ends on that turn's own frame. */
  predicate ServesWhole(response: seq<Frame>, log: seq<Row>, cursor: nat) {
    var tail := Tail(log, cursor);
    Events(response) == tail && (tail != [] && tail[|tail| - 1].entry.Done? ==> EndsOnDone(response))
  }

  /** A host that answers with whole tails, and leaves no request unanswered while rows stand after it. */
  ghost predicate WholeHost(log: seq<Row>, initial: seq<Frame>, from: nat, host: nat -> Option<seq<Frame>>) {
    && ServesWhole(initial, log, from)
    && forall cursor: nat ::
         match host(cursor)
         case None => Tail(log, cursor) == []
         case Some(response) => ServesWhole(response, log, cursor)
  }

  predicate DoneAt(frames: seq<Frame>, k: nat) { k < |frames| && frames[k].Event? && frames[k].row.entry.Done? }

  /** Up to the end of the first turn that leaves no message open: all of the rows, or up to a turn's end where
      nothing is open any more; and at each turn's end before that a message was. */
  ghost predicate UpToClose(log: seq<Row>, from: nat, yielded: seq<Frame>, goesOn: seq<Frame> -> bool) {
    && Events(yielded) <= Wire(After(log, from))
    && (Events(yielded) == Wire(After(log, from)) || (EndsOnDone(yielded) && !goesOn(yielded)))
    && forall k: nat | k + 1 < |yielded| && DoneAt(yielded, k) :: goesOn(yielded[..k + 1])
  }

  lemma {:induction false} FewerEvents(frames: seq<Frame>, k: nat)
    requires k <= |frames|
    ensures Events(frames[..k]) <= Events(frames)
    ensures k < |frames| && frames[k].Event? ==> |Events(frames[..k])| < |Events(frames)| && Events(frames)[|Events(frames[..k])|] == frames[k].row
  {
    if k < |frames| {
      var front := frames[..|frames| - 1];
      assert front[..k] == frames[..k];
      if k < |front| {
        FewerEvents(front, k);
        assert front[k] == frames[k];
      }
    } else {
      assert frames[..k] == frames;
    }
  }

  /** In a whole response only the last frame may end a turn. */
  lemma DoneIsItsEnd(response: seq<Frame>, log: seq<Row>, cursor: nat, k: nat)
    requires ServesWhole(response, log, cursor) && DoneAt(response, k)
    ensures k == |response| - 1
  {
    var tail, n := Tail(log, cursor), |Events(response[..k])|;
    FewerEvents(response, k);
    DoneIsLast(Wire(After(log, cursor)), n);
    assert EndsOnDone(response);
    var last := |response| - 1;
    FewerEvents(response, last);
    if k < last {
      EventsBetween(response, k, last);
    }
  }

  lemma EventsBetween(frames: seq<Frame>, k: nat, last: nat)
    requires k < last <= |frames| && frames[k].Event?
    ensures |Events(frames[..k])| < |Events(frames[..last])|
  {
    assert frames[..last][..k] == frames[..k] && frames[..last][k] == frames[k];
    FewerEvents(frames[..last], k);
  }

  /** So far the chain is right up to what it asks for next, and went on at every turn's end. */
  ghost predicate SoFar(log: seq<Row>, from: nat, responses: seq<seq<Frame>>, goesOn: seq<Frame> -> bool, n: nat)
    requires n <= |responses| && forall k | 0 <= k < n :: EndsOnDone(responses[k])
  {
    var yielded := Concat(responses[..n]);
    && Leads(log, from, yielded, if n == 0 then from else LastId(responses[n - 1]))
    && forall k: nat | DoneAt(yielded, k) :: goesOn(yielded[..k + 1])
  }

  lemma ConcatNext(responses: seq<seq<Frame>>, n: nat)
    requires n < |responses|
    ensures Concat(responses[..n + 1]) == Concat(responses[..n]) + responses[n]
  {
    assert responses[..n + 1][..n] == responses[..n];
  }

  /** A turn's end in what was yielded is one in what came before, or the end of the last response. */
  lemma DonesOf(before: seq<Frame>, response: seq<Frame>, log: seq<Row>, cursor: nat, k: nat)
    requires ServesWhole(response, log, cursor) && DoneAt(before + response, k)
    ensures if k < |before| then DoneAt(before, k) && (before + response)[..k + 1] == before[..k + 1]
            else k + 1 == |before + response|
  {
    if k >= |before| {
      assert (before + response)[k] == response[k - |before|];
      DoneIsItsEnd(response, log, cursor, k - |before|);
    }
  }

  lemma GoneOn(log: seq<Row>, from: nat, responses: seq<seq<Frame>>, goesOn: seq<Frame> -> bool, n: nat, cursor: nat)
    requires InOrder(log) && n < |responses| && forall k | 0 <= k <= n :: EndsOnDone(responses[k])
    requires SoFar(log, from, responses, goesOn, n) && cursor == (if n == 0 then from else LastId(responses[n - 1]))
    requires ServesWhole(responses[n], log, cursor) && AsksOn(responses, from, goesOn, n)
    ensures SoFar(log, from, responses, goesOn, n + 1)
  {
    var before := Concat(responses[..n]);
    var yielded := before + responses[n];
    ConcatNext(responses, n);
    ResponseYielded(log, from, before, cursor, responses[n]);
    forall k: nat | DoneAt(yielded, k) ensures goesOn(yielded[..k + 1]) {
      DonesOf(before, responses[n], log, cursor, k);
      assert yielded[..|yielded|] == yielded;
    }
  }

  lemma ServedWhole(log: seq<Row>, initial: seq<Frame>, from: nat, host: nat -> Option<seq<Frame>>,
                    goesOn: seq<Frame> -> bool, responses: seq<seq<Frame>>, n: nat)
    requires WholeHost(log, initial, from, host) && Follows(responses, initial, from, host, goesOn) && n < |responses|
    ensures ServesWhole(responses[n], log, Requested(responses, from, n))
  {
    if n > 0 {
      assert AsksOn(responses, from, goesOn, n - 1) && host(LastId(responses[n - 1])) == Some(responses[n]);
    }
  }

  lemma {:induction false} FollowedWhole(log: seq<Row>, initial: seq<Frame>, from: nat, host: nat -> Option<seq<Frame>>,
                                         goesOn: seq<Frame> -> bool, responses: seq<seq<Frame>>, n: nat)
    requires InOrder(log) && WholeHost(log, initial, from, host) && Follows(responses, initial, from, host, goesOn)
    requires n < |responses|
    ensures SoFar(log, from, responses, goesOn, n)
  {
    if n == 0 {
      assert Concat(responses[..0]) == [];
    } else {
      FollowedWhole(log, initial, from, host, goesOn, responses, n - 1);
      ServedWhole(log, initial, from, host, goesOn, responses, n - 1);
      GoneOn(log, from, responses, goesOn, n - 1, Requested(responses, from, n - 1));
    }
  }

  /** A tail that ends no turn is all there is. */
  lemma TailIsRest(log: seq<Row>, cursor: nat, response: seq<Frame>)
    requires ServesWhole(response, log, cursor) && !EndsOnDone(response)
    ensures Events(response) == Wire(After(log, cursor))
  {
    var rest := Wire(After(log, cursor));
    TailSplits(rest);
    assert rest[..|rest|] == rest;
  }

  lemma LastIsLater(log: seq<Row>, cursor: nat, response: seq<Frame>)
    requires InOrder(log) && ServesWhole(response, log, cursor) && EndsOnDone(response)
    ensures LastId(response) > cursor
  {
    var rest, row := Wire(After(log, cursor)), response[|response| - 1].row;
    assert Events(response)[|Events(response)| - 1] == row;
    TailSplits(rest);
    assert row in rest;
    WireIsFramed(After(log, cursor));
    var n := Count(log, cursor);
    var k: nat :| k < |log[n..]| && log[n..][k] == row;
    assert log[n + k] == row && (n < |log| ==> log[n].id > cursor);
  }

  lemma NothingLeft(log: seq<Row>, cursor: nat)
    requires Tail(log, cursor) == []
    ensures Wire(After(log, cursor)) == []
  {
    TailSplits(Wire(After(log, cursor)));
  }

  /** From a host that serves each tail whole, the chain brings every row up to the end of the turn that leaves no
      message open, and stops there; where a message stays open it brings every row there is. */
  lemma ChainIsWhole(log: seq<Row>, initial: seq<Frame>, from: nat, host: nat -> Option<seq<Frame>>,
                     goesOn: seq<Frame> -> bool, responses: seq<seq<Frame>>)
    requires InOrder(log) && WholeHost(log, initial, from, host) && IsChain(responses, initial, from, host, goesOn)
    ensures UpToClose(log, from, Concat(responses), goesOn)
  {
    var n := |responses| - 1;
    var before, response, cursor := Concat(responses[..n]), responses[n], Requested(responses, from, n);
    FollowedWhole(log, initial, from, host, goesOn, responses, n);
    ServedWhole(log, initial, from, host, goesOn, responses, n);
    ConcatNext(responses, n);
    assert responses[..n + 1] == responses;
    ResponseYielded(log, from, before, cursor, response);
    EventsOfConcat(before, response);
    if EndsOnDone(response) {
      LastIsLater(log, cursor, response);
      if AsksOn(responses, from, goesOn, n) {
        NothingLeft(log, LastId(response));
      }
    } else {
      TailIsRest(log, cursor, response);
    }
    forall k: nat | k + 1 < |before + response| && DoneAt(before + response, k) ensures goesOn((before + response)[..k + 1]) {
      DonesOf(before, response, log, cursor, k);
    }
  }
}
