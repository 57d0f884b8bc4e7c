/** A conversation's log as its readers are served it: the snapshot, the tails after it, and the message it
    leaves open. */
module ConversationLog {
  import opened Wrappers

  /** What a row's chunk is, as far as serving it goes. `Unrecognised` is a kind older clients cannot place. */
  datatype Entry =
    | Prompt
    | AssistantEnvelope
    | Start(messageId: Option<string>)
    | Finish(reason: Option<string>)
    | Done
    | Known
    | Unrecognised

  /** A row of the log. One that is not `valid` does not parse as a chunk of its kind. */
  datatype Row = Row(id: nat, entry: Entry, valid: bool)

  const SUSPENDED := "other"

  predicate Envelope(e: Entry) { e.Prompt? || e.AssistantEnvelope? }

  predicate Closes(e: Entry) { e.Finish? && e.reason != Some(SUSPENDED) }

  /** Rows are numbered from one up. */
  predicate InOrder(log: seq<Row>) {
    && (forall i | 0 <= i < |log| :: log[i].id > 0)
    && (forall i, j | 0 <= i < j < |log| :: log[i].id < log[j].id)
  }

  /** How many rows stand up to a cursor: in an ordered log they come first. */
  function Count(log: seq<Row>, cursor: nat): (n: nat)
    ensures n <= |log| && (forall i | 0 <= i < n :: log[i].id <= cursor) && (n < |log| ==> log[n].id > cursor)
  {
    if log == [] || log[0].id > cursor then 0
    else
      var n := Count(log[1..], cursor);
      assert forall i | 0 < i < n + 1 :: log[i] == log[1..][i - 1];
      n + 1
  }

  function After(log: seq<Row>, cursor: nat): seq<Row> { log[Count(log, cursor)..] }

  function UpTo(log: seq<Row>, cursor: nat): seq<Row> { log[..Count(log, cursor)] }

  function Valid(log: seq<Row>): seq<Row> {
    if log == [] then [] else if log[|log| - 1].valid then Valid(log[..|log| - 1]) + [log[|log| - 1]] else Valid(log[..|log| - 1])
  }

  predicate Framed(r: Row) { r.valid && !Envelope(r.entry) }

  /** The rows that go out as frames. */
  function Wire(log: seq<Row>): seq<Row> {
    if log == [] then [] else if Framed(log[0]) then [log[0]] + Wire(log[1..]) else Wire(log[1..])
  }

  function UpToDone(frames: seq<Row>): seq<Row> {
    if frames == [] then [] else if frames[0].entry.Done? then [frames[0]] else [frames[0]] + UpToDone(frames[1..])
  }

  /** The frames one read of the log after `cursor` is served: up to the end of a turn. */
  function Tail(log: seq<Row>, cursor: nat): seq<Row> { UpToDone(Wire(After(log, cursor))) }

  method Frames(log: seq<Row>, cursor: nat) returns (frames: seq<Row>)
    ensures frames == Tail(log, cursor)
  {
    var rows := After(log, cursor);
    frames := [];
    for i := 0 to |rows|
      invariant UpToDone(Wire(rows)) == frames + UpToDone(Wire(rows[i..]))
    {
      assert rows[i..] == [rows[i]] + rows[i + 1..];
      if !rows[i].valid || Envelope(rows[i].entry) {
        continue;
      }
      frames := frames + [rows[i]];
      if rows[i].entry.Done? {
        return;
      }
    }
  }

  lemma {:induction false} WireOfConcat(a: seq<Row>, b: seq<Row>)
    ensures Wire(a + b) == Wire(a) + Wire(b)
  {
    if a == [] {
      assert a + b == b;
    } else {
      assert (a + b)[1..] == a[1..] + b;
      WireOfConcat(a[1..], b);
    }
  }

  // Tail after tail.

  lemma {:induction false} WireIsFramed(log: seq<Row>)
    ensures forall f <- Wire(log) :: f in log && Framed(f)
  {
    if log != [] {
      WireIsFramed(log[1..]);
    }
  }

  /** What one read leaves for the next. */
  lemma {:induction false} TailSplits(frames: seq<Row>)
    ensures var tail := UpToDone(frames);
            |tail| <= |frames| && tail == frames[..|tail|] && (frames != [] ==> tail != []) &&
            (|tail| < |frames| ==> tail != [] && tail[|tail| - 1].entry.Done?)
  {
    if frames != [] && !frames[0].entry.Done? {
      TailSplits(frames[1..]);
      var rest := UpToDone(frames[1..]);
      assert UpToDone(frames) == [frames[0]] + rest;
      assert frames == [frames[0]] + frames[1..];
    }
  }

  lemma LaterRow(log: seq<Row>, f: Row)
    requires InOrder(log) && log != [] && f in log[1..]
    ensures f.id > log[0].id && InOrder(log[1..])
  {
    var i :| 0 <= i < |log[1..]| && log[1..][i] == f;
    assert log[i + 1] == f;
  }

  lemma InOrderFrom(log: seq<Row>, i: nat)
    requires InOrder(log) && i <= |log|
    ensures InOrder(log[i..])
  {
  }

  /** The frames after one of a log's frames are those its cursor asks for. */
  lemma {:induction false} AfterAFrame(log: seq<Row>, k: nat)
    requires InOrder(log) && k < |Wire(log)|
    ensures Wire(log)[k + 1..] == Wire(After(log, Wire(log)[k].id))
  {
    var rest := log[1..];
    InOrderFrom(log, 1);
    if Framed(log[0]) && k == 0 {
      assert Wire(log)[1..] == Wire(rest);
      assert After(log, log[0].id) == rest by { if rest != [] { assert rest[0] == log[1]; } }
    } else {
      var n := if Framed(log[0]) then k - 1 else k;
      var f := Wire(log)[k];
      assert f == Wire(rest)[n];
      WireIsFramed(rest);
      LaterRow(log, f);
      AfterAFrame(rest, n);
      assert After(log, f.id) == After(rest, f.id);
      assert Wire(log)[k + 1..] == Wire(rest)[n + 1..];
    }
  }

  lemma {:induction false} AfterAfter(log: seq<Row>, cursor: nat, later: nat)
    requires InOrder(log) && cursor <= later
    ensures After(After(log, cursor), later) == After(log, later)
  {
    if log != [] && log[0].id <= cursor {
      InOrderFrom(log, 1);
      AfterAfter(log[1..], cursor, later);
      NextAfter(log, cursor);
      NextAfter(log, later);
    } else {
      assert After(log, cursor) == log;
    }
  }

  lemma NextAfter(log: seq<Row>, cursor: nat)
    requires log != [] && log[0].id <= cursor
    ensures After(log, cursor) == After(log[1..], cursor)
  {
  }

  /** The tails a reader that follows turn after turn is served. */
  function Tails(log: seq<Row>, cursor: nat): seq<seq<Row>>
    requires InOrder(log)
    decreases |After(log, cursor)|
  {
    var tail := Tail(log, cursor);
    if tail == [] || !tail[|tail| - 1].entry.Done? then [tail]
    else
      TailLeads(log, cursor);
      [tail] + Tails(log, tail[|tail| - 1].id)
  }

  /** A tail leads on: its last frame is later than the cursor, and what comes after it is what is left. */
  lemma TailLeads(log: seq<Row>, cursor: nat)
    requires InOrder(log) && Tail(log, cursor) != []
    ensures var tail := Tail(log, cursor);
            var last := tail[|tail| - 1].id;
            last > cursor && |After(log, last)| < |After(log, cursor)| &&
            Wire(After(log, cursor)) == tail + Wire(After(log, last))
  {
    var rows, tail := After(log, cursor), Tail(log, cursor);
    TailSplits(Wire(rows));
    InOrderFrom(log, Count(log, cursor));
    var last := Wire(rows)[|tail| - 1];
    FrameIsLater(rows, |tail| - 1, cursor);
    assert Wire(rows)[|tail|..] == Wire(After(rows, last.id)) by { AfterAFrame(rows, |tail| - 1); }
    AfterAfter(log, cursor, last.id);
    assert Wire(rows) == Wire(rows)[..|tail|] + Wire(rows)[|tail|..];
  }

  lemma FrameIsLater(rows: seq<Row>, k: nat, cursor: nat)
    requires InOrder(rows) && k < |Wire(rows)| && rows[0].id > cursor
    ensures Wire(rows)[k].id > cursor && Count(rows, Wire(rows)[k].id) > 0
  {
    WireIsFramed(rows);
    var f := Wire(rows)[k];
    assert f in rows;
    var at :| 0 <= at < |rows| && rows[at] == f;
    assert rows[at].id >= rows[0].id;
  }

  function Flattened(tails: seq<seq<Row>>): seq<Row> {
    if tails == [] then [] else tails[0] + Flattened(tails[1..])
  }

  /** Followed turn after turn, the tails are every frame after the cursor, each once and in order. */
  lemma {:induction false} TailsCoverTheWire(log: seq<Row>, cursor: nat)
    requires InOrder(log)
    ensures Flattened(Tails(log, cursor)) == Wire(After(log, cursor))
    decreases |After(log, cursor)|
  {
    var wire, tail := Wire(After(log, cursor)), Tail(log, cursor);
    TailSplits(wire);
    if tail == [] || !tail[|tail| - 1].entry.Done? {
      assert Tails(log, cursor) == [tail];
      assert Flattened([tail]) == tail + Flattened([]);
    } else {
      TailLeads(log, cursor);
      var more := Tails(log, tail[|tail| - 1].id);
      TailsCoverTheWire(log, tail[|tail| - 1].id);
      assert ([tail] + more)[1..] == more;
    }
  }

  // The snapshot.

  function LastDone(log: seq<Row>): nat {
    if log == [] then 0 else if log[|log| - 1].entry.Done? then log[|log| - 1].id else LastDone(log[..|log| - 1])
  }

  function FirstPrompt(log: seq<Row>): Option<nat> {
    if log == [] then None else if log[0].entry.Prompt? then Some(log[0].id) else FirstPrompt(log[1..])
  }

  /** Where a snapshot ends: at the prompt of the turn under way, else at the last turn's end. */
  function Boundary(log: seq<Row>): nat {
    var prompt := FirstPrompt(After(log, LastDone(log)));
    if prompt.Some? then prompt.value else LastDone(log)
  }

  function SnapshotRows(log: seq<Row>): seq<Row> { Valid(UpTo(log, Boundary(log))) }

  /** A prompt nothing has ended yet. */
  predicate PromptUnderWay(log: seq<Row>) {
    exists i | 0 <= i < |log| :: UnderWayAt(log, i)
  }

  predicate UnderWayAt(log: seq<Row>, i: nat) {
    i < |log| && log[i].entry.Prompt? && forall j | i < j < |log| :: !log[j].entry.Done?
  }

  predicate TurnIsInFlight(chunks: seq<Row>) { chunks != [] && chunks[|chunks| - 1].entry.Prompt? }

  lemma {:induction false} LastDoneMeans(log: seq<Row>)
    requires InOrder(log)
    ensures LastDone(log) == 0 ==> forall i | 0 <= i < |log| :: !log[i].entry.Done?
    ensures LastDone(log) > 0 ==>
              exists i | 0 <= i < |log| :: log[i].entry.Done? && log[i].id == LastDone(log) && forall j | i < j < |log| :: !log[j].entry.Done?
  {
    if log != [] && !log[|log| - 1].entry.Done? {
      var front := log[..|log| - 1];
      LastDoneMeans(front);
      if LastDone(front) > 0 {
        var i :| 0 <= i < |front| && front[i].entry.Done? && front[i].id == LastDone(front) && forall j | i < j < |front| :: !front[j].entry.Done?;
        assert log[i].entry.Done?;
      }
    }
  }

  lemma {:induction false} FirstPromptMeans(log: seq<Row>)
    ensures FirstPrompt(log) == None ==> forall i | 0 <= i < |log| :: !log[i].entry.Prompt?
    ensures FirstPrompt(log).Some? ==>
              exists i | 0 <= i < |log| :: log[i].entry.Prompt? && log[i].id == FirstPrompt(log).value
  {
    if log != [] && !log[0].entry.Prompt? {
      FirstPromptMeans(log[1..]);
      if FirstPrompt(log).Some? {
        var i :| 0 <= i < |log[1..]| && log[1..][i].entry.Prompt? && log[1..][i].id == FirstPrompt(log).value;
        assert log[i + 1].entry.Prompt?;
      }
    }
  }

  /** Row `i` is the first prompt nothing has ended yet, of those after the last turn's end. */
  ghost predicate OpensTheTurn(log: seq<Row>, i: nat) {
    UnderWayAt(log, i) && forall j: nat | j < i :: !UnderWayAt(log, j)
  }

  /** Row `i` ends the last turn. */
  predicate EndsTheLast(log: seq<Row>, i: nat) {
    i < |log| && log[i].entry.Done? && forall j | i < j < |log| :: !log[j].entry.Done?
  }

  lemma {:induction false} FirstPromptIsFirst(log: seq<Row>)
    ensures FirstPrompt(log).Some? ==>
              exists i: nat :: i < |log| && log[i].entry.Prompt? && log[i].id == FirstPrompt(log).value &&
                               forall j | 0 <= j < i :: !log[j].entry.Prompt?
  {
    if log != [] && !log[0].entry.Prompt? {
      FirstPromptIsFirst(log[1..]);
      if FirstPrompt(log).Some? {
        var i: nat :| i < |log[1..]| && log[1..][i].entry.Prompt? && log[1..][i].id == FirstPrompt(log).value &&
                      forall j | 0 <= j < i :: !log[1..][j].entry.Prompt?;
        assert log[i + 1].entry.Prompt?;
        forall j | 0 <= j < i + 1 ensures !log[j].entry.Prompt? { if j > 0 { assert log[j] == log[1..][j - 1]; } }
      }
    }
  }

  lemma CountAt(log: seq<Row>, d: nat)
    requires InOrder(log) && d < |log|
    ensures Count(log, log[d].id) == d + 1
  {
    var n := Count(log, log[d].id);
    assert forall i | 0 <= i <= d :: log[i].id <= log[d].id;
    assert forall i | d < i < |log| :: log[i].id > log[d].id;
  }

  lemma CountFromNought(log: seq<Row>)
    requires InOrder(log)
    ensures Count(log, 0) == 0
  {
    assert log != [] ==> log[0].id > 0;
  }

  lemma BeforeAnEnd(log: seq<Row>, d: nat)
    requires d < |log| && log[d].entry.Done?
    ensures forall j: nat | j <= d :: !UnderWayAt(log, j)
  {
  }

  lemma AfterTheLastEnd(log: seq<Row>)
    requires InOrder(log)
    ensures forall j | Count(log, LastDone(log)) <= j < |log| :: !log[j].entry.Done?
    ensures forall j: nat | j < Count(log, LastDone(log)) :: !UnderWayAt(log, j)
  {
    LastDoneMeans(log);
    if LastDone(log) > 0 {
      var d: nat :| d < |log| && log[d].entry.Done? && log[d].id == LastDone(log) && forall j | d < j < |log| :: !log[j].entry.Done?;
      CountAt(log, d);
      BeforeAnEnd(log, d);
    } else {
      CountFromNought(log);
    }
  }

  lemma FirstPromptOpens(log: seq<Row>, p: nat)
    requires InOrder(log)
    requires var rest := After(log, LastDone(log));
             p < |rest| && rest[p].entry.Prompt? && forall j | 0 <= j < p :: !rest[j].entry.Prompt?
    ensures OpensTheTurn(log, Count(log, LastDone(log)) + p)
  {
    var i := Count(log, LastDone(log));
    AfterTheLastEnd(log);
    assert log[i..][p] == log[i + p];
    forall j: nat | i <= j < i + p ensures !log[j].entry.Prompt? { assert log[j] == log[i..][j - i]; }
  }

  lemma NoPromptUnderWay(log: seq<Row>)
    requires InOrder(log) && forall r <- After(log, LastDone(log)) :: !r.entry.Prompt?
    ensures !PromptUnderWay(log)
  {
    var i := Count(log, LastDone(log));
    AfterTheLastEnd(log);
    forall j: nat | i <= j < |log| ensures !log[j].entry.Prompt? { assert log[j] == log[i..][j - i]; }
  }

  /** A boundary stands at the first prompt of the turn under way; with none, at the last turn's end; and with no
      turn ended, at nought. */
  lemma BoundaryIsExactly(log: seq<Row>)
    requires InOrder(log)
    ensures PromptUnderWay(log) ==> exists i: nat :: OpensTheTurn(log, i) && log[i].id == Boundary(log)
    ensures !PromptUnderWay(log) && Boundary(log) > 0 ==> exists i: nat :: EndsTheLast(log, i) && log[i].id == Boundary(log)
    ensures !PromptUnderWay(log) && Boundary(log) == 0 ==> forall r <- log :: !r.entry.Done?
  {
    var i, rest := Count(log, LastDone(log)), After(log, LastDone(log));
    FirstPromptMeans(rest);
    FirstPromptIsFirst(rest);
    LastDoneMeans(log);
    if FirstPrompt(rest).Some? {
      var p: nat :| p < |rest| && rest[p].entry.Prompt? && rest[p].id == FirstPrompt(rest).value &&
                    forall j | 0 <= j < p :: !rest[j].entry.Prompt?;
      FirstPromptOpens(log, p);
      assert log[i + p] == rest[p];
    } else {
      NoPromptUnderWay(log);
      if LastDone(log) > 0 {
        var d :| 0 <= d < |log| && log[d].entry.Done? && log[d].id == LastDone(log) && forall j | d < j < |log| :: !log[j].entry.Done?;
        assert EndsTheLast(log, d);
      }
    }
  }

  lemma SameId(log: seq<Row>, i: nat, j: nat)
    requires InOrder(log) && i < |log| && j < |log| && log[i].id == log[j].id
    ensures i == j
  {
  }

  /** What a boundary stands at. */
  lemma BoundaryMeans(log: seq<Row>)
    requires InOrder(log)
    ensures Boundary(log) == 0 || exists i | 0 <= i < |log| :: log[i].id == Boundary(log) && (log[i].entry.Prompt? || log[i].entry.Done?)
    ensures PromptUnderWay(log) <==> exists i | 0 <= i < |log| :: log[i].id == Boundary(log) && log[i].entry.Prompt?
  {
    BoundaryIsExactly(log);
    if PromptUnderWay(log) {
      var i: nat :| OpensTheTurn(log, i) && log[i].id == Boundary(log);
    } else if Boundary(log) > 0 {
      var d: nat :| EndsTheLast(log, d) && log[d].id == Boundary(log);
      forall i | 0 <= i < |log| && log[i].id == Boundary(log) ensures log[i].entry.Done? { SameId(log, i, d); }
    }
  }

  /** Where the boundary's own row is valid, the snapshot ends on a prompt exactly when one is under way. */
  lemma InFlightExactlyWhenPromptUnderWay(log: seq<Row>)
    requires InOrder(log) && forall r <- log :: r.id == Boundary(log) ==> r.valid
    ensures TurnIsInFlight(SnapshotRows(log)) <==> PromptUnderWay(log)
  {
    BoundaryMeans(log);
    var b := Boundary(log);
    if b > 0 {
      var k: nat :| k < |log| && log[k].id == b && (log[k].entry.Prompt? || log[k].entry.Done?);
      CountAt(log, k);
      EndsOnBoundary(log, k);
      forall n | 0 <= n < |log| && log[n].id == b ensures n == k { SameId(log, n, k); }
    } else {
      CountFromNought(log);
      assert log[..0] == [];
      assert forall n | 0 <= n < |log| :: log[n].id > 0;
    }
  }

  lemma EndsOnBoundary(log: seq<Row>, k: nat)
    requires k < |log| && Count(log, log[k].id) == k + 1 && log[k].valid
    ensures var rows := Valid(UpTo(log, log[k].id)); rows != [] && rows[|rows| - 1] == log[k]
  {
    assert log[..k + 1][k] == log[k];
  }

  /** The snapshot's frames, then the tails after its cursor, are every frame of the log, however much the
      log has grown since: each row once. */
  lemma SnapshotThenTailsIsTheLog(log: seq<Row>, more: seq<Row>)
    requires InOrder(log + more)
    ensures Wire(SnapshotRows(log)) + Flattened(Tails(log + more, Boundary(log))) == Wire(log + more)
  {
    var all, b := log + more, Boundary(log);
    InOrderPart(log, more);
    TailsCoverTheWire(all, b);
    SameSplit(log, more, b);
    WireOfConcat(UpTo(all, b), After(all, b));
    WireOfValid(UpTo(log, b));
  }

  /** Growth does not move what stands up to the boundary. */
  lemma SameSplit(log: seq<Row>, more: seq<Row>, b: nat)
    requires InOrder(log) && InOrder(log + more) && b == Boundary(log)
    ensures UpTo(log + more, b) == UpTo(log, b) && log + more == UpTo(log, b) + After(log + more, b)
  {
    var all := log + more;
    var i, j := Count(log, b), Count(all, b);
    BoundaryWithin(log, more);
    forall n | 0 <= n < |all| ensures all[n] == if n < |log| then log[n] else more[n - |log|] { }
    forall n | |log| <= n < |all| ensures all[n].id > b { assert all[n] in more; }
    assert i == j;
  }

  lemma InOrderPart(log: seq<Row>, more: seq<Row>)
    requires InOrder(log + more)
    ensures InOrder(log)
  {
    var all := log + more;
    forall i | 0 <= i < |log| ensures log[i] == all[i] { }
  }

  lemma BoundaryWithin(log: seq<Row>, more: seq<Row>)
    requires InOrder(log) && InOrder(log + more)
    ensures forall r <- more :: r.id > Boundary(log)
  {
    BoundaryMeans(log);
    forall k | 0 <= k < |more| ensures more[k].id > Boundary(log) {
      assert (log + more)[|log| + k] == more[k];
      if Boundary(log) > 0 {
        var i :| 0 <= i < |log| && log[i].id == Boundary(log);
        assert (log + more)[i] == log[i];
      }
    }
  }

  lemma {:induction false} WireOfValid(log: seq<Row>)
    ensures Wire(Valid(log)) == Wire(log)
  {
    if log != [] {
      var front, last := log[..|log| - 1], log[|log| - 1];
      WireOfValid(front);
      assert log == front + [last];
      WireOfConcat(front, [last]);
      WireOfConcat(Valid(front), [last]);
      assert !last.valid ==> Wire([last]) == [];
    }
  }

  // The message a log leaves open.

  datatype OpenMessage = OpenMessage(messageId: string, after: nat)

  /** The open message, and the cursor of the entry before the next. */
  datatype Scan = Scan(open: Option<OpenMessage>, previous: nat)

  function Scanned(scan: Scan, r: Row): Scan {
    var open :=
      if r.entry.Start? && r.entry.messageId.Some? then
        if scan.open.Some? && scan.open.value.messageId == r.entry.messageId.value then scan.open
        else Some(OpenMessage(r.entry.messageId.value, scan.previous))
      else if Closes(r.entry) then None
      else scan.open;
    Scan(open, r.id)
  }

  function ScanOf(entries: seq<Row>): Scan {
    if entries == [] then Scan(None, 0) else Scanned(ScanOf(entries[..|entries| - 1]), entries[|entries| - 1])
  }

  method OpenMessageOf(entries: seq<Row>) returns (open: Option<OpenMessage>)
    ensures open == ScanOf(entries).open
  {
    open := None;
    var previous := 0;
    for i := 0 to |entries|
      invariant ScanOf(entries[..i]) == Scan(open, previous)
    {
      assert entries[..i + 1][..i] == entries[..i];
      match entries[i].entry {
        case Start(Some(messageId)) =>
          if open.None? || open.value.messageId != messageId {
            open := Some(OpenMessage(messageId, previous));
          }
        case Finish(reason) =>
          if reason != Some(SUSPENDED) {
            open := None;
          }
        case _ =>
      }
      previous := entries[i].id;
    }
    assert entries[..|entries|] == entries;
  }

  datatype Snapshot = Snapshot(chunks: seq<Row>, cursor: nat, open: Option<OpenMessage>)

  lemma {:induction false} ValidRows(log: seq<Row>)
    requires InOrder(log)
    ensures forall r :: r in Valid(log) <==> r in log && r.valid
    ensures forall i, j | 0 <= i < j < |Valid(log)| :: Valid(log)[i].id < Valid(log)[j].id
  {
    if log != [] {
      var front, last := log[..|log| - 1], log[|log| - 1];
      assert forall r :: r in log <==> r in front || r == last;
      ValidRows(front);
      forall r <- front ensures r.id < last.id {
        var k :| 0 <= k < |front| && front[k] == r;
        assert log[k] == r;
      }
      assert forall i | 0 <= i < |Valid(front)| :: Valid(front)[i] in Valid(front);
    }
  }

  lemma RowsUpTo(log: seq<Row>, cursor: nat)
    requires InOrder(log)
    ensures InOrder(UpTo(log, cursor)) && forall r :: r in UpTo(log, cursor) <==> r in log && r.id <= cursor
  {
    var n := Count(log, cursor);
    assert forall k | n <= k < |log| :: log[k].id > cursor;
    forall r <- log | r.id <= cursor ensures r in UpTo(log, cursor) {
      var k: nat :| k < |log| && log[k] == r;
      assert UpTo(log, cursor)[k] == r;
    }
  }

  predicate OpensTail(log: seq<Row>, open: OpenMessage) {
    var tail := Tail(log, open.after);
    tail != [] && tail[0].entry == Start(Some(open.messageId))
  }

  /** The tail after a snapshot's open message begins with that message's own start, however much the log has
      grown. */
  lemma SnapshotMeetsItsStart(log: seq<Row>, more: seq<Row>)
    requires InOrder(log + more) && ScanOf(SnapshotRows(log)).open.Some?
    ensures OpensTail(log + more, ScanOf(SnapshotRows(log)).open.value)
  {
    InOrderPart(log, more);
    var part, rest := UpTo(log, Boundary(log)), log[Count(log, Boundary(log))..] + more;
    assert part + rest == log + more;
    TailMeetsItsStart(part, rest);
  }

  /** A start that nothing has closed: each later start names the same message. */
  predicate LeftOpenBy(entries: seq<Row>, messageId: string, i: nat) {
    && i < |entries| && entries[i].entry == Start(Some(messageId))
    && forall j | i < j < |entries| :: !Closes(entries[j].entry) && !StartsOther(entries[j].entry, messageId)
  }

  predicate StartsOther(e: Entry, messageId: string) { e.Start? && e.messageId.Some? && e.messageId.value != messageId }

  ghost predicate LeftOpen(entries: seq<Row>, messageId: string) { exists i: nat :: LeftOpenBy(entries, messageId, i) }

  predicate Names(open: Option<OpenMessage>, messageId: string) { open.Some? && open.value.messageId == messageId }

  /** A message is open exactly when its start stands in the log with neither a finish nor another start after
      it. */
  lemma {:induction false} OpenExactly(entries: seq<Row>, messageId: string)
    ensures Names(ScanOf(entries).open, messageId) <==> LeftOpen(entries, messageId)
  {
    if entries != [] {
      var front, last := entries[..|entries| - 1], entries[|entries| - 1];
      OpenExactly(front, messageId);
      if last.entry == Start(Some(messageId)) {
        assert LeftOpenBy(entries, messageId, |front|);
      } else if Closes(last.entry) || StartsOther(last.entry, messageId) {
        forall i: nat ensures !LeftOpenBy(entries, messageId, i) { }
      } else {
        forall i: nat ensures LeftOpenBy(entries, messageId, i) <==> LeftOpenBy(front, messageId, i) {
          assert forall j | 0 <= j < |front| :: front[j] == entries[j];
        }
      }
    }
  }

  /** The snapshot holds the valid rows up to its cursor and no other, in order, prompts and envelopes among them;
      its open message is the one its rows leave open, and the tail after that message's cursor begins with the
      message's own start. */
  ghost predicate Snaps(log: seq<Row>, snapshot: Snapshot) {
    && (forall r :: r in snapshot.chunks <==> r in log && r.valid && r.id <= snapshot.cursor)
    && (forall i, j | 0 <= i < j < |snapshot.chunks| :: snapshot.chunks[i].id < snapshot.chunks[j].id)
    && (forall messageId :: Names(snapshot.open, messageId) <==> LeftOpen(snapshot.chunks, messageId))
    && (snapshot.open.Some? ==> forall more | InOrder(log + more) :: OpensTail(log + more, snapshot.open.value))
  }

  lemma TheSnapshotSnaps(log: seq<Row>)
    requires InOrder(log)
    ensures Snaps(log, Snapshot(SnapshotRows(log), Boundary(log), ScanOf(SnapshotRows(log)).open))
  {
    RowsUpTo(log, Boundary(log));
    ValidRows(UpTo(log, Boundary(log)));
    forall messageId ensures Names(ScanOf(SnapshotRows(log)).open, messageId) <==> LeftOpen(SnapshotRows(log), messageId) {
      OpenExactly(SnapshotRows(log), messageId);
    }
    if ScanOf(SnapshotRows(log)).open.Some? {
      forall more | InOrder(log + more) ensures OpensTail(log + more, ScanOf(SnapshotRows(log)).open.value) {
        SnapshotMeetsItsStart(log, more);
      }
    }
  }

  method FetchSnapshot(log: seq<Row>) returns (snapshot: Snapshot)
    requires InOrder(log)
    ensures snapshot == Snapshot(SnapshotRows(log), Boundary(log), ScanOf(SnapshotRows(log)).open)
    ensures Snaps(log, snapshot)
  {
    var boundary := Boundary(log);
    var rows := UpTo(log, boundary);
    TheSnapshotSnaps(log);
    if boundary == 0 {
      assert rows == [];
      return Snapshot([], 0, None);
    }
    var entries := [];
    for i := 0 to |rows|
      invariant entries == Valid(rows[..i])
    {
      assert rows[..i + 1][..i] == rows[..i];
      if !rows[i].valid {
        continue;
      }
      entries := entries + [rows[i]];
    }
    assert rows[..|rows|] == rows;
    var open := OpenMessageOf(entries);
    snapshot := Snapshot(entries, boundary, open);
  }

  /** The row that opened the message: the first valid one after the open message's cursor. */
  ghost predicate OpenedBy(log: seq<Row>, open: OpenMessage, i: nat) {
    && i < |log| && log[i].valid && log[i].entry == Start(Some(open.messageId))
    && open.after < log[i].id
    && forall j | 0 <= j < i && log[j].valid :: log[j].id <= open.after
  }

  lemma {:induction false} PreviousMeans(log: seq<Row>)
    requires InOrder(log)
    ensures forall i | 0 <= i < |log| && log[i].valid :: log[i].id <= ScanOf(Valid(log)).previous
    ensures ScanOf(Valid(log)).previous == 0 || exists i | 0 <= i < |log| :: log[i].id == ScanOf(Valid(log)).previous
  {
    if log != [] {
      var front, last := log[..|log| - 1], log[|log| - 1];
      PreviousMeans(front);
      if last.valid {
        assert Valid(log)[..|Valid(log)| - 1] == Valid(front);
        assert log[|log| - 1].id == ScanOf(Valid(log)).previous;
        forall i | 0 <= i < |log| ensures log[i].id <= last.id { }
      } else if ScanOf(Valid(front)).previous > 0 {
        var i :| 0 <= i < |front| && front[i].id == ScanOf(Valid(front)).previous;
        assert log[i] == front[i];
      }
    }
  }

  /** A message left open was opened by the first valid row after its cursor. */
  lemma {:induction false} OpenMeans(log: seq<Row>) returns (i: nat)
    requires InOrder(log) && ScanOf(Valid(log)).open.Some?
    ensures OpenedBy(log, ScanOf(Valid(log)).open.value, i)
  {
    var front, last := log[..|log| - 1], log[|log| - 1];
    if last.valid { assert Valid(log)[..|Valid(log)| - 1] == Valid(front); }
    var before := ScanOf(Valid(front));
    if before.open == ScanOf(Valid(log)).open {
      i := OpenMeans(front);
      assert log[i] == front[i];
    } else {
      i := |log| - 1;
      PreviousMeans(front);
      if before.previous > 0 {
        var j :| 0 <= j < |front| && front[j].id == before.previous;
        assert log[j].id < log[i].id;
      }
    }
  }

  /** The tail after an open message's cursor begins with that message's own start, however much the log
      has grown. */
  lemma TailMeetsItsStart(log: seq<Row>, more: seq<Row>)
    requires InOrder(log + more) && ScanOf(Valid(log)).open.Some?
    ensures var open := ScanOf(Valid(log)).open.value;
            var tail := Tail(log + more, open.after);
            tail != [] && tail[0].entry == Start(Some(open.messageId))
  {
    var all := log + more;
    InOrderPart(log, more);
    var open := ScanOf(Valid(log)).open.value;
    var i := OpenMeans(log);
    assert forall j | 0 <= j <= i :: all[j] == log[j];
    FirstFramed(all, open.after, i);
  }

  /** The first valid row after a cursor, if it is framed, is the first of the tail. */
  lemma FirstFramed(log: seq<Row>, cursor: nat, i: nat)
    requires InOrder(log) && i < |log| && Framed(log[i]) && cursor < log[i].id
    requires forall j | 0 <= j < i && log[j].valid :: log[j].id <= cursor
    ensures Tail(log, cursor) != [] && Tail(log, cursor)[0] == log[i]
  {
    var k := Count(log, cursor);
    assert k <= i;
    var before, rest := log[k..i], log[i + 1..];
    NothingFramed(before);
    WireOfConcat(before, [log[i]] + rest);
    assert After(log, cursor) == before + ([log[i]] + rest);
    assert ([log[i]] + rest)[0] == log[i];
  }

  lemma {:induction false} NothingFramed(rows: seq<Row>)
    requires forall r <- rows :: !r.valid
    ensures Wire(rows) == []
  {
    if rows != [] {
      assert rows[0] in rows;
      NothingFramed(rows[1..]);
    }
  }
}
