/** Which texts are frames, and what comes of a stream that holds one that is not. */
module FrameReadings {
  import opened Wrappers
  import opened Frames
  import D = Digest

  // One frame.

  predicate Of(field: string, line: string) { field <= line }

  /** A line of an event: its cursor in digits, or its payload. */
  predicate FieldLine(line: string) { if Of(ID_FIELD, line) then IsDecimal(line[|ID_FIELD|..]) else Of(DATA_FIELD, line) }

  ghost predicate LastOf(lines: seq<string>, i: nat, field: string) {
    i < |lines| && Of(field, lines[i]) && forall j | i < j < |lines| :: !Of(field, lines[j])
  }

  ghost predicate SomeOf(lines: seq<string>, field: string) { exists line <- lines :: Of(field, line) }

  /** What a field of an event says: nothing, or what its last line says. */
  ghost predicate SaysId(lines: seq<string>, said: Option<nat>) {
    if said.Some? then exists i: nat :: LastOf(lines, i, ID_FIELD) && LastId(lines, i) == said else !SomeOf(lines, ID_FIELD)
  }

  function LastId(lines: seq<string>, i: nat): Option<nat> {
    if i < |lines| && Of(ID_FIELD, lines[i]) && IsDecimal(lines[i][|ID_FIELD|..]) then Some(ParseDecimal(lines[i][|ID_FIELD|..])) else None
  }

  ghost predicate SaysData(lines: seq<string>, said: Option<string>) {
    if said.Some? then exists i: nat :: LastOf(lines, i, DATA_FIELD) && lines[i] == DATA_FIELD + said.value else !SomeOf(lines, DATA_FIELD)
  }

  ghost predicate FieldsSay(lines: seq<string>, fields: Fields) {
    match fields
    case Malformed => exists line <- lines :: !FieldLine(line)
    case Fields(eventId, data) => (forall line <- lines :: FieldLine(line)) && SaysId(lines, eventId) && SaysData(lines, data)
  }

  lemma OneField(line: string)
    ensures !(Of(ID_FIELD, line) && Of(DATA_FIELD, line))
  {
    if Of(ID_FIELD, line) { assert line[0] == 'i'; }
    if Of(DATA_FIELD, line) { assert line[0] == 'd'; }
  }

  lemma SomeNext(front: seq<string>, line: string, field: string)
    ensures SomeOf(front + [line], field) <==> SomeOf(front, field) || Of(field, line)
    ensures Of(field, line) ==> LastOf(front + [line], |front|, field)
    ensures forall i: nat | LastOf(front, i, field) && !Of(field, line) :: LastOf(front + [line], i, field)
  {
    assert forall other :: other in front + [line] <==> other in front || other == line;
  }

  lemma IdNext(front: seq<string>, line: string, said: Option<nat>)
    requires SaysId(front, said) && FieldLine(line)
    ensures SaysId(front + [line], if Of(ID_FIELD, line) then Some(ParseDecimal(line[|ID_FIELD|..])) else said)
  {
    var lines := front + [line];
    SomeNext(front, line, ID_FIELD);
    if Of(ID_FIELD, line) {
      assert LastOf(lines, |front|, ID_FIELD) && lines[|front|] == line;
    } else if said.Some? {
      var i: nat :| LastOf(front, i, ID_FIELD) && LastId(front, i) == said;
      assert LastOf(lines, i, ID_FIELD) && LastId(lines, i) == said;
    }
  }

  lemma DataNext(front: seq<string>, line: string, said: Option<string>)
    requires SaysData(front, said) && FieldLine(line)
    ensures SaysData(front + [line], if Of(ID_FIELD, line) then said else Some(line[|DATA_FIELD|..]))
  {
    var lines := front + [line];
    OneField(line);
    SomeNext(front, line, DATA_FIELD);
    if !Of(ID_FIELD, line) {
      assert LastOf(lines, |front|, DATA_FIELD) && lines[|front|] == line == DATA_FIELD + line[|DATA_FIELD|..];
    } else if said.Some? {
      var i: nat :| LastOf(front, i, DATA_FIELD) && front[i] == DATA_FIELD + said.value;
      assert LastOf(lines, i, DATA_FIELD) && lines[i] == front[i];
    }
  }

  lemma {:induction false} LinesSay(lines: seq<string>)
    ensures FieldsSay(lines, LinesRead(lines))
  {
    if lines != [] {
      var front, line := lines[..|lines| - 1], lines[|lines| - 1];
      LinesSay(front);
      assert lines == front + [line];
      assert forall other :: other in lines <==> other in front || other == line;
      if LinesRead(front).Fields? && FieldLine(line) {
        IdNext(front, line, LinesRead(front).eventId);
        DataNext(front, line, LinesRead(front).data);
      }
    }
  }

  /** A frame of these lines. */
  ghost predicate FrameOfLines(raw: string, lines: seq<string>) {
    lines != [] && (forall line <- lines :: '\n' !in line) && raw == D.Joined(lines, "\n") + FRAME_TERMINATOR
  }

  /** A frame is a comment where every line is one; an event where every line is a field and both fields are there,
      with what the last line of each says; and refused with its text otherwise. */
  lemma ParsedExactly(raw: string, lines: seq<string>)
    requires FrameOfLines(raw, lines)
    ensures if forall line <- lines :: CommentLine(line) then Parsed(raw) == Success(Frame(raw, None, None))
            else if (forall line <- lines :: FieldLine(line)) && SomeOf(lines, ID_FIELD) && SomeOf(lines, DATA_FIELD)
            then Parsed(raw).Success? && Parsed(raw).value.raw == raw && Parsed(raw).value.eventId.Some? && Parsed(raw).value.data.Some? &&
                 SaysId(lines, Parsed(raw).value.eventId) && SaysData(lines, Parsed(raw).value.data)
            else Parsed(raw) == Failure(raw)
  {
    LinesOfFrame(raw, lines);
    LinesSay(lines);
    if LinesRead(lines).Fields? {
      NoneOrSome(lines, LinesRead(lines));
    }
  }

  lemma LinesOfFrame(raw: string, lines: seq<string>)
    requires FrameOfLines(raw, lines)
    ensures Ends(raw, FRAME_TERMINATOR) && D.Split(raw[..|raw| - |FRAME_TERMINATOR|], '\n') == lines
  {
    D.SplitUndoesJoined(lines, '\n');
    assert raw[..|raw| - |FRAME_TERMINATOR|] == D.Joined(lines, "\n");
  }

  lemma NoneOrSome(lines: seq<string>, fields: Fields)
    requires FieldsSay(lines, fields) && fields.Fields?
    ensures fields.eventId.Some? <==> SomeOf(lines, ID_FIELD)
    ensures fields.data.Some? <==> SomeOf(lines, DATA_FIELD)
  {
    if fields.eventId.Some? {
      var i: nat :| LastOf(lines, i, ID_FIELD);
      assert lines[i] in lines;
    }
    if fields.data.Some? {
      var i: nat :| LastOf(lines, i, DATA_FIELD);
      assert lines[i] in lines;
    }
  }

  lemma {:induction false} JoinedUndoesSplit(text: string)
    ensures D.Joined(D.Split(text, '\n'), "\n") == text
    decreases |text|
  {
    var i := D.IndexOf(text, '\n');
    if i < |text| {
      JoinedUndoesSplit(text[i + 1..]);
      assert text == text[..i] + "\n" + text[i + 1..];
    }
  }

  /** Every text that ends in an empty line is a frame of some lines, and no other text is a frame. */
  lemma FrameHasLines(raw: string) returns (lines: seq<string>)
    ensures Ends(raw, FRAME_TERMINATOR) ==> FrameOfLines(raw, lines)
    ensures !Ends(raw, FRAME_TERMINATOR) ==> Parsed(raw) == Failure(raw)
  {
    lines := [];
    if Ends(raw, FRAME_TERMINATOR) {
      var body := raw[..|raw| - |FRAME_TERMINATOR|];
      lines := D.Split(body, '\n');
      JoinedUndoesSplit(body);
      assert raw == body + raw[|raw| - |FRAME_TERMINATOR|..];
    }
  }

  // A stream.

  predicate Break(text: string, i: nat) { i + 1 < |text| && text[i] == '\n' && text[i + 1] == '\n' }

  /** A text whose only empty line ends it. */
  predicate OneFrame(raw: string) { |raw| >= 2 && Break(raw, |raw| - 2) && forall i: nat | i < |raw| - 2 :: !Break(raw, i) }

  /** A text no empty line ends yet. */
  predicate Unfinished(text: string) { forall i: nat | i < |text| :: !Break(text, i) }

  function Whole(raws: seq<string>, rest: string): string {
    if raws == [] then rest else raws[0] + Whole(raws[1..], rest)
  }

  lemma {:induction false} BoundaryIsFirst(text: string)
    ensures var at := Boundary(text);
            && (at < |text| ==> Break(text, at))
            && forall i: nat | i < at :: !Break(text, i)
  {
    if text != "" {
      var at := Boundary(text);
      assert Break(text, 0) <==> FRAME_TERMINATOR <= text;
      if !(FRAME_TERMINATOR <= text) {
        BoundaryIsFirst(text[1..]);
        assert forall i: nat | 0 < i :: Break(text, i) <==> Break(text[1..], i - 1);
      }
    }
  }

  lemma BoundaryOfFrame(raw: string, more: string)
    requires OneFrame(raw)
    ensures Boundary(raw + more) == |raw| - 2 < |raw + more|
  {
    var text := raw + more;
    BoundaryIsFirst(text);
    assert Break(text, |raw| - 2);
    assert forall i: nat | i < |raw| - 2 :: Break(text, i) <==> Break(raw, i);
    var at := Boundary(text);
  }

  lemma BoundaryOfRest(rest: string)
    requires Unfinished(rest)
    ensures Boundary(rest) == |rest|
  {
    BoundaryIsFirst(rest);
  }

  /** What is delivered when the frames before `bad` parse and that one does not, if there is one. */
  ghost predicate Delivers(d: Delivery, raws: seq<string>, rest: string, allowTruncatedTail: bool, bad: nat) {
    && bad == |d.frames| <= |raws| && (forall i | 0 <= i < bad :: Parsed(raws[i]) == Success(d.frames[i]))
    && if bad < |raws| then Parsed(raws[bad]).Failure? && d.malformed == Some(raws[bad])
       else d.malformed == if rest != "" && !allowTruncatedTail then Some(rest) else None
  }

  ghost predicate Reads(reading: Reading, raws: seq<string>, rest: string) {
    var bad := |reading.frames|;
    && bad <= |raws| && (forall i | 0 <= i < bad :: Parsed(raws[i]) == Success(reading.frames[i]))
    && if bad < |raws| then Parsed(raws[bad]).Failure? && reading.malformed == Some(raws[bad])
       else reading.malformed == None && reading.rest == rest
  }

  lemma FailureIsItsText(raw: string)
    ensures Parsed(raw).Failure? ==> Parsed(raw) == Failure(raw)
  {
  }

  lemma ReadsOneMore(frame: Result<Frame, string>, raw: string, more: Reading, raws: seq<string>, rest: string)
    requires Reads(more, raws, rest) && frame == Parsed(raw) && (frame.Failure? ==> frame == Failure(raw))
    ensures Reads(Then(frame, more), [raw] + raws, rest)
  {
    var all, reading := [raw] + raws, Then(frame, more);
    assert forall i | 0 < i < |all| :: all[i] == raws[i - 1];
    if frame.Success? {
      assert forall i | 0 < i < |reading.frames| :: reading.frames[i] == more.frames[i - 1];
    }
  }

  lemma {:induction false} WholeReads(raws: seq<string>, rest: string)
    requires (forall raw <- raws :: OneFrame(raw)) && Unfinished(rest)
    ensures Reads(Read(Whole(raws, rest), Parsed), raws, rest)
  {
    if raws == [] {
      BoundaryOfRest(rest);
      ReadEnd(rest, Parsed);
    } else {
      var raw, more := raws[0], Whole(raws[1..], rest);
      BoundaryOfFrame(raw, more);
      ReadStep(raw + more, raw, more, Parsed);
      WholeReads(raws[1..], rest);
      FailureIsItsText(raw);
      ReadsOneMore(Parsed(raw), raw, Read(more, Parsed), raws[1..], rest);
      assert [raw] + raws[1..] == raws;
    }
  }

  lemma {:induction false} Divided(text: string) returns (raws: seq<string>, rest: string)
    ensures text == Whole(raws, rest) && (forall raw <- raws :: OneFrame(raw)) && Unfinished(rest)
    decreases |text|
  {
    var at := Boundary(text);
    BoundaryIsFirst(text);
    if at == |text| {
      raws, rest := [], text;
    } else {
      var raw, more := text[..at + 2], text[at + 2..];
      assert forall i: nat | i <= at :: Break(raw, i) <==> Break(text, i);
      var others, last := Divided(more);
      raws, rest := [raw] + others, last;
      assert raws[1..] == others && text == raw + more;
    }
  }

  /** Any text is cut at its empty lines, in one way. The pieces are delivered as frames up to the first that is none, which ends
      the reading with its text; else what no empty line ends is an error too, where no truncated tail is allowed. */
  lemma DeliveredExactly(text: string, allowTruncatedTail: bool) returns (raws: seq<string>, rest: string, bad: nat)
    ensures text == Whole(raws, rest) && (forall raw <- raws :: OneFrame(raw)) && Unfinished(rest)
    ensures Delivers(Delivered(text, allowTruncatedTail), raws, rest, allowTruncatedTail, bad)
  {
    raws, rest := Divided(text);
    WholeReads(raws, rest);
    bad := |Read(text, Parsed).frames|;
  }
}
