/** The frames a conversation's events travel in: a strict part of server-sent events. */
module Frames {
  import opened Wrappers
  import D = Digest

  const ID_FIELD := "id: "
  const DATA_FIELD := "data: "
  const FRAME_TERMINATOR := "\n\n"

  /** A frame: its cursor and payload, or neither where it is a comment. */
  datatype Frame = Frame(raw: string, eventId: Option<nat>, data: Option<string>)

  // Decimals.

  function Digit(n: nat): char
    requires n < 10
  {
    '0' + n as char
  }

  predicate IsDigit(c: char) { '0' <= c <= '9' }

  function Decimal(n: nat): (text: string)
    ensures text != ""
  {
    if n < 10 then [Digit(n)] else Decimal(n / 10) + [Digit(n % 10)]
  }

  predicate IsDecimal(text: string) { text != "" && forall c <- text :: IsDigit(c) }

  function ParseDecimal(text: string): nat
    requires forall c <- text :: IsDigit(c)
  {
    if text == "" then 0
    else
      var last := text[|text| - 1];
      assert IsDigit(last);
      ParseDecimal(text[..|text| - 1]) * 10 + (last as nat - '0' as nat)
  }

  lemma {:induction false} ParseUndoesDecimal(n: nat)
    ensures IsDecimal(Decimal(n)) && ParseDecimal(Decimal(n)) == n && '\n' !in Decimal(n)
  {
    if n >= 10 {
      ParseUndoesDecimal(n / 10);
      assert Decimal(n)[..|Decimal(n)| - 1] == Decimal(n / 10);
    } else {
      assert Decimal(n)[..0] == "";
    }
  }

  function FrameText(eventId: nat, data: string): string {
    ID_FIELD + Decimal(eventId) + "\n" + DATA_FIELD + data + FRAME_TERMINATOR
  }

  // One frame.

  /** What a frame's lines have said so far, or that one of them is neither field. */
  datatype Fields = Fields(eventId: Option<nat>, data: Option<string>) | Malformed

  function LineRead(fields: Fields, line: string): Fields {
    if fields.Malformed? then Malformed
    else if ID_FIELD <= line then
      var cursor := line[|ID_FIELD|..];
      if IsDecimal(cursor) then fields.(eventId := Some(ParseDecimal(cursor))) else Malformed
    else if DATA_FIELD <= line then fields.(data := Some(line[|DATA_FIELD|..]))
    else Malformed
  }

  function LinesRead(lines: seq<string>): Fields {
    if lines == [] then Fields(None, None) else LineRead(LinesRead(lines[..|lines| - 1]), lines[|lines| - 1])
  }

  predicate CommentLine(line: string) { ":" <= line }

  predicate Ends(text: string, ending: string) { |ending| <= |text| && text[|text| - |ending|..] == ending }

  /** A frame read, or the text that is none. */
  function Parsed(raw: string): Result<Frame, string> {
    if !Ends(raw, FRAME_TERMINATOR) then Failure(raw)
    else
      var lines := D.Split(raw[..|raw| - |FRAME_TERMINATOR|], '\n');
      if forall line <- lines :: CommentLine(line) then Success(Frame(raw, None, None))
      else
        match LinesRead(lines)
        case Fields(Some(eventId), Some(data)) => Success(Frame(raw, Some(eventId), Some(data)))
        case _ => Failure(raw)
  }

  method ParseFrame(raw: string) returns (result: Result<Frame, string>)
    ensures result == Parsed(raw)
  {
    if !Ends(raw, FRAME_TERMINATOR) {
      return Failure(raw);
    }
    var lines := D.Split(raw[..|raw| - |FRAME_TERMINATOR|], '\n');
    if forall line <- lines :: CommentLine(line) {
      return Success(Frame(raw, None, None));
    }
    var eventId, data := None, None;
    for i := 0 to |lines|
      invariant LinesRead(lines[..i]) == Fields(eventId, data)
    {
      assert lines[..i + 1][..i] == lines[..i];
      var line := lines[i];
      if ID_FIELD <= line {
        var cursor := line[|ID_FIELD|..];
        if !IsDecimal(cursor) {
          StaysMalformed(lines, i + 1);
          return Failure(raw);
        }
        eventId := Some(ParseDecimal(cursor));
      } else if DATA_FIELD <= line {
        data := Some(line[|DATA_FIELD|..]);
      } else {
        StaysMalformed(lines, i + 1);
        return Failure(raw);
      }
    }
    assert lines[..|lines|] == lines;
    if eventId.None? || data.None? {
      return Failure(raw);
    }
    result := Success(Frame(raw, eventId, data));
  }

  lemma {:induction false} StaysMalformed(lines: seq<string>, i: nat)
    requires i <= |lines| && LinesRead(lines[..i]) == Malformed
    ensures LinesRead(lines) == Malformed
    decreases |lines| - i
  {
    if i == |lines| {
      assert lines[..i] == lines;
    } else {
      assert lines[..i + 1][..i] == lines[..i];
      StaysMalformed(lines, i + 1);
    }
  }

  // A stream of frames.

  /** Where the first terminator stands: the length when there is none. */
  function Boundary(text: string): (at: nat)
    ensures at <= |text| && (at < |text| ==> at + 2 <= |text|)
  {
    if text == "" then 0
    else if FRAME_TERMINATOR <= text then 0
    else
      var at := Boundary(text[1..]);
      if at == |text| - 1 then |text| else at + 1
  }

  /** The frames a text holds, the rest no terminator ends yet, and the first frame that is none. */
  datatype Reading = Reading(frames: seq<Frame>, rest: string, malformed: Option<string>)

  type Parser = string -> Result<Frame, string>

  function Then(first: Result<Frame, string>, more: Reading): Reading {
    match first
    case Failure(raw) => Reading([], "", Some(raw))
    case Success(frame) => Reading([frame] + more.frames, more.rest, more.malformed)
  }

  function Read(text: string, parse: Parser): Reading
    decreases |text|
  {
    var at := Boundary(text);
    if at == |text| then Reading([], text, None) else Then(parse(text[..at + 2]), Read(text[at + 2..], parse))
  }

  /** The frames delivered, and what the reader raises at the end, if anything. */
  datatype Delivery = Delivery(frames: seq<Frame>, malformed: Option<string>)

  function Delivered(text: string, allowTruncatedTail: bool): Delivery {
    var reading := Read(text, Parsed);
    if reading.malformed.None? && reading.rest != "" && !allowTruncatedTail
    then Delivery(reading.frames, Some(reading.rest)) else Delivery(reading.frames, reading.malformed)
  }

  function Flattened(chunks: seq<string>): string {
    if chunks == [] then "" else Flattened(chunks[..|chunks| - 1]) + chunks[|chunks| - 1]
  }

  method TakeFrame(buffer: string, boundary: nat) returns (frame: Result<Frame, string>, rest: string)
    requires boundary == Boundary(buffer) < |buffer|
    ensures Read(buffer, Parsed) == Then(frame, Read(rest, Parsed)) && |rest| < |buffer|
  {
    var raw := buffer[..boundary + 2];
    rest := buffer[boundary + 2..];
    ReadStep(buffer, raw, rest, Parsed);
    frame := ParseFrame(raw);
  }

  method TakeFrames(text: string) returns (reading: Reading)
    ensures reading == Read(text, Parsed)
  {
    var frames: seq<Frame>, buffer := [], text;
    var boundary := Boundary(buffer);
    AfterNone(Read(text, Parsed));
    while boundary < |buffer|
      invariant boundary == Boundary(buffer)
      invariant Read(text, Parsed) == After(frames, Read(buffer, Parsed))
      decreases |buffer|
    {
      var frame, rest := TakeFrame(buffer, boundary);
      AfterThen(frames, frame, Read(rest, Parsed));
      if frame.Failure? {
        return Reading(frames, "", Some(frame.error));
      }
      frames, buffer := frames + [frame.value], rest;
      boundary := Boundary(buffer);
    }
    ReadEnd(buffer, Parsed);
    AfterEnd(frames, buffer);
    reading := Reading(frames, buffer, None);
  }

  lemma AfterNone(more: Reading)
    ensures After([], more) == more
  {
  }

  lemma AfterEnd(frames: seq<Frame>, rest: string)
    ensures After(frames, Reading([], rest, None)) == Reading(frames, rest, None)
  {
  }

  lemma ReadEnd(text: string, parse: Parser)
    requires Boundary(text) == |text|
    ensures Read(text, parse) == Reading([], text, None)
  {
  }

  lemma AfterThen(frames: seq<Frame>, first: Result<Frame, string>, more: Reading)
    ensures After(frames, Then(first, more)) ==
            match first
            case Failure(raw) => Reading(frames, "", Some(raw))
            case Success(frame) => After(frames + [frame], more)
  {
    if first.Success? {
      assert frames + ([first.value] + more.frames) == frames + [first.value] + more.frames;
    } else {
      assert frames + Then(first, more).frames == frames;
    }
  }

  function After(frames: seq<Frame>, more: Reading): Reading { more.(frames := frames + more.frames) }

  /** However the text is cut into chunks, the same frames come of it and the same error ends it. */
  method ReadFrames(chunks: seq<string>, allowTruncatedTail: bool) returns (delivery: Delivery)
    ensures delivery == Delivered(Flattened(chunks), allowTruncatedTail)
  {
    var frames: seq<Frame>, buffer := [], "";
    for i := 0 to |chunks|
      invariant Read(Flattened(chunks[..i]), Parsed) == Reading(frames, buffer, None)
    {
      assert chunks[..i + 1][..i] == chunks[..i];
      ReadOn(Flattened(chunks[..i]), chunks[i], Parsed);
      var more := TakeFrames(buffer + chunks[i]);
      frames, buffer := frames + more.frames, more.rest;
      if more.malformed.Some? {
        RaisedStays(chunks, i + 1, Parsed);
        return Delivery(frames, more.malformed);
      }
    }
    assert chunks[..|chunks|] == chunks;
    if |buffer| > 0 && !allowTruncatedTail {
      return Delivery(frames, Some(buffer));
    }
    delivery := Delivery(frames, None);
  }

  lemma {:induction false} BoundaryHolds(text: string, more: string)
    requires Boundary(text) < |text|
    ensures Boundary(text + more) == Boundary(text)
  {
    if FRAME_TERMINATOR <= text {
      assert FRAME_TERMINATOR <= text + more;
    } else {
      assert (text + more)[0] == text[0] && (text + more)[1] == text[1];
      BoundaryHolds(text[1..], more);
      assert (text + more)[1..] == text[1..] + more;
    }
  }

  /** Reading on from what no terminator ended is reading the whole. */
  lemma {:induction false} ReadOn(text: string, more: string, parse: Parser)
    ensures var before := Read(text, parse);
            Read(text + more, parse) ==
            if before.malformed.Some? then before else After(before.frames, Read(before.rest + more, parse))
    decreases |text|
  {
    var at := Boundary(text);
    if at < |text| {
      var first, rest := text[..at + 2], text[at + 2..];
      BoundaryHolds(text, more);
      ReadStep(text, first, rest, parse);
      assert text + more == first + (rest + more);
      ReadStep(text + more, first, rest + more, parse);
      ReadOn(rest, more, parse);
      var before := Read(rest, parse);
      ThenAfter(parse(first), before, Read(before.rest + more, parse));
    } else {
      assert Read(text, parse) == Reading([], text, None);
    }
  }

  lemma ThenAfter(first: Result<Frame, string>, before: Reading, after: Reading)
    ensures Then(first, if before.malformed.Some? then before else After(before.frames, after)) ==
            var all := Then(first, before); if all.malformed.Some? then all else After(all.frames, after)
  {
  }

  lemma ReadStep(text: string, first: string, rest: string, parse: Parser)
    requires Boundary(text) < |text| && |first| == Boundary(text) + 2 && text == first + rest
    ensures Read(text, parse) == Then(parse(first), Read(rest, parse))
  {
    assert text[..|first|] == first && text[|first|..] == rest;
  }

  lemma {:induction false} RaisedStays(chunks: seq<string>, i: nat, parse: Parser)
    requires i <= |chunks| && Read(Flattened(chunks[..i]), parse).malformed.Some?
    ensures Read(Flattened(chunks), parse) == Read(Flattened(chunks[..i]), parse)
    decreases |chunks| - i
  {
    if i == |chunks| {
      assert chunks[..i] == chunks;
    } else {
      assert chunks[..i + 1][..i] == chunks[..i];
      ReadOn(Flattened(chunks[..i]), chunks[i], parse);
      RaisedStays(chunks, i + 1, parse);
    }
  }

  // Nothing is lost.

  function Raws(frames: seq<Frame>): string {
    if frames == [] then "" else frames[0].raw + Raws(frames[1..])
  }

  lemma CoverStep(first: string, frame: Frame, more: Reading, rest: string)
    requires frame.raw == first && Raws(more.frames) + more.rest == rest
    ensures Raws([frame] + more.frames) + more.rest == first + rest
  {
    assert ([frame] + more.frames)[1..] == more.frames;
    assert first + Raws(more.frames) + more.rest == first + (Raws(more.frames) + more.rest);
  }

  lemma {:induction false} FramesCover(text: string, parse: Parser)
    requires Read(text, parse).malformed.None?
    requires forall raw :: parse(raw).Success? ==> parse(raw).value.raw == raw
    ensures Raws(Read(text, parse).frames) + Read(text, parse).rest == text
    decreases |text|
  {
    var at := Boundary(text);
    if at < |text| {
      var first, rest := text[..at + 2], text[at + 2..];
      ReadStep(text, first, rest, parse);
      FramesCover(rest, parse);
      CoverStep(first, parse(first).value, Read(rest, parse), rest);
    }
  }

  /** The frames' own texts and the rest are the text, where nothing is malformed. */
  lemma FramesCoverTheText(text: string)
    requires Read(text, Parsed).malformed.None?
    ensures Raws(Read(text, Parsed).frames) + Read(text, Parsed).rest == text
  {
    FramesCover(text, Parsed);
  }

  // What was written is what is read.

  datatype Written = Event(eventId: nat, data: string) | Comment(lines: seq<string>)

  predicate Wire(w: Written) {
    match w
    case Event(_, data) => '\n' !in data
    case Comment(lines) => lines != [] && forall line <- lines :: CommentLine(line) && '\n' !in line
  }

  /** The lines a written frame is made of. */
  function Lines(w: Written): (lines: seq<string>)
    requires Wire(w)
    ensures lines != []
  {
    match w
    case Event(eventId, data) => [ID_FIELD + Decimal(eventId), DATA_FIELD + data]
    case Comment(lines) => lines
  }

  function Text(w: Written): string
    requires Wire(w)
  {
    match w
    case Event(eventId, data) => FrameText(eventId, data)
    case Comment(lines) => D.Joined(lines, "\n") + FRAME_TERMINATOR
  }

  function FrameOf(w: Written): Frame
    requires Wire(w)
  {
    match w
    case Event(eventId, data) => Frame(Text(w), Some(eventId), Some(data))
    case Comment(_) => Frame(Text(w), None, None)
  }

  function Texts(ws: seq<Written>): string
    requires forall w <- ws :: Wire(w)
  {
    if ws == [] then "" else Text(ws[0]) + Texts(ws[1..])
  }

  function FramesOf(ws: seq<Written>): seq<Frame>
    requires forall w <- ws :: Wire(w)
  {
    if ws == [] then [] else [FrameOf(ws[0])] + FramesOf(ws[1..])
  }

  predicate Line(line: string) { line != "" && '\n' !in line }

  lemma LinesAreLines(w: Written)
    requires Wire(w)
    ensures forall line <- Lines(w) :: Line(line)
    ensures Text(w) == D.Joined(Lines(w), "\n") + FRAME_TERMINATOR
  {
    if w.Event? {
      ParseUndoesDecimal(w.eventId);
      var first, second := ID_FIELD + Decimal(w.eventId), DATA_FIELD + w.data;
      assert Lines(w)[1..] == [second] && D.Joined([second], "\n") == second;
      assert D.Joined(Lines(w), "\n") == first + "\n" + second;
      assert ID_FIELD + Decimal(w.eventId) + "\n" + DATA_FIELD + w.data + FRAME_TERMINATOR ==
             first + "\n" + second + FRAME_TERMINATOR;
    }
  }

  /** No terminator stands before a joined text's own. */
  lemma {:induction false} BoundaryOfLine(line: string, more: string)
    requires '\n' !in line && (more == "" || more[0] != '\n')
    ensures line != "" ==> Boundary(line + FRAME_TERMINATOR + more) == |line|
  {
    var text := line + FRAME_TERMINATOR + more;
    if line != "" {
      assert text[0] == line[0] && line[0] in line;
      assert text[1..] == line[1..] + FRAME_TERMINATOR + more;
      if |line| == 1 {
        assert text[1..][..2] == FRAME_TERMINATOR && FRAME_TERMINATOR <= text[1..];
      } else {
        BoundaryOfLine(line[1..], more);
      }
    }
  }

  /** The joined lines of a frame hold no terminator of their own. */
  lemma {:induction false} BoundaryOfLines(lines: seq<string>, more: string)
    requires lines != [] && (forall line <- lines :: Line(line)) && (more == "" || more[0] != '\n')
    ensures var text := D.Joined(lines, "\n"); Boundary(text + FRAME_TERMINATOR + more) == |text|
  {
    var first, text := lines[0], D.Joined(lines, "\n");
    assert Line(first);
    if |lines| == 1 {
      BoundaryOfLine(first, more);
    } else {
      var rest := D.Joined(lines[1..], "\n");
      BoundaryOfLines(lines[1..], more);
      assert text + FRAME_TERMINATOR + more == first + "\n" + (rest + FRAME_TERMINATOR + more);
      JoinedStarts(lines[1..]);
      BoundaryPastLine(first, rest + FRAME_TERMINATOR + more);
    }
  }

  lemma JoinedStarts(lines: seq<string>)
    requires lines != [] && Line(lines[0])
    ensures D.Joined(lines, "\n") != "" && D.Joined(lines, "\n")[0] == lines[0][0] != '\n'
  {
    assert lines[0][0] in lines[0];
  }

  lemma {:induction false} BoundaryPastLine(line: string, more: string)
    requires '\n' !in line && more != "" && more[0] != '\n'
    ensures Boundary(line + "\n" + more) ==
            if Boundary(more) == |more| then |line| + 1 + |more| else |line| + 1 + Boundary(more)
  {
    var text := line + "\n" + more;
    if line == "" {
      assert text[1..] == more && text[1] != '\n';
    } else {
      assert text[0] == line[0] && line[0] in line;
      BoundaryPastLine(line[1..], more);
      assert text[1..] == line[1..] + "\n" + more;
    }
  }

  lemma FieldsDiffer(text: string)
    ensures !(ID_FIELD <= DATA_FIELD + text) && !CommentLine(ID_FIELD + text) && !CommentLine(DATA_FIELD + text)
  {
    assert (DATA_FIELD + text)[0] == 'd' && (ID_FIELD + text)[0] == 'i';
  }

  lemma EventLinesRead(eventId: nat, data: string)
    ensures LinesRead([ID_FIELD + Decimal(eventId), DATA_FIELD + data]) == Fields(Some(eventId), Some(data))
  {
    var first, second := ID_FIELD + Decimal(eventId), DATA_FIELD + data;
    ParseUndoesDecimal(eventId);
    FieldsDiffer(data);
    assert first[|ID_FIELD|..] == Decimal(eventId) && second[|DATA_FIELD|..] == data;
    var none: seq<string> := [];
    assert [first, second][..1] == [first] && [first][..0] == none;
    assert LinesRead([first]) == LineRead(LinesRead(none), first);
  }

  /** A written frame parses as itself. */
  lemma WrittenParses(w: Written)
    requires Wire(w)
    ensures Parsed(Text(w)) == Success(FrameOf(w))
  {
    LinesAreLines(w);
    var body := D.Joined(Lines(w), "\n");
    assert Text(w)[..|Text(w)| - 2] == body;
    D.SplitUndoesJoined(Lines(w), '\n');
    match w
    case Event(eventId, data) =>
      EventLinesRead(eventId, data);
      FieldsDiffer(Decimal(eventId));
      assert Lines(w)[0] in Lines(w);
    case Comment(lines) =>
  }

  lemma TextStarts(w: Written)
    requires Wire(w)
    ensures Text(w) != "" && Text(w)[0] != '\n'
  {
    LinesAreLines(w);
    assert Lines(w)[0] in Lines(w);
    JoinedStarts(Lines(w));
  }

  /** Reading what was written gives what was written, however it is then cut. */
  lemma {:induction false} ReadingUndoesWriting(ws: seq<Written>, chunks: seq<string>, allowTruncatedTail: bool)
    requires (forall w <- ws :: Wire(w)) && Flattened(chunks) == Texts(ws)
    ensures Delivered(Flattened(chunks), allowTruncatedTail) == Delivery(FramesOf(ws), None)
  {
    forall w <- ws ensures Parsed(Text(w)) == Success(FrameOf(w)) { WrittenParses(w); }
    TextsRead(ws, Parsed);
  }

  lemma BoundaryOfTexts(ws: seq<Written>)
    requires ws != [] && forall w <- ws :: Wire(w)
    ensures |Text(ws[0])| >= 2 && Boundary(Texts(ws)) == |Text(ws[0])| - 2 < |Texts(ws)|
  {
    var w, more := ws[0], Texts(ws[1..]);
    if |ws| > 1 { TextStarts(ws[1]); }
    LinesAreLines(w);
    BoundaryOfLines(Lines(w), more);
    assert Text(w) + more == D.Joined(Lines(w), "\n") + FRAME_TERMINATOR + more;
  }

  lemma {:induction false} TextsRead(ws: seq<Written>, parse: Parser)
    requires forall w <- ws :: Wire(w) && parse(Text(w)) == Success(FrameOf(w))
    ensures Read(Texts(ws), parse) == Reading(FramesOf(ws), "", None)
  {
    if ws != [] {
      var w, more := ws[0], Texts(ws[1..]);
      BoundaryOfTexts(ws);
      ReadStep(Texts(ws), Text(w), more, parse);
      TextsRead(ws[1..], parse);
      assert Read(Texts(ws), parse) == Then(Success(FrameOf(w)), Reading(FramesOf(ws[1..]), "", None));
    }
  }
}
