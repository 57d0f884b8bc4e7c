/** A stream's summaries folded onto its calls by the reducer read as the same summaries left beside. */
module FoldedStreams {
  import opened Wrappers
  import opened Chunks
  import T = TurnReducer
  import D = Digest
  import opened Trace

  // A turn with its calls' lines, and the same turn without.

  function LinedPart(p: T.Part, lines: map<string, T.Line>): T.Part {
    if p.Tool? then p.(line := LineFor(lines, p.call)) else p
  }

  function LinedParts(parts: seq<T.Part>, lines: map<string, T.Line>): seq<T.Part> {
    seq(|parts|, i requires 0 <= i < |parts| => LinedPart(parts[i], lines))
  }

  function LinedTools(tools: map<string, T.Track>, lines: map<string, T.Line>): map<string, T.Track> {
    map call <- tools :: tools[call].(line := LineFor(lines, call))
  }

  /** The turn with each call's line on its track and its part. */
  function Lined(t: T.Turn, lines: map<string, T.Line>): T.Turn {
    t.(parts := LinedParts(t.parts, lines), tools := LinedTools(t.tools, lines))
  }

  /** No line yet, every call one part, and every other index on a part of its kind. */
  predicate Bare(t: T.Turn) {
    && (forall call <- t.tools ::
          && t.tools[call].line == None && t.tools[call].index < |t.parts|
          && t.parts[t.tools[call].index].Tool? && t.parts[t.tools[call].index].call == call)
    && (forall i | 0 <= i < |t.parts| && t.parts[i].Tool? ::
          t.parts[i].line == None && t.parts[i].call in t.tools && t.tools[t.parts[i].call].index == i)
    && (forall key <- t.streams :: t.streams[key] < |t.parts| && t.parts[t.streams[key]].Stream?)
    && (forall key <- t.data :: t.data[key] < |t.parts| && t.parts[t.data[key]].DataPart?)
  }

  predicate OnlyOpenCalls(t: T.Turn, lines: map<string, T.Line>) { lines.Keys <= t.tools.Keys }

  // Each chunk does the same to both.

  lemma AppendedLined(parts: seq<T.Part>, p: T.Part, lines: map<string, T.Line>)
    ensures LinedParts(parts + [p], lines) == LinedParts(parts, lines) + [LinedPart(p, lines)]
  {
  }

  lemma ReplacedLined(parts: seq<T.Part>, at: nat, p: T.Part, lines: map<string, T.Line>)
    requires at < |parts|
    ensures LinedParts(parts[at := p], lines) == LinedParts(parts, lines)[at := LinedPart(p, lines)]
  {
  }

  lemma ToolsLined(tools: map<string, T.Track>, call: string, track: T.Track, lines: map<string, T.Line>)
    ensures LinedTools(tools[call := track], lines) == LinedTools(tools, lines)[call := track.(line := LineFor(lines, call))]
  {
  }

  lemma OpenedBare(t: T.Turn, call: string, tool: string)
    requires Bare(t) && call !in t.tools
    ensures Bare(T.Opened(t, call, tool))
  {
  }

  lemma OpenedLined(t: T.Turn, call: string, tool: string, lines: map<string, T.Line>)
    requires call !in t.tools && OnlyOpenCalls(t, lines)
    ensures T.Opened(Lined(t, lines), call, tool) == Lined(T.Opened(t, call, tool), lines)
  {
    var track := T.Track(|t.parts|, tool, None, "", None, None);
    var p := T.PartOf(track, call, T.InputStreaming(None));
    AppendedLined(t.parts, p, lines);
    ToolsLined(t.tools, call, track, lines);
    assert LinedPart(p, lines) == p && track.(line := LineFor(lines, call)) == track;
  }

  lemma WroteBare(t: T.Turn, call: string, track: T.Track, phase: T.Phase)
    requires Bare(t) && call in t.tools && track.line == None && track.index == t.tools[call].index
    ensures Bare(T.Wrote(t, call, track, phase))
  {
  }

  lemma WroteLinedTurn(t: T.Turn, call: string, track: T.Track, phase: T.Phase, lines: map<string, T.Line>)
    requires track.index < |t.parts|
    ensures T.Wrote(Lined(t, lines), call, track.(line := LineFor(lines, call)), phase) == Lined(T.Wrote(t, call, track, phase), lines)
  {
    var p := T.PartOf(track, call, phase);
    ReplacedLined(t.parts, track.index, p, lines);
    ToolsLined(t.tools, call, track, lines);
  }

  lemma WroteLined(t: T.Turn, call: string, track: T.Track, phase: T.Phase, lines: map<string, T.Line>)
    requires Bare(t) && call in t.tools && track.line == None && track.index == t.tools[call].index
    ensures T.Wrote(Lined(t, lines), call, track.(line := LineFor(lines, call)), phase) == Lined(T.Wrote(t, call, track, phase), lines)
    ensures Bare(T.Wrote(t, call, track, phase))
  {
    WroteBare(t, call, track, phase);
    WroteLinedTurn(t, call, track, phase, lines);
  }

  /** The track of a lined turn is the other's with its line. */
  lemma TrackLined(t: T.Turn, call: string, lines: map<string, T.Line>)
    requires Bare(t)
    ensures call in Lined(t, lines).tools <==> call in t.tools
    ensures call in t.tools ==> Lined(t, lines).tools[call] == t.tools[call].(line := LineFor(lines, call))
  {
  }

  lemma StartLined(t: T.Turn, call: string, tool: string, lines: map<string, T.Line>)
    requires Bare(t) && OnlyOpenCalls(t, lines)
    ensures T.AfterStart(Lined(t, lines), call, tool) == Lined(T.AfterStart(t, call, tool), lines)
    ensures Bare(T.AfterStart(t, call, tool)) && OnlyOpenCalls(T.AfterStart(t, call, tool), lines)
  {
    TrackLined(t, call, lines);
    if call !in t.tools {
      OpenedBare(t, call, tool);
      OpenedLined(t, call, tool, lines);
    }
  }

  lemma InputLined(t: T.Turn, call: string, input: Value, lines: map<string, T.Line>)
    requires Bare(t) && call in t.tools
    ensures T.AfterInput(Lined(t, lines), call, input) == Lined(T.AfterInput(t, call, input), lines) && Bare(T.AfterInput(t, call, input))
  {
    WroteLined(t, call, t.tools[call].(input := Some(input)), T.InputReady(Some(input)), lines);
    TrackLined(t, call, lines);
  }

  lemma DeltaLined(t: T.Turn, call: string, delta: string, lines: map<string, T.Line>)
    requires Bare(t)
    ensures T.AfterInputDelta(Lined(t, lines), call, delta) == Lined(T.AfterInputDelta(t, call, delta), lines)
    ensures Bare(T.AfterInputDelta(t, call, delta))
  {
    TrackLined(t, call, lines);
    if call in t.tools {
      var text := t.tools[call].inputText + delta;
      WroteLined(t, call, t.tools[call].(inputText := text, input := Some(Json(text))), T.InputStreaming(Some(Json(text))), lines);
    }
  }

  lemma InputErrorLined(t: T.Turn, call: string, errorText: string, lines: map<string, T.Line>)
    requires Bare(t)
    ensures T.AfterInputError(Lined(t, lines), call, errorText) == Lined(T.AfterInputError(t, call, errorText), lines)
    ensures Bare(T.AfterInputError(t, call, errorText))
  {
    TrackLined(t, call, lines);
    if call in t.tools {
      WroteLined(t, call, t.tools[call].(input := None), T.Failed(None, errorText, t.tools[call].approval), lines);
    }
  }

  lemma OutputErrorLined(t: T.Turn, call: string, errorText: string, lines: map<string, T.Line>)
    requires Bare(t)
    ensures T.AfterOutputError(Lined(t, lines), call, errorText) == Lined(T.AfterOutputError(t, call, errorText), lines)
    ensures Bare(T.AfterOutputError(t, call, errorText))
  {
    TrackLined(t, call, lines);
    if call in t.tools {
      WroteLined(t, call, t.tools[call], T.Failed(t.tools[call].input, errorText, t.tools[call].approval), lines);
    }
  }

  lemma ApprovalLined(t: T.Turn, call: string, approvalId: string, lines: map<string, T.Line>)
    requires Bare(t)
    ensures T.AfterApprovalRequest(Lined(t, lines), call, approvalId) == Lined(T.AfterApprovalRequest(t, call, approvalId), lines)
    ensures Bare(T.AfterApprovalRequest(t, call, approvalId))
  {
    TrackLined(t, call, lines);
    if call in t.tools {
      WroteLined(t, call, t.tools[call].(approval := Some(approvalId)), T.ApprovalRequested(t.tools[call].input, approvalId), lines);
    }
  }

  lemma DenialLined(t: T.Turn, call: string, lines: map<string, T.Line>)
    requires Bare(t)
    ensures T.AfterDenial(Lined(t, lines), call) == Lined(T.AfterDenial(t, call), lines) && Bare(T.AfterDenial(t, call))
  {
    TrackLined(t, call, lines);
    if call in t.tools && t.tools[call].approval.Some? {
      WroteLined(t, call, t.tools[call], T.Denied(t.tools[call].input, t.tools[call].approval.value), lines);
    }
  }

  lemma OutputLined(t: T.Turn, call: string, output: Value, lines: map<string, T.Line>)
    requires Bare(t)
    ensures T.AfterOutput(Lined(t, lines), call, output) == Lined(T.AfterOutput(t, call, output), lines)
    ensures Bare(T.AfterOutput(t, call, output))
  {
    TrackLined(t, call, lines);
    if call in t.tools {
      WroteLined(t, call, t.tools[call], T.Answered(t.tools[call].input, output, t.tools[call].approval), lines);
    }
  }

  lemma KeysOfWrote(t: T.Turn, c: Chunk)
    requires FamilyOf(c).OfTool?
    ensures t.tools.Keys <= T.AfterTool(t, c).tools.Keys
  {
  }

  lemma AvailableLined(t: T.Turn, call: string, tool: string, input: Value, lines: map<string, T.Line>)
    requires Bare(t) && OnlyOpenCalls(t, lines)
    ensures T.AfterInput(T.AfterStart(Lined(t, lines), call, tool), call, input) ==
            Lined(T.AfterInput(T.AfterStart(t, call, tool), call, input), lines)
    ensures Bare(T.AfterInput(T.AfterStart(t, call, tool), call, input))
  {
    StartLined(t, call, tool, lines);
    InputLined(T.AfterStart(t, call, tool), call, input, lines);
  }

  lemma InputChunkLined(t: T.Turn, c: Chunk, lines: map<string, T.Line>)
    requires Bare(t) && OnlyOpenCalls(t, lines) && (c.InputStart? || c.InputAvailable? || c.InputDelta? || c.InputError?)
    ensures T.AfterTool(Lined(t, lines), c) == Lined(T.AfterTool(t, c), lines) && Bare(T.AfterTool(t, c))
  {
    if c.InputStart? {
      StartLined(t, c.call, c.tool, lines);
    } else if c.InputAvailable? {
      AvailableLined(t, c.call, c.tool, c.input, lines);
    } else if c.InputDelta? {
      DeltaLined(t, c.call, c.delta, lines);
    } else {
      InputErrorLined(t, c.call, c.errorText, lines);
    }
  }

  lemma OutcomeChunkLined(t: T.Turn, c: Chunk, lines: map<string, T.Line>)
    requires Bare(t) && (c.OutputError? || c.ApprovalRequest? || c.OutputDenied? || c.OutputAvailable?)
    ensures T.AfterTool(Lined(t, lines), c) == Lined(T.AfterTool(t, c), lines) && Bare(T.AfterTool(t, c))
  {
    if c.OutputError? {
      OutputErrorLined(t, c.call, c.errorText, lines);
    } else if c.ApprovalRequest? {
      ApprovalLined(t, c.call, c.approvalId, lines);
    } else if c.OutputDenied? {
      DenialLined(t, c.call, lines);
    } else {
      OutputLined(t, c.call, c.output, lines);
    }
  }

  lemma ToolLined(t: T.Turn, c: Chunk, lines: map<string, T.Line>)
    requires Bare(t) && OnlyOpenCalls(t, lines) && FamilyOf(c).OfTool?
    ensures T.AfterTool(Lined(t, lines), c) == Lined(T.AfterTool(t, c), lines) && Bare(T.AfterTool(t, c))
  {
    if c.InputStart? || c.InputAvailable? || c.InputDelta? || c.InputError? {
      InputChunkLined(t, c, lines);
    } else {
      OutcomeChunkLined(t, c, lines);
    }
  }

  lemma PartAddedLined(t: T.Turn, p: T.Part, lines: map<string, T.Line>)
    requires Bare(t) && !p.Tool?
    ensures Lined(t, lines).(parts := Lined(t, lines).parts + [p]) == Lined(t.(parts := t.parts + [p]), lines)
    ensures Bare(t.(parts := t.parts + [p]))
  {
    AppendedLined(t.parts, p, lines);
  }

  lemma PartChangedLined(t: T.Turn, at: nat, p: T.Part, lines: map<string, T.Line>)
    requires Bare(t) && at < |t.parts| && !t.parts[at].Tool? && !p.Tool?
    requires t.parts[at].Stream? == p.Stream? && t.parts[at].DataPart? == p.DataPart?
    ensures Lined(t, lines).(parts := Lined(t, lines).parts[at := p]) == Lined(t.(parts := t.parts[at := p]), lines)
    ensures Lined(t, lines).parts[at] == t.parts[at] && Bare(t.(parts := t.parts[at := p]))
  {
    ReplacedLined(t.parts, at, p, lines);
  }

  lemma DeltaGrows(t: T.Turn, key: StreamKey, delta: string, lines: map<string, T.Line>)
    requires Bare(t)
    ensures T.AfterStream(Lined(t, lines), StreamDelta(key, delta)) == Lined(T.AfterStream(t, StreamDelta(key, delta)), lines)
    ensures Bare(T.AfterStream(t, StreamDelta(key, delta)))
  {
    if key in t.streams {
      var at := t.streams[key];
      PartChangedLined(t, at, t.parts[at].(text := t.parts[at].text + delta), lines);
    }
  }

  lemma EndCloses(t: T.Turn, key: StreamKey, lines: map<string, T.Line>)
    requires Bare(t)
    ensures T.AfterStream(Lined(t, lines), StreamEnd(key)) == Lined(T.AfterStream(t, StreamEnd(key)), lines)
    ensures Bare(T.AfterStream(t, StreamEnd(key)))
  {
    if key in t.streams {
      var at := t.streams[key];
      PartChangedLined(t, at, t.parts[at].(done := true), lines);
    }
  }

  lemma StreamLined(t: T.Turn, c: Chunk, lines: map<string, T.Line>)
    requires Bare(t) && FamilyOf(c).OfStream?
    ensures T.AfterStream(Lined(t, lines), c) == Lined(T.AfterStream(t, c), lines) && Bare(T.AfterStream(t, c))
  {
    if c.StreamStart? {
      PartAddedLined(t, T.Stream(c.key.kind, "", false), lines);
    } else if c.StreamDelta? {
      DeltaGrows(t, c.key, c.delta, lines);
    } else if c.StreamEnd? {
      EndCloses(t, c.key, lines);
    }
  }

  lemma DataReplacedLined(t: T.Turn, kind: string, id: string, data: Value, lines: map<string, T.Line>)
    requires Bare(t) && T.DataKey(kind, id) in t.data
    ensures T.AfterData(Lined(t, lines), kind, Some(id), data) == Lined(T.AfterData(t, kind, Some(id), data), lines)
    ensures Bare(T.AfterData(t, kind, Some(id), data))
  {
    PartChangedLined(t, t.data[T.DataKey(kind, id)], T.DataPart(kind, Some(id), data), lines);
  }

  lemma DataAddedLined(t: T.Turn, kind: string, id: string, data: Value, lines: map<string, T.Line>)
    requires Bare(t) && T.DataKey(kind, id) !in t.data
    ensures T.AfterData(Lined(t, lines), kind, Some(id), data) == Lined(T.AfterData(t, kind, Some(id), data), lines)
    ensures Bare(T.AfterData(t, kind, Some(id), data))
  {
    PartAddedLined(t, T.DataPart(kind, Some(id), data), lines);
  }

  lemma DataLined(t: T.Turn, kind: string, id: Option<string>, data: Value, lines: map<string, T.Line>)
    requires Bare(t)
    ensures T.AfterData(Lined(t, lines), kind, id, data) == Lined(T.AfterData(t, kind, id, data), lines)
    ensures Bare(T.AfterData(t, kind, id, data))
  {
    if id.None? {
      PartAddedLined(t, T.DataPart(kind, id, data), lines);
    } else if T.DataKey(kind, id.value) in t.data {
      DataReplacedLined(t, kind, id.value, data, lines);
    } else {
      DataAddedLined(t, kind, id.value, data, lines);
    }
  }

  lemma PartLined(t: T.Turn, c: Chunk, lines: map<string, T.Line>)
    requires Bare(t) && FamilyOf(c).OfPart?
    ensures T.AfterPart(Lined(t, lines), c) == Lined(T.AfterPart(t, c), lines) && Bare(T.AfterPart(t, c))
  {
    match c
    case StartStep => PartAddedLined(t, T.StepStart, lines);
    case FileChunk(url, mediaType, filename) => PartAddedLined(t, T.File(url, mediaType, filename), lines);
    case SourceUrl(sourceId, url, title) => PartAddedLined(t, T.Url(sourceId, url, title), lines);
    case SourceDocument(sourceId, mediaType, heading, filename) =>
      PartAddedLined(t, T.Document(sourceId, mediaType, heading, filename), lines);
  }

  lemma MessageLined(t: T.Turn, c: Chunk, lines: map<string, T.Line>)
    requires Bare(t) && FamilyOf(c).OfMessage?
    ensures T.AfterMessage(Lined(t, lines), c) == Lined(T.AfterMessage(t, c), lines) && Bare(T.AfterMessage(t, c))
  {
  }

  lemma KeysKept(t: T.Turn, c: Chunk)
    requires !c.ToolSummary?
    ensures t.tools.Keys <= T.After(t, c).tools.Keys
  {
    if FamilyOf(c).OfTool? { KeysOfWrote(t, c); }
  }

  lemma ChunkLined(t: T.Turn, c: Chunk, lines: map<string, T.Line>)
    requires Bare(t) && OnlyOpenCalls(t, lines) && !c.ToolSummary?
    ensures T.After(Lined(t, lines), c) == Lined(T.After(t, c), lines) && Bare(T.After(t, c)) && OnlyOpenCalls(T.After(t, c), lines)
  {
    KeysKept(t, c);
    var family := FamilyOf(c);
    if family.OfStream? {
      StreamLined(t, c, lines);
    } else if family.OfTool? {
      ToolLined(t, c, lines);
    } else if family.OfPart? {
      PartLined(t, c, lines);
    } else if family.OfMessage? {
      MessageLined(t, c, lines);
    } else if !c.transient {
      DataLined(t, c.kind, c.dataId, c.data, lines);
    }
  }

  /** One line more is on one part more. */
  lemma PartLineAdded(t: T.Turn, call: string, line: T.Line, lines: map<string, T.Line>)
    requires Bare(t) && call in t.tools
    ensures var at := t.tools[call].index;
            LinedParts(t.parts, lines[call := line]) == LinedParts(t.parts, lines)[at := t.parts[at].(line := Some(line))]
  {
    var at, more := t.tools[call].index, lines[call := line];
    forall i | 0 <= i < |t.parts| && i != at ensures LinedPart(t.parts[i], more) == LinedPart(t.parts[i], lines) {
      assert t.parts[i].Tool? ==> t.tools[t.parts[i].call].index == i;
    }
    assert LinedPart(t.parts[at], more) == t.parts[at].(line := Some(line));
  }

  lemma ToolLineAdded(tools: map<string, T.Track>, call: string, line: T.Line, lines: map<string, T.Line>)
    requires call in tools
    ensures LinedTools(tools, lines[call := line]) == LinedTools(tools, lines)[call := tools[call].(line := Some(line))]
  {
  }

  lemma SummaryRead(t: T.Turn, fields: Option<SummaryFields>)
    requires LineRead(fields).Some? && LineRead(fields).value.0 in t.tools
    requires var at := t.tools[LineRead(fields).value.0].index; at < |t.parts| && t.parts[at].Tool?
    ensures var (call, line) := LineRead(fields).value;
            var at := t.tools[call].index;
            T.AfterSummary(t, fields) ==
            t.(tools := t.tools[call := t.tools[call].(line := Some(line))], parts := t.parts[at := t.parts[at].(line := Some(line))])
  {
  }

  /** A summary of an open call is one line more. */
  lemma SummaryLined(t: T.Turn, fields: Option<SummaryFields>, lines: map<string, T.Line>)
    requires Bare(t) && OnlyOpenCalls(t, lines) && (LineRead(fields).Some? ==> LineRead(fields).value.0 in t.tools)
    ensures T.AfterSummary(Lined(t, lines), fields) == Lined(t, LineRecorded(lines, fields))
    ensures OnlyOpenCalls(t, LineRecorded(lines, fields))
  {
    var read := LineRead(fields);
    if read.Some? {
      var (call, line) := read.value;
      TrackLined(t, call, lines);
      SummaryRead(Lined(t, lines), fields);
      PartLineAdded(t, call, line, lines);
      ToolLineAdded(t.tools, call, line, lines);
    }
  }

  // Whole streams.

  /** The stream without its summaries. */
  function Less(chunks: seq<Chunk>): seq<Chunk> {
    if chunks == [] then []
    else if chunks[|chunks| - 1].ToolSummary? then Less(chunks[..|chunks| - 1])
    else Less(chunks[..|chunks| - 1]) + [chunks[|chunks| - 1]]
  }

  /** What the stream's summaries carry, in order. */
  function SummariesOf(chunks: seq<Chunk>): seq<Option<SummaryFields>> {
    if chunks == [] then []
    else if chunks[|chunks| - 1].ToolSummary? then SummariesOf(chunks[..|chunks| - 1]) + [chunks[|chunks| - 1].fields]
    else SummariesOf(chunks[..|chunks| - 1])
  }

  function LinesRecorded(summaries: seq<Option<SummaryFields>>): map<string, T.Line> {
    if summaries == [] then map[] else LineRecorded(LinesRecorded(summaries[..|summaries| - 1]), summaries[|summaries| - 1])
  }

  /** Every summary names a call the stream has opened. */
  predicate SummariesNameOpenCalls(chunks: seq<Chunk>) {
    chunks != [] ==>
      var front, c := chunks[..|chunks| - 1], chunks[|chunks| - 1];
      && SummariesNameOpenCalls(front)
      && NamesOpenCall(front, c)
  }

  lemma LessSnoc(front: seq<Chunk>, c: Chunk)
    ensures Less(front + [c]) == if c.ToolSummary? then Less(front) else Less(front) + [c]
    ensures SummariesOf(front + [c]) == if c.ToolSummary? then SummariesOf(front) + [c.fields] else SummariesOf(front)
    ensures T.TurnOf(front + [c]) == T.After(T.TurnOf(front), c)
  {
    assert (front + [c])[..|front|] == front;
  }

  lemma LinesSnoc(summaries: seq<Option<SummaryFields>>, fields: Option<SummaryFields>)
    ensures LinesRecorded(summaries + [fields]) == LineRecorded(LinesRecorded(summaries), fields)
  {
    assert (summaries + [fields])[..|summaries|] == summaries;
  }

  /** The reducer's turn is the turn of the stream without its summaries, each line on its call. */
  ghost predicate Folds(chunks: seq<Chunk>) {
    var t, lines := T.TurnOf(Less(chunks)), LinesRecorded(SummariesOf(chunks));
    Bare(t) && OnlyOpenCalls(t, lines) && T.TurnOf(chunks) == Lined(t, lines)
  }

  lemma FoldsNext(front: seq<Chunk>, c: Chunk)
    requires Folds(front) && NamesOpenCall(front, c)
    ensures Folds(front + [c])
  {
    var t, lines := T.TurnOf(Less(front)), LinesRecorded(SummariesOf(front));
    LessSnoc(front, c);
    if c.ToolSummary? {
      LinesSnoc(SummariesOf(front), c.fields);
      SummaryLined(t, c.fields, lines);
    } else {
      LessSnoc(Less(front), c);
      ChunkLined(t, c, lines);
    }
  }

  lemma NothingFolds()
    ensures Folds([])
  {
    assert LinedParts([], map[]) == [] && LinedTools(map[], map[]) == map[];
  }

  predicate NamesOpenCall(front: seq<Chunk>, c: Chunk) {
    c.ToolSummary? && LineRead(c.fields).Some? ==> LineRead(c.fields).value.0 in T.TurnOf(front).tools
  }

  lemma NamesLast(front: seq<Chunk>, c: Chunk)
    requires SummariesNameOpenCalls(front + [c])
    ensures SummariesNameOpenCalls(front) && NamesOpenCall(front, c)
  {
    assert (front + [c])[..|front|] == front;
  }

  lemma {:induction false} TurnFolds(chunks: seq<Chunk>)
    requires SummariesNameOpenCalls(chunks)
    ensures Folds(chunks)
  {
    if chunks == [] {
      NothingFolds();
    } else {
      var front, c := chunks[..|chunks| - 1], chunks[|chunks| - 1];
      assert front + [c] == chunks;
      NamesLast(front, c);
      TurnFolds(front);
      FoldsNext(front, c);
    }
  }

  // The trace of either.

  /** How a data part is read: never as a call, and never as a summary. */
  ghost predicate ReadsData(read: (string, Value) -> Part) {
    forall kind, data :: !read(kind, data).Tool? && !read(kind, data).SummaryLine?
  }

  /** A reducer's part as the trace reads it. */
  function PartOf(p: T.Part, read: (string, Value) -> Part): Part {
    match p
    case Stream(kind, text, _) => if kind.TextStream? then Prose(D.Blank(text)) else Quiet
    case StepStart => Quiet
    case File(_, _, _) => Quiet
    case Url(_, _, _) => Quiet
    case Document(_, _, _, _) => Quiet
    case DataPart(kind, _, data) => read(kind, data)
    case Tool(tool, call, phase, line) => Tool(tool, call, phase, line)
  }

  function PartsOf(parts: seq<T.Part>, read: (string, Value) -> Part): seq<Part> {
    if parts == [] then [] else PartsOf(parts[..|parts| - 1], read) + [PartOf(parts[|parts| - 1], read)]
  }

  lemma LinedIsFoldedNext(front: seq<T.Part>, p: T.Part, read: (string, Value) -> Part, lines: map<string, T.Line>)
    requires ReadsData(read) && (p.Tool? ==> p.line == None)
    requires PartsOf(LinedParts(front, lines), read) == Folded(PartsOf(front, read), lines) && Beside(PartsOf(front, read))
    ensures PartsOf(LinedParts(front + [p], lines), read) == Folded(PartsOf(front + [p], read), lines)
    ensures Beside(PartsOf(front + [p], read))
  {
    var before, q := PartsOf(front, read), PartOf(p, read);
    AppendedLined(front, p, lines);
    PartsOfSnoc(front, p, read);
    PartsOfSnoc(LinedParts(front, lines), LinedPart(p, lines), read);
    assert (before + [q])[..|before|] == before;
    assert PartOf(LinedPart(p, lines), read) == FoldedPart(q, lines);
  }

  lemma PartsOfSnoc(front: seq<T.Part>, p: T.Part, read: (string, Value) -> Part)
    ensures PartsOf(front + [p], read) == PartsOf(front, read) + [PartOf(p, read)]
  {
    assert (front + [p])[..|front|] == front;
  }

  lemma {:induction false} LinedIsFolded(parts: seq<T.Part>, read: (string, Value) -> Part, lines: map<string, T.Line>)
    requires ReadsData(read) && forall p <- parts :: p.Tool? ==> p.line == None
    ensures PartsOf(LinedParts(parts, lines), read) == Folded(PartsOf(parts, read), lines) && Beside(PartsOf(parts, read))
  {
    if parts != [] {
      var front, p := parts[..|parts| - 1], parts[|parts| - 1];
      assert p in parts && front + [p] == parts;
      LinedIsFolded(front, read, lines);
      LinedIsFoldedNext(front, p, read, lines);
    }
  }

  /** A message without the summaries beside its calls, and those summaries. */
  function WithoutLines(parts: seq<Part>): seq<Part> {
    if parts == [] then []
    else if parts[|parts| - 1].SummaryLine? then WithoutLines(parts[..|parts| - 1])
    else WithoutLines(parts[..|parts| - 1]) + [parts[|parts| - 1]]
  }

  function LinesBeside(parts: seq<Part>): seq<Option<SummaryFields>> {
    if parts == [] then []
    else if parts[|parts| - 1].SummaryLine? then LinesBeside(parts[..|parts| - 1]) + [parts[|parts| - 1].fields]
    else LinesBeside(parts[..|parts| - 1])
  }

  /** Wherever the summaries stand, they give the same lines and fold to the same message. */
  lemma {:induction false} WhereverLinesStand(parts: seq<Part>, lines: map<string, T.Line>)
    ensures LinesOf(parts) == LinesRecorded(LinesBeside(parts))
    ensures Folded(parts, lines) == Folded(WithoutLines(parts), lines)
  {
    if parts != [] {
      var front, p := parts[..|parts| - 1], parts[|parts| - 1];
      WhereverLinesStand(front, lines);
      if p.SummaryLine? {
        LinesSnoc(LinesBeside(front), p.fields);
      } else {
        var bare := WithoutLines(front);
        assert (bare + [p])[..|bare|] == bare;
      }
    }
  }

  lemma {:induction false} BesideWithLines(parts: seq<Part>)
    requires Beside(WithoutLines(parts))
    ensures Beside(parts)
  {
    if parts != [] {
      var front, p := parts[..|parts| - 1], parts[|parts| - 1];
      var bare := WithoutLines(front);
      if !p.SummaryLine? {
        forall q <- bare ensures q in bare + [p] { }
        assert p in bare + [p];
      }
      BesideWithLines(front);
    }
  }

  /** A stream reads the same whether the reducer folds its summaries onto their calls, or the message of the
      stream without them holds them beside, wherever they stand: where each summary names a call already
      opened and no sub-agent step reuses that call's id. */
  lemma StreamsReadTheSame(chunks: seq<Chunk>, beside: seq<Part>, read: (string, Value) -> Part, kinds: set<string>, turnEnded: bool)
    requires SummariesNameOpenCalls(chunks) && ReadsData(read)
    requires WithoutLines(beside) == PartsOf(T.TurnOf(Less(chunks)).parts, read) && LinesBeside(beside) == SummariesOf(chunks)
    requires StepsUnlined(beside, LinesOf(beside))
    ensures TraceOf(PartsOf(T.TurnOf(chunks).parts, read), kinds, turnEnded) == TraceOf(beside, kinds, turnEnded)
  {
    var t, lines := T.TurnOf(Less(chunks)), LinesRecorded(SummariesOf(chunks));
    TurnFolds(chunks);
    forall p <- t.parts ensures p.Tool? ==> p.line == None {
      var i :| 0 <= i < |t.parts| && t.parts[i] == p;
    }
    LinedIsFolded(t.parts, read, lines);
    WhereverLinesStand(beside, lines);
    BesideWithLines(beside);
    FoldedReadsAsBeside(beside, kinds, turnEnded);
  }
}
