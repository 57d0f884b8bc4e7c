/** The client's reducer: one turn's chunks to the message a reader sees, through index maps. */
module TurnReducer {
  import opened Wrappers
  import opened Chunks

  datatype Phase =
    | InputStreaming(input: Option<Value>)
    | InputReady(input: Option<Value>)
    | ApprovalRequested(input: Option<Value>, approvalId: string)
    | Denied(input: Option<Value>, approvalId: string)
    | Failed(input: Option<Value>, errorText: string, approved: Option<string>)
    | Answered(input: Option<Value>, output: Value, approved: Option<string>)

  datatype Line = Line(summary: string, status: SummaryStatus)

  datatype Part =
    | Stream(stream: StreamKind, text: string, done: bool)
    | StepStart
    | File(url: string, mediaType: string, filename: Option<string>)
    | Url(sourceId: string, url: string, title: Option<string>)
    | Document(sourceId: string, mediaType: string, heading: string, filename: Option<string>)
    | DataPart(kind: string, id: Option<string>, data: Value)
    | Tool(tool: string, call: string, phase: Phase, line: Option<Line>)

  datatype Track = Track(index: nat, tool: string, input: Option<Value>, inputText: string, approval: Option<string>, line: Option<Line>)

  datatype DataKey = DataKey(kind: string, id: string)

  datatype Turn = Turn(
    id: string, parts: seq<Part>, metadata: Option<Metadata>, errors: seq<string>, aborted: bool, finishReason: Option<string>,
    streams: map<StreamKey, nat>, data: map<DataKey, nat>, tools: map<string, Track>)

  const EmptyTurn := Turn("", [], None, [], false, None, map[], map[], map[])

  /** The part of a call in `phase`, with the line its track carries. */
  function PartOf(track: Track, call: string, phase: Phase): Part { Tool(track.tool, call, phase, track.line) }

  function Written(parts: seq<Part>, index: nat, part: Part): seq<Part> {
    if index < |parts| then parts[index := part] else parts
  }

  function Opened(t: Turn, call: string, tool: string): Turn {
    var track := Track(|t.parts|, tool, None, "", None, None);
    t.(tools := t.tools[call := track], parts := t.parts + [PartOf(track, call, InputStreaming(None))])
  }

  /** A call's track updated, and its part written in `phase`. */
  function Wrote(t: Turn, call: string, track: Track, phase: Phase): Turn {
    t.(tools := t.tools[call := track], parts := Written(t.parts, track.index, PartOf(track, call, phase)))
  }

  function AfterStart(t: Turn, call: string, tool: string): Turn { if call in t.tools then t else Opened(t, call, tool) }

  function AfterInput(t: Turn, call: string, input: Value): Turn
    requires call in t.tools
  {
    Wrote(t, call, t.tools[call].(input := Some(input)), InputReady(Some(input)))
  }

  function AfterInputDelta(t: Turn, call: string, delta: string): Turn {
    if call !in t.tools then t
    else
      var text := t.tools[call].inputText + delta;
      Wrote(t, call, t.tools[call].(inputText := text, input := Some(Json(text))), InputStreaming(Some(Json(text))))
  }

  function AfterInputError(t: Turn, call: string, errorText: string): Turn {
    if call !in t.tools then t
    else Wrote(t, call, t.tools[call].(input := None), Failed(None, errorText, t.tools[call].approval))
  }

  function AfterOutputError(t: Turn, call: string, errorText: string): Turn {
    if call !in t.tools then t
    else Wrote(t, call, t.tools[call], Failed(t.tools[call].input, errorText, t.tools[call].approval))
  }

  function AfterApprovalRequest(t: Turn, call: string, approvalId: string): Turn {
    if call !in t.tools then t
    else Wrote(t, call, t.tools[call].(approval := Some(approvalId)), ApprovalRequested(t.tools[call].input, approvalId))
  }

  function AfterDenial(t: Turn, call: string): Turn {
    if call !in t.tools || t.tools[call].approval.None? then t
    else Wrote(t, call, t.tools[call], Denied(t.tools[call].input, t.tools[call].approval.value))
  }

  function AfterOutput(t: Turn, call: string, output: Value): Turn {
    if call !in t.tools then t
    else Wrote(t, call, t.tools[call], Answered(t.tools[call].input, output, t.tools[call].approval))
  }

  function AfterTool(t: Turn, c: Chunk): Turn {
    match c
    case InputStart(call, tool, _) => AfterStart(t, call, tool)
    case InputAvailable(call, tool, input, _) => AfterInput(AfterStart(t, call, tool), call, input)
    case InputDelta(call, delta) => AfterInputDelta(t, call, delta)
    case InputError(call, _, _, errorText, _) => AfterInputError(t, call, errorText)
    case OutputError(call, errorText) => AfterOutputError(t, call, errorText)
    case ApprovalRequest(call, approvalId) => AfterApprovalRequest(t, call, approvalId)
    case OutputDenied(call) => AfterDenial(t, call)
    case OutputAvailable(call, output) => AfterOutput(t, call, output)
    case _ => t
  }

  function AfterSummary(t: Turn, fields: Option<SummaryFields>): Turn {
    match fields
    case Some(SummaryFields(Some(call), Some(summary), raw)) =>
      if call !in t.tools then t
      else
        var known := if raw.Some? then KnownStatus(raw.value) else None;
        var line := Line(summary, if known.Some? then known.value else SummaryOk);
        var track := t.tools[call].(line := Some(line));
        var at := track.index;
        t.(tools := t.tools[call := track],
           parts := if at < |t.parts| && t.parts[at].Tool? then t.parts[at := t.parts[at].(line := Some(line))] else t.parts)
    case _ => t
  }

  function AfterData(t: Turn, kind: string, id: Option<string>, data: Value): Turn {
    if id.None? then t.(parts := t.parts + [DataPart(kind, None, data)])
    else
      var key := DataKey(kind, id.value);
      if key in t.data then t.(parts := Written(t.parts, t.data[key], DataPart(kind, id, data)))
      else t.(data := t.data[key := |t.parts|], parts := t.parts + [DataPart(kind, id, data)])
  }

  function AfterStream(t: Turn, c: Chunk): Turn {
    match c
    case StreamStart(key) => t.(streams := t.streams[key := |t.parts|], parts := t.parts + [Stream(key.kind, "", false)])
    case StreamDelta(key, delta) =>
      if key in t.streams && t.streams[key] < |t.parts| && t.parts[t.streams[key]].Stream? then
        var at := t.streams[key];
        t.(parts := t.parts[at := t.parts[at].(text := t.parts[at].text + delta)])
      else t
    case StreamEnd(key) =>
      if key in t.streams && t.streams[key] < |t.parts| && t.parts[t.streams[key]].Stream? then
        var at := t.streams[key];
        t.(parts := t.parts[at := t.parts[at].(done := true)])
      else t
    case _ => t
  }

  /** The chunks that only add a part. */
  function AfterPart(t: Turn, c: Chunk): Turn {
    match c
    case StartStep => t.(parts := t.parts + [StepStart])
    case FileChunk(url, mediaType, filename) => t.(parts := t.parts + [File(url, mediaType, filename)])
    case SourceUrl(sourceId, url, title) => t.(parts := t.parts + [Url(sourceId, url, title)])
    case SourceDocument(sourceId, mediaType, heading, filename) =>
      t.(parts := t.parts + [Document(sourceId, mediaType, heading, filename)])
    case _ => t
  }

  /** The chunks that say something of the whole message. */
  function AfterMessage(t: Turn, c: Chunk): Turn {
    match c
    case Start(messageId, metadata) =>
      t.(id := if messageId.Some? then messageId.value else t.id, metadata := Merged(t.metadata, metadata))
    case MessageMetadata(metadata) => t.(metadata := Merged(t.metadata, metadata))
    case ErrorChunk(errorText) => t.(errors := t.errors + [errorText])
    case Abort => t.(aborted := true)
    case Finish(reason, metadata) =>
      t.(finishReason := if reason.Some? then reason else t.finishReason, metadata := Merged(t.metadata, metadata))
    case _ => t
  }

  function After(t: Turn, c: Chunk): Turn {
    match FamilyOf(c)
    case OfStream => AfterStream(t, c)
    case OfTool => AfterTool(t, c)
    case OfPart => AfterPart(t, c)
    case OfMessage => AfterMessage(t, c)
    case OfData => if c.transient then t else AfterData(t, c.kind, c.dataId, c.data)
    case OfSummary => AfterSummary(t, c.fields)
  }

  /** The turn the reducer builds from a list of chunks. */
  function TurnOf(chunks: seq<Chunk>): Turn {
    if chunks == [] then EmptyTurn else After(TurnOf(chunks[..|chunks| - 1]), chunks[|chunks| - 1])
  }

  class TurnAccumulator {
    var id: string
    var parts: seq<Part>
    var metadata: Option<Metadata>
    var errors: seq<string>
    var aborted: bool
    var finishReason: Option<string>
    var streams: map<StreamKey, nat>
    var data: map<DataKey, nat>
    var tools: map<string, Track>

    constructor ()
      ensures State() == EmptyTurn
    {
      id, parts, metadata, errors, aborted, finishReason := "", [], None, [], false, None;
      streams, data, tools := map[], map[], map[];
    }

    function State(): Turn
      reads this
    {
      Turn(id, parts, metadata, errors, aborted, finishReason, streams, data, tools)
    }

    method MergeMetadata(more: Option<Metadata>)
      modifies this`metadata
      ensures State() == old(State()).(metadata := Merged(old(metadata), more))
    {
      if more.None? {
        return;
      }
      metadata := Some(if metadata.Some? then metadata.value + more.value else more.value);
    }

    method OpenTrack(call: string, tool: string) returns (track: Track)
      modifies this`parts, this`tools
      ensures State() == Opened(old(State()), call, tool) && call in tools && track == tools[call]
    {
      track := Track(|parts|, tool, None, "", None, None);
      tools := tools[call := track];
      parts := parts + [PartOf(track, call, InputStreaming(None))];
    }

    method Write(call: string, track: Track, phase: Phase)
      modifies this`parts, this`tools
      ensures State() == Wrote(old(State()), call, track, phase)
    {
      tools := tools[call := track];
      if track.index < |parts| {
        parts := parts[track.index := PartOf(track, call, phase)];
      }
    }

    method ApplyInputAvailable(call: string, tool: string, input: Value)
      modifies this`parts, this`tools
      ensures State() == AfterInput(AfterStart(old(State()), call, tool), call, input)
    {
      var track: Track;
      if call in tools {
        track := tools[call];
      } else {
        track := OpenTrack(call, tool);
      }
      Write(call, track.(input := Some(input)), InputReady(Some(input)));
    }

    method ApplyInputDelta(call: string, delta: string)
      modifies this`parts, this`tools
      ensures State() == AfterInputDelta(old(State()), call, delta)
    {
      if call in tools {
        var text := tools[call].inputText + delta;
        Write(call, tools[call].(inputText := text, input := Some(Json(text))), InputStreaming(Some(Json(text))));
      }
    }

    method ApplyApprovalRequest(call: string, approvalId: string)
      modifies this`parts, this`tools
      ensures State() == AfterApprovalRequest(old(State()), call, approvalId)
    {
      if call in tools {
        Write(call, tools[call].(approval := Some(approvalId)), ApprovalRequested(tools[call].input, approvalId));
      }
    }

    method ApplyDenial(call: string)
      modifies this`parts, this`tools
      ensures State() == AfterDenial(old(State()), call)
    {
      if call in tools && tools[call].approval.Some? {
        Write(call, tools[call], Denied(tools[call].input, tools[call].approval.value));
      }
    }

    method ApplyError(call: string, input: Option<Value>, errorText: string)
      requires call in tools
      modifies this`parts, this`tools
      ensures State() == Wrote(old(State()), call, old(tools[call]).(input := input), Failed(input, errorText, old(tools[call]).approval))
    {
      Write(call, tools[call].(input := input), Failed(input, errorText, tools[call].approval));
    }

    method ApplyOutput(call: string, output: Value)
      modifies this`parts, this`tools
      ensures State() == AfterOutput(old(State()), call, output)
    {
      if call in tools {
        Write(call, tools[call], Answered(tools[call].input, output, tools[call].approval));
      }
    }

    method ApplyInputChunk(c: Chunk)
      requires c.InputStart? || c.InputAvailable? || c.InputDelta? || c.InputError?
      modifies this`parts, this`tools
      ensures State() == AfterTool(old(State()), c)
    {
      match c {
        case InputStart(call, tool, _) =>
          if call !in tools {
            var _ := OpenTrack(call, tool);
          }
        case InputAvailable(call, tool, input, _) => ApplyInputAvailable(call, tool, input);
        case InputDelta(call, delta) => ApplyInputDelta(call, delta);
        case InputError(call, _, _, errorText, _) =>
          if call in tools {
            ApplyError(call, None, errorText);
          }
      }
    }

    method ApplyOutcomeChunk(c: Chunk)
      requires c.OutputError? || c.ApprovalRequest? || c.OutputDenied? || c.OutputAvailable?
      modifies this`parts, this`tools
      ensures State() == AfterTool(old(State()), c)
    {
      match c {
        case OutputError(call, errorText) =>
          if call in tools {
            ApplyError(call, tools[call].input, errorText);
          }
        case ApprovalRequest(call, approvalId) => ApplyApprovalRequest(call, approvalId);
        case OutputDenied(call) => ApplyDenial(call);
        case OutputAvailable(call, output) => ApplyOutput(call, output);
      }
    }

    method ApplyToolChunk(c: Chunk)
      modifies this`parts, this`tools
      ensures State() == AfterTool(old(State()), c)
    {
      if c.InputStart? || c.InputAvailable? || c.InputDelta? || c.InputError? {
        ApplyInputChunk(c);
      } else if c.OutputError? || c.ApprovalRequest? || c.OutputDenied? || c.OutputAvailable? {
        ApplyOutcomeChunk(c);
      }
    }

    method ApplyToolSummary(fields: Option<SummaryFields>)
      modifies this`parts, this`tools
      ensures State() == AfterSummary(old(State()), fields)
    {
      if fields.None? || fields.value.call.None? || fields.value.summary.None? {
        return;
      }
      var call, raw := fields.value.call.value, fields.value.status;
      if call !in tools {
        return;
      }
      var status := SummaryOk;
      if raw.Some? && KnownStatus(raw.value).Some? {
        status := KnownStatus(raw.value).value;
      }
      var line := Line(fields.value.summary.value, status);
      var at := tools[call].index;
      tools := tools[call := tools[call].(line := Some(line))];
      if at < |parts| && parts[at].Tool? {
        parts := parts[at := parts[at].(line := Some(line))];
      }
    }

    method ApplyDataChunk(kind: string, dataId: Option<string>, value: Value)
      modifies this`parts, this`data
      ensures State() == AfterData(old(State()), kind, dataId, value)
    {
      if dataId.None? {
        parts := parts + [DataPart(kind, None, value)];
        return;
      }
      var key := DataKey(kind, dataId.value);
      if key !in data {
        data := data[key := |parts|];
        parts := parts + [DataPart(kind, dataId, value)];
        return;
      }
      if data[key] < |parts| {
        parts := parts[data[key] := DataPart(kind, dataId, value)];
      }
    }

    method ApplyStreamChunk(c: Chunk)
      modifies this`parts, this`streams
      ensures State() == AfterStream(old(State()), c)
    {
      match c {
        case StreamStart(key) =>
          streams := streams[key := |parts|];
          parts := parts + [Stream(key.kind, "", false)];
        case StreamDelta(key, delta) =>
          if key in streams && streams[key] < |parts| && parts[streams[key]].Stream? {
            var part := parts[streams[key]];
            parts := parts[streams[key] := part.(text := part.text + delta)];
          }
        case StreamEnd(key) =>
          if key in streams && streams[key] < |parts| && parts[streams[key]].Stream? {
            parts := parts[streams[key] := parts[streams[key]].(done := true)];
          }
        case _ =>
      }
    }

    method AppendPart(c: Chunk)
      modifies this`parts
      ensures State() == AfterPart(old(State()), c)
    {
      match c {
        case StartStep => parts := parts + [StepStart];
        case FileChunk(url, mediaType, filename) => parts := parts + [File(url, mediaType, filename)];
        case SourceUrl(sourceId, url, title) => parts := parts + [Url(sourceId, url, title)];
        case SourceDocument(sourceId, mediaType, heading, filename) =>
          parts := parts + [Document(sourceId, mediaType, heading, filename)];
        case _ =>
      }
    }

    method ApplyStart(messageId: Option<string>, more: Option<Metadata>)
      modifies this`id, this`metadata
      ensures State() == AfterMessage(old(State()), Start(messageId, more))
    {
      id := if messageId.Some? then messageId.value else id;
      MergeMetadata(more);
    }

    method ApplyFinish(reason: Option<string>, more: Option<Metadata>)
      modifies this`metadata, this`finishReason
      ensures State() == AfterMessage(old(State()), Finish(reason, more))
    {
      finishReason := if reason.Some? then reason else finishReason;
      MergeMetadata(more);
    }

    method ApplyMessageChunk(c: Chunk)
      modifies this`id, this`metadata, this`errors, this`aborted, this`finishReason
      ensures State() == AfterMessage(old(State()), c)
    {
      match c {
        case Start(messageId, more) => ApplyStart(messageId, more);
        case MessageMetadata(more) => MergeMetadata(more);
        case ErrorChunk(errorText) => errors := errors + [errorText];
        case Abort => aborted := true;
        case Finish(reason, more) => ApplyFinish(reason, more);
        case _ =>
      }
    }

    method Apply(c: Chunk)
      modifies this
      ensures State() == After(old(State()), c)
    {
      match FamilyOf(c) {
        case OfStream => ApplyStreamChunk(c);
        case OfTool => ApplyToolChunk(c);
        case OfPart => AppendPart(c);
        case OfMessage => ApplyMessageChunk(c);
        case OfData =>
          if !c.transient {
            ApplyDataChunk(c.kind, c.dataId, c.data);
          }
        case OfSummary => ApplyToolSummary(c.fields);
      }
    }
  }

  method ReduceTurn(chunks: seq<Chunk>) returns (turn: Turn)
    ensures turn == TurnOf(chunks)
  {
    var accumulator := new TurnAccumulator();
    for i := 0 to |chunks|
      invariant accumulator.State() == TurnOf(chunks[..i])
    {
      assert chunks[..i + 1][..i] == chunks[..i];
      accumulator.Apply(chunks[i]);
    }
    assert chunks[..|chunks|] == chunks;
    turn := accumulator.State();
  }
}
