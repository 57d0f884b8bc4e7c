/** The server's reducer: a turn's chunks to its message, looking parts up by scanning them. */
module LogReducer {
  import opened Wrappers
  import opened Chunks

  datatype ToolState = IsStreaming | IsReady | IsAwaiting | IsDenied | IsFailed | IsAnswered

  /** An approval: asked for, and answered once it says so. */
  datatype Approval = Approval(id: string, approved: Option<bool>)

  datatype Part =
    | Stream(stream: StreamKind, text: string, done: bool)
    | StepStart
    | File(url: string, mediaType: string)
    | Url(sourceId: string, url: string, title: Option<string>)
    | Document(sourceId: string, mediaType: string, heading: string, filename: Option<string>)
    | DataPart(kind: string, id: Option<string>, data: Value)
    | Tool(dynamic: bool, tool: string, call: string, state: ToolState, input: Value, output: Value, rawInput: Value,
           errorText: Option<string>, approval: Option<Approval>, summary: Option<(string, SummaryStatus)>)

  datatype PartialCall = PartialCall(text: string, tool: string, dynamic: bool)

  /** `active` names an open streamed part by where it stands. */
  datatype Log = Log(
    id: string, parts: seq<Part>, metadata: Option<Metadata>, finishReason: Option<string>,
    active: map<StreamKey, nat>, partials: map<string, PartialCall>, approvals: map<string, string>)

  datatype ToolUpdate = ToolUpdate(
    call: string, tool: string, state: ToolState, dynamic: bool, input: Value, output: Value, rawInput: Value, errorText: Option<string>)

  /** A new value, or the one before where there is none. */
  function Kept(before: Value, more: Value): Value { if more == Null then before else more }

  function Built(u: ToolUpdate): Part {
    Tool(u.dynamic, u.tool, u.call, u.state, u.input, u.output, u.rawInput, u.errorText, None, None)
  }

  function Patched(p: Part, u: ToolUpdate): Part
    requires p.Tool?
  {
    p.(state := u.state, tool := if u.dynamic then u.tool else p.tool, input := Kept(p.input, u.input),
       output := Kept(p.output, u.output), rawInput := Kept(p.rawInput, u.rawInput),
       errorText := if u.errorText.Some? then u.errorText else p.errorText)
  }

  // The linear lookups.

  predicate OfCall(p: Part, call: string) { p.Tool? && p.call == call }

  predicate OfFlavour(p: Part, call: string, dynamic: bool) { OfCall(p, call) && p.dynamic == dynamic }

  predicate HasData(p: Part, kind: string, id: string) { p.DataPart? && p.kind == kind && p.id == Some(id) }

  /** Where the first part of a kind stands: the length when there is none. */
  function First(parts: seq<Part>, wanted: Part -> bool, from: nat): (at: nat)
    requires from <= |parts|
    ensures from <= at <= |parts|
    ensures (forall i | from <= i < at :: !wanted(parts[i])) && (at < |parts| ==> wanted(parts[at]))
    decreases |parts| - from
  {
    if from == |parts| || wanted(parts[from]) then from else First(parts, wanted, from + 1)
  }

  function Invocation(parts: seq<Part>, call: string): (at: nat)
    ensures at <= |parts| && (at < |parts| ==> OfCall(parts[at], call))
  {
    First(parts, p => OfCall(p, call), 0)
  }

  function ToolPartById(parts: seq<Part>, call: string, dynamic: bool): (at: nat)
    ensures at <= |parts| && (at < |parts| ==> OfFlavour(parts[at], call, dynamic))
  {
    First(parts, p => OfFlavour(p, call, dynamic), 0)
  }

  function DataPartById(parts: seq<Part>, kind: string, id: string): (at: nat)
    ensures at <= |parts| && (at < |parts| ==> HasData(parts[at], kind, id))
  {
    First(parts, p => HasData(p, kind, id), 0)
  }

  method FindFirst(parts: seq<Part>, wanted: Part -> bool) returns (at: nat)
    ensures at == First(parts, wanted, 0)
  {
    at := 0;
    while at < |parts| && !wanted(parts[at])
      invariant at <= |parts| && First(parts, wanted, 0) == First(parts, wanted, at)
    {
      at := at + 1;
    }
  }

  // The handlers.

  function Upserted(log: Log, u: ToolUpdate): Log {
    var at := ToolPartById(log.parts, u.call, u.dynamic);
    log.(parts := if at < |log.parts| then log.parts[at := Patched(log.parts[at], u)] else log.parts + [Built(u)])
  }

  /** A call's approval settled: withdrawn where `approved` says neither. */
  function Settled(log: Log, call: string, approved: Option<bool>): Log {
    var at := Invocation(log.parts, call);
    if at < |log.parts| && call in log.approvals then
      var approval := if approved.None? then None else Some(Approval(log.approvals[call], approved));
      log.(parts := log.parts[at := log.parts[at].(approval := approval)])
    else log
  }

  function AfterInputStart(log: Log, call: string, tool: string, dynamic: bool): Log {
    Upserted(log.(partials := log.partials[call := PartialCall("", tool, dynamic)]),
             ToolUpdate(call, tool, IsStreaming, dynamic, Null, Null, Null, None))
  }

  function AfterInputDelta(log: Log, call: string, delta: string, parse: string -> Value): Log {
    if call !in log.partials then log
    else
      var more := log.partials[call].(text := log.partials[call].text + delta);
      Upserted(log.(partials := log.partials[call := more]),
               ToolUpdate(call, more.tool, IsStreaming, more.dynamic, parse(more.text), Null, Null, None))
  }

  function AfterInput(log: Log, call: string, tool: string, input: Value, dynamic: bool): Log {
    Settled(Upserted(log, ToolUpdate(call, tool, IsReady, dynamic, input, Null, Null, None)), call, None)
  }

  function AfterInputError(log: Log, call: string, tool: string, input: Value, errorText: string, dynamic: bool): Log {
    var at := Invocation(log.parts, call);
    var isDynamic := if at < |log.parts| then log.parts[at].dynamic else dynamic;
    Upserted(log, ToolUpdate(call, tool, IsFailed, isDynamic, if isDynamic then input else Null, Null,
                             if isDynamic then Null else input, Some(errorText)))
  }

  function AfterApprovalRequest(log: Log, call: string, approvalId: string): Log {
    var at := Invocation(log.parts, call);
    if at == |log.parts| then log
    else log.(parts := log.parts[at := log.parts[at].(state := IsAwaiting, approval := Some(Approval(approvalId, None)))],
              approvals := log.approvals[call := approvalId])
  }

  function AfterDenial(log: Log, call: string): Log {
    var at := Invocation(log.parts, call);
    if at == |log.parts| then log
    else Settled(log.(parts := log.parts[at := log.parts[at].(state := IsDenied)]), call, Some(false))
  }

  function AfterOutput(log: Log, call: string, output: Value): Log {
    var at := Invocation(log.parts, call);
    if at == |log.parts| then log
    else
      var p := log.parts[at];
      Settled(Upserted(log, ToolUpdate(call, p.tool, IsAnswered, p.dynamic, p.input, output, Null, None)), call, Some(true))
  }

  function AfterOutputError(log: Log, call: string, errorText: string): Log {
    var at := Invocation(log.parts, call);
    if at == |log.parts| then log
    else
      var p := log.parts[at];
      Settled(Upserted(log, ToolUpdate(call, p.tool, IsFailed, p.dynamic, p.input, Null, p.rawInput, Some(errorText))), call, Some(true))
  }

  function AfterTool(log: Log, c: Chunk, parse: string -> Value): Log {
    match c
    case InputStart(call, tool, dynamic) => AfterInputStart(log, call, tool, dynamic)
    case InputDelta(call, delta) => AfterInputDelta(log, call, delta, parse)
    case InputAvailable(call, tool, input, dynamic) => AfterInput(log, call, tool, input, dynamic)
    case InputError(call, tool, input, errorText, dynamic) => AfterInputError(log, call, tool, input, errorText, dynamic)
    case ApprovalRequest(call, approvalId) => AfterApprovalRequest(log, call, approvalId)
    case OutputDenied(call) => AfterDenial(log, call)
    case OutputAvailable(call, output) => AfterOutput(log, call, output)
    case OutputError(call, errorText) => AfterOutputError(log, call, errorText)
    case _ => log
  }

  function AfterSummary(log: Log, fields: Option<SummaryFields>): Log {
    match ReadSummary(fields)
    case None => log
    case Some(Summary(call, line, status)) =>
      var fixed := ToolPartById(log.parts, call, false);
      var at := if fixed < |log.parts| then fixed else ToolPartById(log.parts, call, true);
      if at == |log.parts| then log
      else log.(parts := log.parts[at := log.parts[at].(summary := Some((line, status)))])
  }

  function AfterData(log: Log, kind: string, id: Option<string>, data: Value): Log {
    var at := if id.Some? then DataPartById(log.parts, kind, id.value) else |log.parts|;
    log.(parts := if at < |log.parts| then log.parts[at := log.parts[at].(data := data)] else log.parts + [DataPart(kind, id, data)])
  }

  function AfterStream(log: Log, c: Chunk): Log {
    match c
    case StreamStart(key) => log.(active := log.active[key := |log.parts|], parts := log.parts + [Stream(key.kind, "", false)])
    case StreamDelta(key, delta) =>
      if key in log.active && log.active[key] < |log.parts| && log.parts[log.active[key]].Stream? then
        var at := log.active[key];
        log.(parts := log.parts[at := log.parts[at].(text := log.parts[at].text + delta)])
      else log
    case StreamEnd(key) =>
      if key in log.active && log.active[key] < |log.parts| && log.parts[log.active[key]].Stream? then
        var at := log.active[key];
        log.(parts := log.parts[at := log.parts[at].(done := true)], active := log.active - {key})
      else log
    case FinishStep => log.(active := map[])
    case _ => log
  }

  function AfterPart(log: Log, c: Chunk): Log {
    match c
    case StartStep => log.(parts := log.parts + [StepStart])
    case FileChunk(url, mediaType, _) => log.(parts := log.parts + [File(url, mediaType)])
    case SourceUrl(sourceId, url, title) => log.(parts := log.parts + [Url(sourceId, url, title)])
    case SourceDocument(sourceId, mediaType, heading, filename) =>
      log.(parts := log.parts + [Document(sourceId, mediaType, heading, filename)])
    case _ => log
  }

  function AfterMessage(log: Log, c: Chunk): Log {
    match c
    case Start(messageId, metadata) =>
      log.(id := if messageId.Some? then messageId.value else log.id, metadata := Merged(log.metadata, metadata))
    case MessageMetadata(metadata) => log.(metadata := Merged(log.metadata, metadata))
    case Finish(reason, metadata) =>
      log.(finishReason := if reason.Some? then reason else log.finishReason, metadata := Merged(log.metadata, metadata))
    case _ => log
  }

  function After(log: Log, c: Chunk, parse: string -> Value): Log {
    match FamilyOf(c)
    case OfStream => AfterStream(log, c)
    case OfTool => AfterTool(log, c, parse)
    case OfPart => AfterPart(log, c)
    case OfMessage => AfterMessage(log, c)
    case OfData => if c.transient then log else AfterData(log, c.kind, c.dataId, c.data)
    case OfSummary => if c.transient then log else AfterSummary(log, c.fields)
  }

  function NewLog(id: string): Log { Log(id, [], None, None, map[], map[], map[]) }

  function LogOf(id: string, chunks: seq<Chunk>, parse: string -> Value): Log {
    if chunks == [] then NewLog(id) else After(LogOf(id, chunks[..|chunks| - 1], parse), chunks[|chunks| - 1], parse)
  }

  class ReducerState {
    var id: string
    var parts: seq<Part>
    var metadata: Option<Metadata>
    var finishReason: Option<string>
    var active: map<StreamKey, nat>
    var partials: map<string, PartialCall>
    var approvals: map<string, string>

    constructor (messageId: string)
      ensures State() == NewLog(messageId)
    {
      id, parts, metadata, finishReason := messageId, [], None, None;
      active, partials, approvals := map[], map[], map[];
    }

    function State(): Log
      reads this
    {
      Log(id, parts, metadata, finishReason, active, partials, approvals)
    }

    method UpsertToolPart(u: ToolUpdate)
      modifies this`parts
      ensures State() == Upserted(old(State()), u)
    {
      var at := FindFirst(parts, p => OfFlavour(p, u.call, u.dynamic));
      if at < |parts| {
        parts := parts[at := Patched(parts[at], u)];
      } else {
        parts := parts + [Built(u)];
      }
    }

    method SettleApproval(call: string, approved: Option<bool>)
      modifies this`parts
      ensures State() == Settled(old(State()), call, approved)
    {
      var at := FindFirst(parts, p => OfCall(p, call));
      if at == |parts| || call !in approvals {
        return;
      }
      if approved.None? {
        parts := parts[at := parts[at].(approval := None)];
        return;
      }
      parts := parts[at := parts[at].(approval := Some(Approval(approvals[call], approved)))];
    }

    method MergeMetadata(more: Option<Metadata>)
      modifies this`metadata
      ensures metadata == Merged(old(metadata), more)
    {
      if more.None? {
        return;
      }
      metadata := Some(if metadata.Some? then metadata.value + more.value else more.value);
    }

    method HandleInputStart(call: string, tool: string, dynamic: bool)
      modifies this`parts, this`partials
      ensures State() == AfterInputStart(old(State()), call, tool, dynamic)
    {
      partials := partials[call := PartialCall("", tool, dynamic)];
      UpsertToolPart(ToolUpdate(call, tool, IsStreaming, dynamic, Null, Null, Null, None));
    }

    method HandleInputDelta(call: string, delta: string, parse: string -> Value)
      modifies this`parts, this`partials
      ensures State() == AfterInputDelta(old(State()), call, delta, parse)
    {
      if call !in partials {
        return;
      }
      var more := partials[call].(text := partials[call].text + delta);
      partials := partials[call := more];
      UpsertToolPart(ToolUpdate(call, more.tool, IsStreaming, more.dynamic, parse(more.text), Null, Null, None));
    }

    method HandleInputAvailable(call: string, tool: string, input: Value, dynamic: bool)
      modifies this`parts
      ensures State() == AfterInput(old(State()), call, tool, input, dynamic)
    {
      UpsertToolPart(ToolUpdate(call, tool, IsReady, dynamic, input, Null, Null, None));
      SettleApproval(call, None);
    }

    method HandleInputError(call: string, tool: string, input: Value, errorText: string, dynamic: bool)
      modifies this`parts
      ensures State() == AfterInputError(old(State()), call, tool, input, errorText, dynamic)
    {
      var at := FindFirst(parts, p => OfCall(p, call));
      var isDynamic := if at < |parts| then parts[at].dynamic else dynamic;
      var update := ToolUpdate(call, tool, IsFailed, isDynamic, Null, Null, Null, Some(errorText));
      if isDynamic {
        update := update.(input := input);
      } else {
        update := update.(rawInput := input);
      }
      UpsertToolPart(update);
    }

    method HandleApprovalRequest(call: string, approvalId: string)
      modifies this`parts, this`approvals
      ensures State() == AfterApprovalRequest(old(State()), call, approvalId)
    {
      var at := FindFirst(parts, p => OfCall(p, call));
      if at < |parts| {
        parts := parts[at := parts[at].(state := IsAwaiting, approval := Some(Approval(approvalId, None)))];
        approvals := approvals[call := approvalId];
      }
    }

    method HandleOutputDenied(call: string)
      modifies this`parts
      ensures State() == AfterDenial(old(State()), call)
    {
      var at := FindFirst(parts, p => OfCall(p, call));
      if at < |parts| {
        parts := parts[at := parts[at].(state := IsDenied)];
        SettleApproval(call, Some(false));
      }
    }

    method HandleOutputAvailable(call: string, output: Value)
      modifies this`parts
      ensures State() == AfterOutput(old(State()), call, output)
    {
      var at := FindFirst(parts, p => OfCall(p, call));
      if at < |parts| {
        var p := parts[at];
        UpsertToolPart(ToolUpdate(call, p.tool, IsAnswered, p.dynamic, p.input, output, Null, None));
        SettleApproval(call, Some(true));
      }
    }

    method HandleOutputError(call: string, errorText: string)
      modifies this`parts
      ensures State() == AfterOutputError(old(State()), call, errorText)
    {
      var at := FindFirst(parts, p => OfCall(p, call));
      if at < |parts| {
        var p := parts[at];
        UpsertToolPart(ToolUpdate(call, p.tool, IsFailed, p.dynamic, p.input, Null, p.rawInput, Some(errorText)));
        SettleApproval(call, Some(true));
      }
    }

    method HandleToolInput(c: Chunk, parse: string -> Value)
      requires c.InputStart? || c.InputDelta? || c.InputAvailable? || c.InputError?
      modifies this`parts, this`partials
      ensures State() == AfterTool(old(State()), c, parse)
    {
      match c {
        case InputStart(call, tool, dynamic) => HandleInputStart(call, tool, dynamic);
        case InputDelta(call, delta) => HandleInputDelta(call, delta, parse);
        case InputAvailable(call, tool, input, dynamic) => HandleInputAvailable(call, tool, input, dynamic);
        case InputError(call, tool, input, errorText, dynamic) => HandleInputError(call, tool, input, errorText, dynamic);
      }
    }

    method HandleToolOutcome(c: Chunk, parse: string -> Value)
      requires c.ApprovalRequest? || c.OutputDenied? || c.OutputAvailable? || c.OutputError?
      modifies this`parts, this`approvals
      ensures State() == AfterTool(old(State()), c, parse)
    {
      match c {
        case ApprovalRequest(call, approvalId) => HandleApprovalRequest(call, approvalId);
        case OutputDenied(call) => HandleOutputDenied(call);
        case OutputAvailable(call, output) => HandleOutputAvailable(call, output);
        case OutputError(call, errorText) => HandleOutputError(call, errorText);
      }
    }

    method HandleTool(c: Chunk, parse: string -> Value)
      modifies this`parts, this`partials, this`approvals
      ensures State() == AfterTool(old(State()), c, parse)
    {
      if c.InputStart? || c.InputDelta? || c.InputAvailable? || c.InputError? {
        HandleToolInput(c, parse);
      } else if c.ApprovalRequest? || c.OutputDenied? || c.OutputAvailable? || c.OutputError? {
        HandleToolOutcome(c, parse);
      }
    }

    method HandleSummary(fields: Option<SummaryFields>)
      modifies this`parts
      ensures State() == AfterSummary(old(State()), fields)
    {
      var payload := ReadSummary(fields);
      if payload.None? {
        return;
      }
      var Summary(call, line, status) := payload.value;
      var at := FindFirst(parts, p => OfFlavour(p, call, false));
      if at == |parts| {
        at := FindFirst(parts, p => OfFlavour(p, call, true));
      }
      if at == |parts| {
        return;
      }
      parts := parts[at := parts[at].(summary := Some((line, status)))];
    }

    method HandleData(kind: string, dataId: Option<string>, data: Value)
      modifies this`parts
      ensures State() == AfterData(old(State()), kind, dataId, data)
    {
      if dataId.Some? {
        var at := FindFirst(parts, p => HasData(p, kind, dataId.value));
        if at < |parts| {
          parts := parts[at := parts[at].(data := data)];
          return;
        }
      }
      parts := parts + [DataPart(kind, dataId, data)];
    }

    method HandleStream(c: Chunk)
      modifies this`parts, this`active
      ensures State() == AfterStream(old(State()), c)
    {
      match c {
        case StreamStart(key) =>
          active := active[key := |parts|];
          parts := parts + [Stream(key.kind, "", false)];
        case StreamDelta(key, delta) =>
          if key in active && active[key] < |parts| && parts[active[key]].Stream? {
            var part := parts[active[key]];
            parts := parts[active[key] := part.(text := part.text + delta)];
          }
        case StreamEnd(key) =>
          if key in active && active[key] < |parts| && parts[active[key]].Stream? {
            parts := parts[active[key] := parts[active[key]].(done := true)];
            active := active - {key};
          }
        case FinishStep => active := map[];
        case _ =>
      }
    }

    method HandlePart(c: Chunk)
      modifies this`parts
      ensures State() == AfterPart(old(State()), c)
    {
      match c {
        case StartStep => parts := parts + [StepStart];
        case FileChunk(url, mediaType, _) => parts := parts + [File(url, mediaType)];
        case SourceUrl(sourceId, url, title) => parts := parts + [Url(sourceId, url, title)];
        case SourceDocument(sourceId, mediaType, heading, filename) =>
          parts := parts + [Document(sourceId, mediaType, heading, filename)];
        case _ =>
      }
    }

    method HandleMessage(c: Chunk)
      modifies this`id, this`metadata, this`finishReason
      ensures State() == AfterMessage(old(State()), c)
    {
      match c {
        case Start(messageId, more) =>
          id := if messageId.Some? then messageId.value else id;
          MergeMetadata(more);
        case MessageMetadata(more) => MergeMetadata(more);
        case Finish(reason, more) =>
          finishReason := if reason.Some? then reason else finishReason;
          MergeMetadata(more);
        case _ =>
      }
    }

    method Apply(c: Chunk, parse: string -> Value)
      modifies this
      ensures State() == After(old(State()), c, parse)
    {
      match FamilyOf(c) {
        case OfStream => HandleStream(c);
        case OfTool => HandleTool(c, parse);
        case OfPart => HandlePart(c);
        case OfMessage => HandleMessage(c);
        case OfData =>
          if !c.transient {
            HandleData(c.kind, c.dataId, c.data);
          }
        case OfSummary =>
          if !c.transient {
            HandleSummary(c.fields);
          }
      }
    }
  }

  method ReduceChunks(chunks: seq<Chunk>, messageId: string, parse: string -> Value) returns (log: Log)
    ensures log == LogOf(messageId, chunks, parse)
  {
    var state := new ReducerState(messageId);
    for i := 0 to |chunks|
      invariant state.State() == LogOf(messageId, chunks[..i], parse)
    {
      assert chunks[..i + 1][..i] == chunks[..i];
      state.Apply(chunks[i], parse);
    }
    assert chunks[..|chunks|] == chunks;
    log := state.State();
  }
}
