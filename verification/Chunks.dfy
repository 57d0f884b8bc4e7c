/** The chunks of a conversation's log, with the fields the protocol requires of each. */
module Chunks {
  import opened Wrappers
  import D = Digest

  /** A JSON value, held by its text. `Null` is also an absent one. */
  datatype Value = Null | Json(text: string)

  datatype StreamKind = TextStream | ReasoningStream

  /** What a streamed part is known by: its kind and its id. */
  datatype StreamKey = StreamKey(kind: StreamKind, id: string)

  datatype SummaryStatus = SummaryOk | SummaryEmpty | SummaryWarn | SummaryCorrected

  /** A summary's fields as the wire carries them. */
  datatype SummaryFields = SummaryFields(call: Option<string>, summary: Option<string>, status: Option<string>)

  type Metadata = map<string, Value>

  datatype Chunk =
    | Start(messageId: Option<string>, metadata: Option<Metadata>)
    | StartStep
    | FinishStep
    | StreamStart(key: StreamKey)
    | StreamDelta(key: StreamKey, delta: string)
    | StreamEnd(key: StreamKey)
    | FileChunk(url: string, mediaType: string, filename: Option<string>)
    | SourceUrl(sourceId: string, url: string, title: Option<string>)
    | SourceDocument(sourceId: string, mediaType: string, heading: string, filename: Option<string>)
    | InputStart(call: string, tool: string, dynamic: bool)
    | InputDelta(call: string, delta: string)
    | InputAvailable(call: string, tool: string, input: Value, dynamic: bool)
    | InputError(call: string, tool: string, input: Value, errorText: string, dynamic: bool)
    | ApprovalRequest(call: string, approvalId: string)
    | OutputDenied(call: string)
    | OutputAvailable(call: string, output: Value)
    | OutputError(call: string, errorText: string)
    | Data(kind: string, dataId: Option<string>, data: Value, transient: bool)
    | ToolSummary(fields: Option<SummaryFields>, transient: bool)
    | MessageMetadata(metadata: Option<Metadata>)
    | ErrorChunk(errorText: string)
    | Abort
    | Finish(reason: Option<string>, metadata: Option<Metadata>)
    | Done
    | Unknown

  /** Which of a reducer's handlers a chunk belongs to. */
  datatype Family = OfStream | OfTool | OfPart | OfMessage | OfData | OfSummary

  function FamilyOf(c: Chunk): (family: Family)
    ensures family.OfData? <==> c.Data?
    ensures family.OfSummary? <==> c.ToolSummary?
  {
    if c.StreamStart? || c.StreamDelta? || c.StreamEnd? || c.FinishStep? then OfStream
    else if c.InputStart? || c.InputDelta? || c.InputAvailable? || c.InputError? || c.ApprovalRequest? || c.OutputDenied? ||
            c.OutputAvailable? || c.OutputError? then OfTool
    else if c.StartStep? || c.FileChunk? || c.SourceUrl? || c.SourceDocument? then OfPart
    else if c.Data? then OfData
    else if c.ToolSummary? then OfSummary
    else OfMessage
  }

  function KnownStatus(raw: string): Option<SummaryStatus> {
    if raw == "ok" then Some(SummaryOk)
    else if raw == "empty" then Some(SummaryEmpty)
    else if raw == "warn" then Some(SummaryWarn)
    else if raw == "corrected" then Some(SummaryCorrected)
    else None
  }

  function Merged(held: Option<Metadata>, metadata: Option<Metadata>): Option<Metadata> {
    match (held, metadata)
    case (_, None) => held
    case (None, Some(_)) => metadata
    case (Some(before), Some(more)) => Some(before + more)
  }

  // The line the runtime admits as a tool's summary.

  const TOOL_SUMMARY_LIMIT := 120

  predicate Ascii(text: string) { forall c <- text :: c < '\U{80}' }

  /** The text as one readable line, if it is one. */
  function ReadableLine(text: string): Option<string> {
    var line := D.Collapsed(text, false, false);
    if '\n' in text || '\r' in text || !Ascii(text) || line == "" || line[|line| - 1] == '.' || |line| > TOOL_SUMMARY_LIMIT
    then None else Some(line)
  }

  datatype Summary = Summary(call: string, line: string, status: SummaryStatus)

  /** The summary a chunk carries, or nothing when the wire malformed it. */
  function ReadSummary(fields: Option<SummaryFields>): Option<Summary> {
    match fields
    case Some(SummaryFields(Some(call), Some(text), status)) =>
      var known := if status.None? then Some(SummaryOk) else KnownStatus(status.value);
      var line := ReadableLine(text);
      if known.Some? && line.Some? then Some(Summary(call, line.value, known.value)) else None
    case _ => None
  }
}
