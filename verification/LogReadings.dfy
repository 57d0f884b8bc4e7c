/** What each part of the server's message says, read straight off the chunks. */
module LogReadings {
  import opened Wrappers
  import opened Chunks
  import L = LogReducer
  import R = TurnReadings
  import T = TurnReducer
  import D = Digest
  import DigestTells

  // A call.

  /** A chunk that opens a call, if none did before. */
  predicate Opens(c: Chunk, call: string) { (c.InputStart? || c.InputAvailable? || c.InputError?) && c.call == call }

  predicate Opened(chunks: seq<Chunk>, call: string) { exists i | 0 <= i < |chunks| :: Opens(chunks[i], call) }

  /** Whether the chunk that opened a call calls its tool dynamic. */
  function Flavour(chunks: seq<Chunk>, call: string): bool {
    if chunks == [] then false
    else if Opened(R.Front(chunks), call) then Flavour(R.Front(chunks), call)
    else Opens(R.Last(chunks), call) && R.Last(chunks).dynamic
  }

  predicate Keeps(front: seq<Chunk>, c: Chunk) {
    (c.InputStart? || c.InputAvailable?) && Opened(front, c.call) ==> c.dynamic == Flavour(front, c.call)
  }

  /** No call's tool is dynamic in one chunk and not in another. */
  predicate OneFlavour(chunks: seq<Chunk>) { chunks != [] ==> OneFlavour(R.Front(chunks)) && Keeps(R.Front(chunks), R.Last(chunks)) }

  /** The input streamed in since the call was last started, if it was. */
  function Streamed(chunks: seq<Chunk>, call: string): Option<string> {
    if chunks == [] then None
    else
      var before, c := Streamed(R.Front(chunks), call), R.Last(chunks);
      if c.InputStart? && c.call == call then Some("")
      else if c.InputDelta? && c.call == call && before.Some? then Some(before.value + c.delta)
      else before
  }

  function StartedAs(chunks: seq<Chunk>, call: string): string {
    if chunks == [] then ""
    else if R.Last(chunks).InputStart? && R.Last(chunks).call == call then R.Last(chunks).tool
    else StartedAs(R.Front(chunks), call)
  }

  /** The name of the tool: the first one said, or the last where the tool is dynamic. */
  function ToolOf(chunks: seq<Chunk>, call: string): string {
    if chunks == [] then ""
    else
      var front, c := R.Front(chunks), R.Last(chunks);
      var again := Opened(front, call) && !Flavour(front, call);
      if Opens(c, call) && !again then c.tool
      else if c.InputDelta? && c.call == call && Streamed(front, call).Some? && !again then StartedAs(front, call)
      else ToolOf(front, call)
  }

  function Or(said: Value, before: Value): Value { if said == Null then before else said }

  /** The last input that is not empty. An input refused for its error counts where the tool is dynamic. */
  function InputOf(chunks: seq<Chunk>, call: string, parse: string -> Value): Value {
    if chunks == [] then Null
    else
      var before, c := InputOf(R.Front(chunks), call, parse), R.Last(chunks);
      if c.InputAvailable? && c.call == call then Or(c.input, before)
      else if c.InputDelta? && c.call == call && Streamed(chunks, call).Some? then Or(parse(Streamed(chunks, call).value), before)
      else if c.InputError? && c.call == call && Flavour(chunks, call) then Or(c.input, before)
      else before
  }

  /** The last refused input that is not empty, where the tool is not dynamic. */
  function RefusedOf(chunks: seq<Chunk>, call: string): Value {
    if chunks == [] then Null
    else
      var before, c := RefusedOf(R.Front(chunks), call), R.Last(chunks);
      if c.InputError? && c.call == call && !Flavour(chunks, call) then Or(c.input, before) else before
  }

  function OutputOf(chunks: seq<Chunk>, call: string): Value {
    if chunks == [] then Null
    else
      var before, c := OutputOf(R.Front(chunks), call), R.Last(chunks);
      if c.OutputAvailable? && c.call == call && Opened(R.Front(chunks), call) then Or(c.output, before) else before
  }

  function ErrorOf(chunks: seq<Chunk>, call: string): Option<string> {
    if chunks == [] then None
    else
      var c := R.Last(chunks);
      if c.InputError? && c.call == call then Some(c.errorText)
      else if c.OutputError? && c.call == call && Opened(R.Front(chunks), call) then Some(c.errorText)
      else ErrorOf(R.Front(chunks), call)
  }

  /** The approval last asked for. */
  function AskedOf(chunks: seq<Chunk>, call: string): Option<string> {
    if chunks == [] then None
    else
      var c := R.Last(chunks);
      if c.ApprovalRequest? && c.call == call && Opened(R.Front(chunks), call) then Some(c.approvalId) else AskedOf(R.Front(chunks), call)
  }

  /** A chunk that settles the approval a call asked for. */
  predicate Settles(c: Chunk, call: string) { (c.InputAvailable? || c.OutputDenied? || c.OutputAvailable? || c.OutputError?) && c.call == call }

  /** The approval: asked for, refused, given with an outcome, or withdrawn by a new input. */
  function ApprovalOf(chunks: seq<Chunk>, call: string): Option<L.Approval> {
    if chunks == [] then None
    else
      var c, asked := R.Last(chunks), AskedOf(chunks, call);
      if c.ApprovalRequest? && c.call == call && Opened(R.Front(chunks), call) then Some(L.Approval(c.approvalId, None))
      else if Settles(c, call) && asked.Some?
      then if c.InputAvailable? then None else Some(L.Approval(asked.value, Some(!c.OutputDenied?)))
      else ApprovalOf(R.Front(chunks), call)
  }

  predicate Moves(front: seq<Chunk>, c: Chunk, call: string) {
    match c
    case InputStart(named, _, _) => named == call
    case InputAvailable(named, _, _, _) => named == call
    case InputError(named, _, _, _, _) => named == call
    case InputDelta(named, _) => named == call && Streamed(front, call).Some?
    case ApprovalRequest(named, _) => named == call && Opened(front, call)
    case OutputDenied(named) => named == call && Opened(front, call)
    case OutputAvailable(named, _) => named == call && Opened(front, call)
    case OutputError(named, _) => named == call && Opened(front, call)
    case _ => false
  }

  /** The last chunk that moved a call: the number of chunks when none did. */
  function LastMove(chunks: seq<Chunk>, call: string): (at: nat)
    ensures at <= |chunks|
    ensures at < |chunks| ==> Moves(chunks[..at], chunks[at], call)
    ensures forall i | (if at < |chunks| then at + 1 else 0) <= i < |chunks| :: !Moves(chunks[..i], chunks[i], call)
  {
    if chunks == [] then 0
    else
      var n := |chunks| - 1;
      if Moves(R.Front(chunks), R.Last(chunks), call) then n
      else
        var at := LastMove(R.Front(chunks), call);
        assert forall i | 0 <= i < n :: R.Front(chunks)[..i] == chunks[..i] && R.Front(chunks)[i] == chunks[i];
        if at < n then at else |chunks|
  }

  function StateAfter(c: Chunk): L.ToolState {
    match c
    case InputAvailable(_, _, _, _) => L.IsReady
    case InputError(_, _, _, _, _) => L.IsFailed
    case OutputError(_, _) => L.IsFailed
    case ApprovalRequest(_, _) => L.IsAwaiting
    case OutputDenied(_) => L.IsDenied
    case OutputAvailable(_, _) => L.IsAnswered
    case _ => L.IsStreaming
  }

  function StateOf(chunks: seq<Chunk>, call: string): L.ToolState {
    var at := LastMove(chunks, call);
    if at < |chunks| then StateAfter(chunks[at]) else L.IsStreaming
  }

  /** A line the runtime admits: one line of plain characters, not too long, that does not end in a full stop. */
  predicate Admits(text: string) {
    var line := D.Joined(DigestTells.Words(text), " ");
    && (forall c <- text :: c != '\n' && c != '\r' && c < '\U{80}')
    && line != "" && line[|line| - 1] != '.' && |line| <= 120
  }

  function StatusFrom(status: Option<string>): Option<SummaryStatus> {
    if status == None || status == Some("ok") then Some(SummaryOk)
    else if status == Some("empty") then Some(SummaryEmpty)
    else if status == Some("warn") then Some(SummaryWarn)
    else if status == Some("corrected") then Some(SummaryCorrected)
    else None
  }

  /** The line a summary gives a call. A transient one, a line that is not admitted and an unknown status give none. */
  function LineFrom(c: Chunk, call: string): Option<(string, SummaryStatus)> {
    match c
    case ToolSummary(Some(SummaryFields(Some(named), Some(text), status)), false) =>
      if named == call && Admits(text) && StatusFrom(status).Some?
      then Some((D.Joined(DigestTells.Words(text), " "), StatusFrom(status).value)) else None
    case _ => None
  }

  lemma SummaryGives(c: Chunk, call: string)
    requires c.ToolSummary? && !c.transient
    ensures LineFrom(c, call) ==
            match ReadSummary(c.fields)
            case Some(Summary(named, line, status)) => if named == call then Some((line, status)) else None
            case None => None
  {
    if c.fields.Some? && c.fields.value.summary.Some? {
      var text := c.fields.value.summary.value;
      DigestTells.CollapsedIsWords(text, false, false);
      assert '\n' !in text && '\r' !in text && Ascii(text) <==> forall c <- text :: c != '\n' && c != '\r' && c < '\U{80}';
    }
  }

  function LineOf(chunks: seq<Chunk>, call: string): Option<(string, SummaryStatus)> {
    if chunks == [] then None
    else
      var line := LineFrom(R.Last(chunks), call);
      if line.Some? && Opened(R.Front(chunks), call) then line else LineOf(R.Front(chunks), call)
  }

  /** What the part of a call says. */
  function CallPart(chunks: seq<Chunk>, call: string, parse: string -> Value): (p: L.Part)
    ensures p.Tool? && p.call == call
  {
    L.Tool(Flavour(chunks, call), ToolOf(chunks, call), call, StateOf(chunks, call), InputOf(chunks, call, parse),
           OutputOf(chunks, call), RefusedOf(chunks, call), ErrorOf(chunks, call), ApprovalOf(chunks, call), LineOf(chunks, call))
  }

  // Streamed text.

  /** A chunk after which a part of a key takes no more. */
  predicate Shuts(c: Chunk, key: StreamKey) { c == StreamStart(key) || c == StreamEnd(key) || c.FinishStep? }

  predicate Shut(chunks: seq<Chunk>, b: nat, key: StreamKey) { exists i | b < i < |chunks| :: Shuts(chunks[i], key) }

  /** What was streamed into a part until it was shut. */
  function TextSince(chunks: seq<Chunk>, b: nat, key: StreamKey): string {
    if |chunks| <= b + 1 then ""
    else
      var before, c := TextSince(R.Front(chunks), b, key), R.Last(chunks);
      if c.StreamDelta? && c.key == key && !Shut(chunks, b, key) then before + c.delta else before
  }

  predicate EndedSince(chunks: seq<Chunk>, b: nat, key: StreamKey) {
    exists i | b < i < |chunks| :: chunks[i] == StreamEnd(key) && !Shut(chunks[..i], b, key)
  }

  // The parts.

  /** A chunk that begins a part of the message. */
  predicate Begins(chunks: seq<Chunk>, b: nat)
    requires b < |chunks|
  {
    match chunks[b]
    case StreamStart(_) => true
    case StartStep => true
    case FileChunk(_, _, _) => true
    case SourceUrl(_, _, _) => true
    case SourceDocument(_, _, _, _) => true
    case Data(kind, Some(id), _, false) => forall i | 0 <= i < b :: !R.SaysData(chunks[i], kind, id)
    case Data(_, None, _, false) => true
    case InputStart(call, _, _) => !Opened(chunks[..b], call)
    case InputAvailable(call, _, _, _) => !Opened(chunks[..b], call)
    case InputError(call, _, _, _, _) => !Opened(chunks[..b], call)
    case _ => false
  }

  /** What a part that a chunk began says by the end. */
  predicate Reads(p: L.Part, chunks: seq<Chunk>, b: nat, parse: string -> Value)
    requires b < |chunks|
  {
    match chunks[b]
    case StreamStart(key) => p == L.Stream(key.kind, TextSince(chunks, b, key), EndedSince(chunks, b, key))
    case StartStep => p == L.StepStart
    case FileChunk(url, mediaType, _) => p == L.File(url, mediaType)
    case SourceUrl(sourceId, url, title) => p == L.Url(sourceId, url, title)
    case SourceDocument(sourceId, mediaType, heading, filename) => p == L.Document(sourceId, mediaType, heading, filename)
    case Data(kind, Some(id), _, _) => p == L.DataPart(kind, Some(id), R.LastData(chunks, kind, id))
    case Data(kind, None, data, _) => p == L.DataPart(kind, None, data)
    case InputStart(call, _, _) => p == CallPart(chunks, call, parse)
    case InputAvailable(call, _, _, _) => p == CallPart(chunks, call, parse)
    case InputError(call, _, _, _, _) => p == CallPart(chunks, call, parse)
    case _ => false
  }

  function Beginnings(chunks: seq<Chunk>): (begins: seq<nat>)
    ensures forall i <- begins :: i < |chunks|
  {
    if chunks == [] then []
    else
      var before, n := Beginnings(R.Front(chunks)), |chunks| - 1;
      if Begins(chunks, n) then before + [n] else before
  }

  /** They are the chunks that begin a part, each once and in order. */
  lemma {:induction false} BeginningsInOrder(chunks: seq<Chunk>)
    ensures var begins := Beginnings(chunks);
            && (forall i: nat :: i in begins <==> i < |chunks| && Begins(chunks, i))
            && (forall j, k | 0 <= j < k < |begins| :: begins[j] < begins[k])
  {
    if chunks != [] {
      var front, n := R.Front(chunks), |chunks| - 1;
      BeginningsInOrder(front);
      assert chunks == front + [R.Last(chunks)];
      forall i: nat | i < n ensures Begins(chunks, i) <==> Begins(front, i) { FrontBegins(front, R.Last(chunks), i); }
      var before := Beginnings(front);
      assert forall k | 0 <= k < |before| :: before[k] in before && before[k] < n;
    }
  }

  lemma FrontBegins(front: seq<Chunk>, c: Chunk, i: nat)
    requires i < |front|
    ensures Begins(front + [c], i) <==> Begins(front, i)
  {
    var chunks := front + [c];
    assert chunks[i] == front[i] && chunks[..i] == front[..i];
    assert forall j | 0 <= j < i :: chunks[j] == front[j];
  }

  // One more chunk.

  lemma OpenedNext(front: seq<Chunk>, c: Chunk, call: string)
    ensures Opened(front + [c], call) <==> Opened(front, call) || Opens(c, call)
  {
    var chunks := front + [c];
    assert chunks[|front|] == c;
    assert forall i | 0 <= i < |front| :: chunks[i] == front[i];
    if Opened(front, call) {
      var i :| 0 <= i < |front| && Opens(front[i], call);
      assert Opens(chunks[i], call);
    }
  }

  lemma Ends(front: seq<Chunk>, c: Chunk)
    ensures R.Front(front + [c]) == front && R.Last(front + [c]) == c
  {
  }

  lemma FlavourNext(front: seq<Chunk>, c: Chunk, call: string)
    ensures Flavour(front + [c], call) == if Opened(front, call) then Flavour(front, call) else Opens(c, call) && c.dynamic
  {
    Ends(front, c);
  }

  lemma StreamedNext(front: seq<Chunk>, c: Chunk, call: string)
    ensures Streamed(front + [c], call) ==
            if c.InputStart? && c.call == call then Some("")
            else if c.InputDelta? && c.call == call && Streamed(front, call).Some? then Some(Streamed(front, call).value + c.delta)
            else Streamed(front, call)
    ensures StartedAs(front + [c], call) == if c.InputStart? && c.call == call then c.tool else StartedAs(front, call)
  {
    Ends(front, c);
  }

  lemma ToolNext(front: seq<Chunk>, c: Chunk, call: string)
    ensures var again := Opened(front, call) && !Flavour(front, call);
            ToolOf(front + [c], call) ==
            if Opens(c, call) && !again then c.tool
            else if c.InputDelta? && c.call == call && Streamed(front, call).Some? && !again then StartedAs(front, call)
            else ToolOf(front, call)
  {
    Ends(front, c);
  }

  lemma InputNext(front: seq<Chunk>, c: Chunk, call: string, parse: string -> Value)
    ensures InputOf(front + [c], call, parse) ==
            if c.InputAvailable? && c.call == call then Or(c.input, InputOf(front, call, parse))
            else if c.InputDelta? && c.call == call && Streamed(front + [c], call).Some?
            then Or(parse(Streamed(front + [c], call).value), InputOf(front, call, parse))
            else if c.InputError? && c.call == call && Flavour(front + [c], call) then Or(c.input, InputOf(front, call, parse))
            else InputOf(front, call, parse)
  {
    Ends(front, c);
  }

  lemma OutcomeNext(front: seq<Chunk>, c: Chunk, call: string)
    ensures RefusedOf(front + [c], call) ==
            if c.InputError? && c.call == call && !Flavour(front + [c], call) then Or(c.input, RefusedOf(front, call)) else RefusedOf(front, call)
    ensures OutputOf(front + [c], call) ==
            if c.OutputAvailable? && c.call == call && Opened(front, call) then Or(c.output, OutputOf(front, call)) else OutputOf(front, call)
    ensures ErrorOf(front + [c], call) ==
            if (c.InputError? && c.call == call) || (c.OutputError? && c.call == call && Opened(front, call)) then Some(c.errorText)
            else ErrorOf(front, call)
  {
    Ends(front, c);
  }

  lemma ApprovalNext(front: seq<Chunk>, c: Chunk, call: string)
    ensures AskedOf(front + [c], call) ==
            if c.ApprovalRequest? && c.call == call && Opened(front, call) then Some(c.approvalId) else AskedOf(front, call)
    ensures ApprovalOf(front + [c], call) ==
            if c.ApprovalRequest? && c.call == call && Opened(front, call) then Some(L.Approval(c.approvalId, None))
            else if Settles(c, call) && AskedOf(front, call).Some?
            then if c.InputAvailable? then None else Some(L.Approval(AskedOf(front, call).value, Some(!c.OutputDenied?)))
            else ApprovalOf(front, call)
  {
    Ends(front, c);
  }

  lemma LineNext(front: seq<Chunk>, c: Chunk, call: string)
    ensures LineOf(front + [c], call) == if LineFrom(c, call).Some? && Opened(front, call) then LineFrom(c, call) else LineOf(front, call)
  {
    Ends(front, c);
  }

  lemma StateNext(front: seq<Chunk>, c: Chunk, call: string)
    ensures StateOf(front + [c], call) == if Moves(front, c, call) then StateAfter(c) else StateOf(front, call)
  {
    Ends(front, c);
    var at := LastMove(front, call);
    assert LastMove(front + [c], call) == if Moves(front, c, call) then |front| else if at < |front| then at else |front| + 1;
    assert at < |front| ==> (front + [c])[at] == front[at];
  }

  lemma ShutNext(front: seq<Chunk>, c: Chunk, b: nat, key: StreamKey)
    requires b < |front|
    ensures Shut(front + [c], b, key) <==> Shut(front, b, key) || Shuts(c, key)
  {
    var chunks := front + [c];
    assert chunks[|front|] == c;
    assert forall i | 0 <= i < |front| :: chunks[i] == front[i];
    if Shut(front, b, key) {
      var i :| b < i < |front| && Shuts(front[i], key);
      assert Shuts(chunks[i], key);
    }
  }

  lemma TextNext(front: seq<Chunk>, c: Chunk, b: nat, key: StreamKey)
    requires b < |front|
    ensures TextSince(front + [c], b, key) ==
            if c.StreamDelta? && c.key == key && !Shut(front, b, key) then TextSince(front, b, key) + c.delta else TextSince(front, b, key)
  {
    Ends(front, c);
    ShutNext(front, c, b, key);
  }

  lemma EndedNext(front: seq<Chunk>, c: Chunk, b: nat, key: StreamKey)
    requires b < |front|
    ensures EndedSince(front + [c], b, key) <==> EndedSince(front, b, key) || (c == StreamEnd(key) && !Shut(front, b, key))
  {
    var chunks, n := front + [c], |front|;
    assert chunks[..n] == front && chunks[n] == c;
    assert forall i | 0 <= i < n :: chunks[i] == front[i] && chunks[..i] == front[..i];
    if EndedSince(front, b, key) {
      var i :| b < i < n && front[i] == StreamEnd(key) && !Shut(front[..i], b, key);
      assert chunks[i] == StreamEnd(key) && !Shut(chunks[..i], b, key);
    }
    if c == StreamEnd(key) && !Shut(front, b, key) {
      assert chunks[n] == StreamEnd(key) && !Shut(chunks[..n], b, key);
    }
  }

  // What a chunk may change.

  predicate About(c: Chunk, call: string) {
    match c
    case InputStart(named, _, _) => named == call
    case InputDelta(named, _) => named == call
    case InputAvailable(named, _, _, _) => named == call
    case InputError(named, _, _, _, _) => named == call
    case ApprovalRequest(named, _) => named == call
    case OutputDenied(named) => named == call
    case OutputAvailable(named, _) => named == call
    case OutputError(named, _) => named == call
    case ToolSummary(_, _) => LineFrom(c, call).Some?
    case _ => false
  }

  predicate Touches(front: seq<Chunk>, c: Chunk, b: nat)
    requires b < |front|
  {
    match front[b]
    case StreamStart(key) => (c.StreamDelta? || c.StreamEnd?) && c.key == key && !Shut(front, b, key)
    case Data(kind, Some(id), _, _) => R.SaysData(c, kind, id)
    case InputStart(call, _, _) => About(c, call)
    case InputAvailable(call, _, _, _) => About(c, call)
    case InputError(call, _, _, _, _) => About(c, call)
    case _ => false
  }

  lemma UntouchedCall(front: seq<Chunk>, c: Chunk, call: string, parse: string -> Value)
    requires !About(c, call)
    ensures (Opened(front + [c], call) <==> Opened(front, call)) && (Opened(front, call) ==> Flavour(front + [c], call) == Flavour(front, call))
    ensures Streamed(front + [c], call) == Streamed(front, call) && StartedAs(front + [c], call) == StartedAs(front, call)
    ensures AskedOf(front + [c], call) == AskedOf(front, call)
    ensures Opened(front, call) ==> CallPart(front + [c], call, parse) == CallPart(front, call, parse)
  {
    OpenedNext(front, c, call);
    FlavourNext(front, c, call);
    StreamedNext(front, c, call);
    ToolNext(front, c, call);
    InputNext(front, c, call, parse);
    OutcomeNext(front, c, call);
    ApprovalNext(front, c, call);
    LineNext(front, c, call);
    StateNext(front, c, call);
  }

  lemma Untouched(p: L.Part, front: seq<Chunk>, c: Chunk, b: nat, parse: string -> Value)
    requires b < |front| && Reads(p, front, b, parse) && !Touches(front, c, b)
    ensures Reads(p, front + [c], b, parse)
  {
    assert (front + [c])[b] == front[b];
    match front[b]
    case StreamStart(key) =>
      TextNext(front, c, b, key);
      EndedNext(front, c, b, key);
    case Data(kind, Some(id), _, _) => R.DataNext(front, c, kind, id);
    case InputStart(call, _, _) =>
      assert Opens(front[b], call) && Opened(front, call);
      UntouchedCall(front, c, call, parse);
    case InputAvailable(call, _, _, _) =>
      assert Opens(front[b], call) && Opened(front, call);
      UntouchedCall(front, c, call, parse);
    case InputError(call, _, _, _, _) =>
      assert Opens(front[b], call) && Opened(front, call);
      UntouchedCall(front, c, call, parse);
    case _ =>
  }

  // The parts, one chunk at a time.

  ghost predicate PartReads(parts: seq<L.Part>, chunks: seq<Chunk>, begins: seq<nat>, parse: string -> Value, k: nat)
    requires k < |parts| && k < |begins|
  {
    begins[k] < |chunks| && Begins(chunks, begins[k]) && Reads(parts[k], chunks, begins[k], parse)
  }

  ghost predicate AllRead(parts: seq<L.Part>, chunks: seq<Chunk>, begins: seq<nat>, parse: string -> Value) {
    |parts| == |begins| && forall k: nat | k < |begins| :: PartReads(parts, chunks, begins, parse, k)
  }

  lemma StillRead(parts: seq<L.Part>, front: seq<Chunk>, begins: seq<nat>, c: Chunk, parse: string -> Value, k: nat)
    requires k < |parts| && k < |begins| && PartReads(parts, front, begins, parse, k) && !Touches(front, c, begins[k])
    ensures PartReads(parts, front + [c], begins, parse, k)
  {
    FrontBegins(front, c, begins[k]);
    Untouched(parts[k], front, c, begins[k], parse);
  }

  lemma AllStillRead(parts: seq<L.Part>, front: seq<Chunk>, begins: seq<nat>, c: Chunk, parse: string -> Value)
    requires AllRead(parts, front, begins, parse) && forall k: nat | k < |begins| :: begins[k] < |front| ==> !Touches(front, c, begins[k])
    ensures AllRead(parts, front + [c], begins, parse)
  {
    forall k: nat | k < |begins| ensures PartReads(parts, front + [c], begins, parse, k) {
      assert PartReads(parts, front, begins, parse, k);
      StillRead(parts, front, begins, c, parse, k);
    }
  }

  lemma OneMoreRead(parts: seq<L.Part>, chunks: seq<Chunk>, begins: seq<nat>, parse: string -> Value, p: L.Part, n: nat)
    requires AllRead(parts, chunks, begins, parse) && n < |chunks| && Begins(chunks, n) && Reads(p, chunks, n, parse)
    ensures AllRead(parts + [p], chunks, begins + [n], parse)
  {
    forall k: nat | k < |begins| + 1 ensures PartReads(parts + [p], chunks, begins + [n], parse, k) {
      if k < |begins| { assert PartReads(parts, chunks, begins, parse, k); }
    }
  }

  lemma OneRead(parts: seq<L.Part>, front: seq<Chunk>, begins: seq<nat>, c: Chunk, parse: string -> Value, at: nat, p: L.Part)
    requires AllRead(parts, front, begins, parse) && at < |begins| && begins[at] < |front| && Reads(p, front + [c], begins[at], parse)
    requires forall k: nat | k < |begins| && k != at :: begins[k] < |front| ==> !Touches(front, c, begins[k])
    ensures AllRead(parts[at := p], front + [c], begins, parse)
  {
    var after := parts[at := p];
    forall k: nat | k < |begins| ensures PartReads(after, front + [c], begins, parse, k) {
      assert PartReads(parts, front, begins, parse, k);
      if k == at {
        FrontBegins(front, c, begins[k]);
      } else {
        StillRead(parts, front, begins, c, parse, k);
      }
    }
  }

  /** No two parts are of one call, of one piece of data, or of one stream that is not shut. */
  lemma OnePartEach(parts: seq<L.Part>, chunks: seq<Chunk>, begins: seq<nat>, parse: string -> Value, j: nat, k: nat)
    requires AllRead(parts, chunks, begins, parse) && R.Ascends(begins) && j < k < |begins| && begins[k] < |chunks|
    ensures begins[j] < begins[k]
    ensures forall call :: Opens(chunks[begins[j]], call) ==> !Opens(chunks[begins[k]], call)
    ensures forall kind, id :: R.SaysData(chunks[begins[j]], kind, id) ==> !R.SaysData(chunks[begins[k]], kind, id)
    ensures forall key :: chunks[begins[j]] == chunks[begins[k]] == StreamStart(key) ==> Shut(chunks, begins[j], key)
  {
    assert PartReads(parts, chunks, begins, parse, j) && PartReads(parts, chunks, begins, parse, k);
    var b, d := begins[j], begins[k];
    assert chunks[..d][b] == chunks[b];
  }

  // What the lookups find.

  predicate CallTied(log: L.Log, chunks: seq<Chunk>, call: string) {
    && (call in log.partials <==> Streamed(chunks, call).Some?)
    && (call in log.partials ==> log.partials[call] == L.PartialCall(Streamed(chunks, call).value, StartedAs(chunks, call), Flavour(chunks, call)))
    && (call in log.approvals <==> AskedOf(chunks, call).Some?)
    && (call in log.approvals ==> Some(log.approvals[call]) == AskedOf(chunks, call))
    && (!Opened(chunks, call) ==> Streamed(chunks, call).None? && AskedOf(chunks, call).None?)
  }

  /** The open part of a stream is the last one started under its key, until it is shut. */
  predicate ActiveTied(active: map<StreamKey, nat>, chunks: seq<Chunk>, begins: seq<nat>, key: StreamKey) {
    && (key in active ==> active[key] < |begins| && OpenPart(chunks, begins, active[key], key))
    && (forall k: nat | k < |begins| && OpenPart(chunks, begins, k, key) :: key in active && active[key] == k)
  }

  predicate OpenPart(chunks: seq<Chunk>, begins: seq<nat>, k: nat, key: StreamKey)
    requires k < |begins|
  {
    begins[k] < |chunks| && chunks[begins[k]] == StreamStart(key) && !Shut(chunks, begins[k], key)
  }

  ghost predicate Calls(log: L.Log, chunks: seq<Chunk>) { forall call :: CallTied(log, chunks, call) }

  ghost predicate Streams(active: map<StreamKey, nat>, chunks: seq<Chunk>, begins: seq<nat>) {
    forall key :: ActiveTied(active, chunks, begins, key)
  }

  ghost predicate LogReads(log: L.Log, chunks: seq<Chunk>, begins: seq<nat>, parse: string -> Value) {
    R.Ascends(begins) && AllRead(log.parts, chunks, begins, parse) && Calls(log, chunks) && Streams(log.active, chunks, begins)
  }

  ghost predicate Holds(log: L.Log, chunks: seq<Chunk>, parse: string -> Value) { LogReads(log, chunks, Beginnings(chunks), parse) }

  lemma BeginningsNext(front: seq<Chunk>, c: Chunk)
    ensures Beginnings(front + [c]) == Beginnings(front) + if Begins(front + [c], |front|) then [|front|] else []
    ensures R.Ascends(Beginnings(front + [c]))
  {
    Ends(front, c);
    BeginningsInOrder(front + [c]);
  }

  predicate OpensAt(chunks: seq<Chunk>, begins: seq<nat>, k: nat, call: string)
    requires k < |begins|
  {
    begins[k] < |chunks| && Opens(chunks[begins[k]], call)
  }

  /** An open call has one part, and it is the one that each lookup finds. */
  ghost predicate Found(parts: seq<L.Part>, chunks: seq<Chunk>, begins: seq<nat>, parse: string -> Value, call: string, at: nat) {
    && at < |parts| && at < |begins| && OpensAt(chunks, begins, at, call) && parts[at] == CallPart(chunks, call, parse)
    && L.Invocation(parts, call) == at && L.ToolPartById(parts, call, Flavour(chunks, call)) == at
    && L.ToolPartById(parts, call, !Flavour(chunks, call)) == |parts|
    && forall k: nat | k < |begins| && OpensAt(chunks, begins, k, call) :: k == at
  }

  ghost predicate NotFound(parts: seq<L.Part>, chunks: seq<Chunk>, begins: seq<nat>, call: string) {
    && L.Invocation(parts, call) == |parts|
    && L.ToolPartById(parts, call, false) == |parts| && L.ToolPartById(parts, call, true) == |parts|
    && forall k: nat | k < |begins| :: !OpensAt(chunks, begins, k, call)
  }

  lemma PartOfCallReads(parts: seq<L.Part>, chunks: seq<Chunk>, begins: seq<nat>, parse: string -> Value, call: string, k: nat)
    requires AllRead(parts, chunks, begins, parse) && k < |begins|
    ensures L.OfCall(parts[k], call) <==> OpensAt(chunks, begins, k, call)
    ensures L.OfCall(parts[k], call) ==> parts[k] == CallPart(chunks, call, parse) && Opened(chunks, call)
  {
    assert PartReads(parts, chunks, begins, parse, k);
    if OpensAt(chunks, begins, k, call) {
      assert Opens(chunks[begins[k]], call);
    }
  }

  lemma {:induction false} FirstOpening(chunks: seq<Chunk>, call: string) returns (b: nat)
    requires Opened(chunks, call)
    ensures b < |chunks| && Opens(chunks[b], call) && Begins(chunks, b)
  {
    var front, c := R.Front(chunks), R.Last(chunks);
    assert chunks == front + [c];
    OpenedNext(front, c, call);
    if Opened(front, call) {
      b := FirstOpening(front, call);
      FrontBegins(front, c, b);
    } else {
      b := |front|;
    }
  }

  lemma CallFound(parts: seq<L.Part>, chunks: seq<Chunk>, begins: seq<nat>, parse: string -> Value, call: string) returns (at: nat)
    requires AllRead(parts, chunks, begins, parse) && begins == Beginnings(chunks) && Opened(chunks, call)
    ensures Found(parts, chunks, begins, parse, call, at)
  {
    BeginningsInOrder(chunks);
    InBounds(chunks);
    var b := FirstOpening(chunks, call);
    at :| 0 <= at < |begins| && begins[at] == b;
    assert OpensAt(chunks, begins, at, call);
    forall k: nat | k < |begins|
      ensures L.OfCall(parts[k], call) <==> k == at
      ensures OpensAt(chunks, begins, k, call) ==> k == at
    {
      PartOfCallReads(parts, chunks, begins, parse, call, k);
      if k != at {
        OnePartEach(parts, chunks, begins, parse, if k < at then k else at, if k < at then at else k);
      }
    }
    PartOfCallReads(parts, chunks, begins, parse, call, at);
    assert L.OfFlavour(parts[at], call, Flavour(chunks, call));
  }

  lemma CallNotFound(parts: seq<L.Part>, chunks: seq<Chunk>, begins: seq<nat>, parse: string -> Value, call: string)
    requires AllRead(parts, chunks, begins, parse) && !Opened(chunks, call)
    ensures NotFound(parts, chunks, begins, call)
  {
    forall k: nat | k < |begins| ensures !L.OfCall(parts[k], call) && !OpensAt(chunks, begins, k, call) {
      PartOfCallReads(parts, chunks, begins, parse, call, k);
    }
  }

  // What a chunk leaves alone.

  lemma CallStill(log: L.Log, front: seq<Chunk>, c: Chunk, call: string)
    requires CallTied(log, front, call) && !About(c, call)
    ensures CallTied(log, front + [c], call)
  {
    UntouchedCall(front, c, call, (text: string) => Null);
  }

  lemma CallsStill(log: L.Log, after: L.Log, front: seq<Chunk>, c: Chunk)
    requires Calls(log, front) && after.partials == log.partials && after.approvals == log.approvals && forall call :: !About(c, call)
    ensures Calls(after, front + [c])
  {
    forall call ensures CallTied(after, front + [c], call) {
      assert CallTied(log, front, call);
      CallStill(log, front, c, call);
    }
  }

  lemma ActiveStill(active: map<StreamKey, nat>, front: seq<Chunk>, c: Chunk, begins: seq<nat>, more: seq<nat>, key: StreamKey)
    requires ActiveTied(active, front, begins, key) && !Shuts(c, key) && (forall k | 0 <= k < |begins| :: begins[k] < |front|)
    requires more == begins || more == begins + [|front|]
    ensures ActiveTied(active, front + [c], more, key)
  {
    var chunks := front + [c];
    forall k: nat | k < |begins| ensures OpenPart(chunks, more, k, key) <==> OpenPart(front, begins, k, key) {
      assert chunks[begins[k]] == front[begins[k]];
      ShutNext(front, c, begins[k], key);
    }
    assert |more| > |begins| ==> chunks[more[|begins|]] == c;
  }

  lemma StreamsStill(active: map<StreamKey, nat>, front: seq<Chunk>, c: Chunk, begins: seq<nat>, more: seq<nat>)
    requires Streams(active, front, begins) && !c.StreamStart? && !c.StreamEnd? && !c.FinishStep?
    requires (forall k | 0 <= k < |begins| :: begins[k] < |front|) && (more == begins || more == begins + [|front|])
    ensures Streams(active, front + [c], more)
  {
    forall key ensures ActiveTied(active, front + [c], more, key) {
      assert ActiveTied(active, front, begins, key);
      ActiveStill(active, front, c, begins, more, key);
    }
  }

  lemma InBounds(chunks: seq<Chunk>)
    ensures forall k | 0 <= k < |Beginnings(chunks)| :: Beginnings(chunks)[k] < |chunks|
  {
    var begins := Beginnings(chunks);
    assert forall k | 0 <= k < |begins| :: begins[k] in begins;
  }

  // Chunks that name no part but the one they add.

  predicate Aside(c: Chunk) {
    FamilyOf(c).OfPart? || FamilyOf(c).OfMessage? || (c.Data? && (c.transient || c.dataId.None?))
  }

  lemma AsideHolds(log: L.Log, front: seq<Chunk>, c: Chunk, parse: string -> Value)
    requires Holds(log, front, parse) && Aside(c)
    ensures Holds(L.After(log, c, parse), front + [c], parse)
  {
    var begins, chunks, after, n := Beginnings(front), front + [c], L.After(log, c, parse), |front|;
    BeginningsNext(front, c);
    InBounds(front);
    assert chunks[n] == c;
    CallsStill(log, after, front, c);
    StreamsStill(log.active, front, c, begins, Beginnings(chunks));
    AllStillRead(log.parts, front, begins, c, parse);
    if Begins(chunks, n) {
      OneMoreRead(log.parts, chunks, begins, parse, after.parts[|log.parts|], n);
      assert after.parts == log.parts + [after.parts[|log.parts|]];
    }
  }

  // Streamed parts.

  lemma StartHolds(log: L.Log, front: seq<Chunk>, key: StreamKey, parse: string -> Value)
    requires Holds(log, front, parse)
    ensures Holds(L.After(log, StreamStart(key), parse), front + [StreamStart(key)], parse)
  {
    var c := StreamStart(key);
    var begins, chunks, after, n := Beginnings(front), front + [c], L.After(log, c, parse), |front|;
    BeginningsNext(front, c);
    InBounds(front);
    assert chunks[n] == c;
    CallsStill(log, after, front, c);
    forall other ensures ActiveTied(after.active, chunks, begins + [n], other) {
      assert ActiveTied(log.active, front, begins, other);
      if other == key {
        forall k: nat | k < |begins| ensures !OpenPart(chunks, begins + [n], k, key) { ShutNext(front, c, begins[k], key); }
        assert OpenPart(chunks, begins + [n], |begins|, key);
      } else {
        ActiveStill(log.active, front, c, begins, begins + [n], other);
      }
    }
    AllStillRead(log.parts, front, begins, c, parse);
    OneMoreRead(log.parts, chunks, begins, parse, L.Stream(key.kind, "", false), n);
  }

  /** After the end of a stream or of a step nothing under its key is open. */
  lemma ShutTied(active: map<StreamKey, nat>, front: seq<Chunk>, c: Chunk, begins: seq<nat>, key: StreamKey)
    requires Shuts(c, key) && !c.StreamStart? && key !in active && forall k | 0 <= k < |begins| :: begins[k] < |front|
    ensures ActiveTied(active, front + [c], begins, key)
  {
    forall k: nat | k < |begins| ensures !OpenPart(front + [c], begins, k, key) { ShutNext(front, c, begins[k], key); }
  }

  lemma FinishHolds(log: L.Log, front: seq<Chunk>, parse: string -> Value)
    requires Holds(log, front, parse)
    ensures Holds(L.After(log, FinishStep, parse), front + [FinishStep], parse)
  {
    var begins, after := Beginnings(front), L.After(log, FinishStep, parse);
    BeginningsNext(front, FinishStep);
    InBounds(front);
    assert (front + [FinishStep])[|front|] == FinishStep;
    CallsStill(log, after, front, FinishStep);
    forall key ensures ActiveTied(after.active, front + [FinishStep], begins, key) { ShutTied(after.active, front, FinishStep, begins, key); }
    AllStillRead(log.parts, front, begins, FinishStep, parse);
  }

  /** A delta or an end finds the part it is for, if it is open. */
  lemma StreamedPart(log: L.Log, front: seq<Chunk>, begins: seq<nat>, c: Chunk, parse: string -> Value)
    requires LogReads(log, front, begins, parse) && (c.StreamDelta? || c.StreamEnd?)
    ensures c.key in log.active ==>
              var at := log.active[c.key];
              at < |begins| && OpenPart(front, begins, at, c.key) && PartReads(log.parts, front, begins, parse, at)
    ensures forall k: nat | k < |begins| && begins[k] < |front| && Touches(front, c, begins[k]) :: c.key in log.active && log.active[c.key] == k
  {
    assert ActiveTied(log.active, front, begins, c.key);
    if c.key in log.active {
      assert PartReads(log.parts, front, begins, parse, log.active[c.key]);
    }
    forall k: nat | k < |begins| && begins[k] < |front| && Touches(front, c, begins[k]) ensures OpenPart(front, begins, k, c.key) {
      assert PartReads(log.parts, front, begins, parse, k);
    }
  }

  lemma StreamedReads(log: L.Log, front: seq<Chunk>, begins: seq<nat>, c: Chunk, parse: string -> Value)
    requires LogReads(log, front, begins, parse) && (c.StreamDelta? || c.StreamEnd?)
    ensures AllRead(L.After(log, c, parse).parts, front + [c], begins, parse)
  {
    var after := L.After(log, c, parse);
    StreamedPart(log, front, begins, c, parse);
    if c.key in log.active {
      var at := log.active[c.key];
      assert (front + [c])[begins[at]] == front[begins[at]];
      TextNext(front, c, begins[at], c.key);
      EndedNext(front, c, begins[at], c.key);
      OneRead(log.parts, front, begins, c, parse, at, after.parts[at]);
      assert after.parts == log.parts[at := after.parts[at]];
    } else {
      AllStillRead(log.parts, front, begins, c, parse);
    }
  }

  lemma StreamedActive(log: L.Log, front: seq<Chunk>, begins: seq<nat>, c: Chunk, parse: string -> Value)
    requires LogReads(log, front, begins, parse) && (c.StreamDelta? || c.StreamEnd?) && forall k | 0 <= k < |begins| :: begins[k] < |front|
    ensures Streams(L.After(log, c, parse).active, front + [c], begins)
  {
    var after := L.After(log, c, parse);
    StreamedPart(log, front, begins, c, parse);
    forall key ensures ActiveTied(after.active, front + [c], begins, key) {
      assert ActiveTied(log.active, front, begins, key);
      if Shuts(c, key) { ShutTied(after.active, front, c, begins, key); } else { ActiveStill(log.active, front, c, begins, begins, key); }
    }
  }

  lemma StreamedHolds(log: L.Log, front: seq<Chunk>, c: Chunk, parse: string -> Value)
    requires Holds(log, front, parse) && (c.StreamDelta? || c.StreamEnd?)
    ensures Holds(L.After(log, c, parse), front + [c], parse)
  {
    var begins := Beginnings(front);
    BeginningsNext(front, c);
    InBounds(front);
    assert (front + [c])[|front|] == c;
    CallsStill(log, L.After(log, c, parse), front, c);
    StreamedReads(log, front, begins, c, parse);
    StreamedActive(log, front, begins, c, parse);
  }

  // Data.

  predicate SaidAt(chunks: seq<Chunk>, begins: seq<nat>, k: nat, kind: string, id: string)
    requires k < |begins|
  {
    begins[k] < |chunks| && R.SaysData(chunks[begins[k]], kind, id)
  }

  lemma DataReads(parts: seq<L.Part>, chunks: seq<Chunk>, begins: seq<nat>, parse: string -> Value, kind: string, id: string, k: nat)
    requires AllRead(parts, chunks, begins, parse) && k < |begins|
    ensures L.HasData(parts[k], kind, id) <==> SaidAt(chunks, begins, k, kind, id)
  {
    assert PartReads(parts, chunks, begins, parse, k);
  }

  lemma {:induction false} FirstSaid(chunks: seq<Chunk>, key: T.DataKey) returns (b: nat)
    requires R.SaidData(chunks, key)
    ensures b < |chunks| && R.SaysData(chunks[b], key.kind, key.id) && Begins(chunks, b)
  {
    var front, c := R.Front(chunks), R.Last(chunks);
    assert chunks == front + [c];
    R.SaidNext(front, c, key);
    if R.SaidData(front, key) {
      b := FirstSaid(front, key);
      FrontBegins(front, c, b);
    } else {
      b := |front|;
      assert forall i | 0 <= i < b :: chunks[i] == front[i];
    }
  }

  /** The scan for a piece of data ends at its part, if it has one. */
  ghost predicate DataFound(parts: seq<L.Part>, chunks: seq<Chunk>, begins: seq<nat>, key: T.DataKey) {
    var at := L.DataPartById(parts, key.kind, key.id);
    && |parts| == |begins| && (at < |parts| <==> R.SaidData(chunks, key))
    && (at < |parts| ==> SaidAt(chunks, begins, at, key.kind, key.id))
    && (forall k: nat | k < |begins| && SaidAt(chunks, begins, k, key.kind, key.id) :: k == at)
  }

  lemma DataIsFound(parts: seq<L.Part>, chunks: seq<Chunk>, begins: seq<nat>, parse: string -> Value, key: T.DataKey)
    requires AllRead(parts, chunks, begins, parse) && begins == Beginnings(chunks)
    ensures DataFound(parts, chunks, begins, key)
  {
    BeginningsInOrder(chunks);
    InBounds(chunks);
    var at := L.DataPartById(parts, key.kind, key.id);
    forall k: nat | k < |begins| ensures L.HasData(parts[k], key.kind, key.id) <==> SaidAt(chunks, begins, k, key.kind, key.id) {
      DataReads(parts, chunks, begins, parse, key.kind, key.id, k);
    }
    if R.SaidData(chunks, key) {
      var b := FirstSaid(chunks, key);
      var k :| 0 <= k < |begins| && begins[k] == b;
      assert SaidAt(chunks, begins, k, key.kind, key.id);
    }
    forall k: nat | k < |begins| && SaidAt(chunks, begins, k, key.kind, key.id) ensures k == at {
      if k > at { OnePartEach(parts, chunks, begins, parse, at, k); }
    }
  }

  lemma DataHolds(log: L.Log, front: seq<Chunk>, c: Chunk, parse: string -> Value)
    requires Holds(log, front, parse) && c.Data? && !c.transient && c.dataId.Some?
    ensures Holds(L.After(log, c, parse), front + [c], parse)
  {
    var begins, chunks, key, n := Beginnings(front), front + [c], T.DataKey(c.kind, c.dataId.value), |front|;
    BeginningsNext(front, c);
    InBounds(front);
    CallsStill(log, L.After(log, c, parse), front, c);
    StreamsStill(log.active, front, c, begins, Beginnings(chunks));
    DataIsFound(log.parts, front, begins, parse, key);
    R.DataNext(front, c, key.kind, key.id);
    DataBegins(front, c);
    forall k: nat | k < |begins| && begins[k] < |front| && Touches(front, c, begins[k]) ensures SaidAt(front, begins, k, key.kind, key.id) {
      assert PartReads(log.parts, front, begins, parse, k);
    }
    var at := L.DataPartById(log.parts, key.kind, key.id);
    var p := L.DataPart(c.kind, c.dataId, c.data);
    if at < |log.parts| {
      assert chunks[begins[at]] == front[begins[at]];
      assert log.parts[at].(data := c.data) == p;
      OneRead(log.parts, front, begins, c, parse, at, p);
    } else {
      AllStillRead(log.parts, front, begins, c, parse);
      OneMoreRead(log.parts, chunks, begins, parse, p, n);
    }
  }

  lemma DataBegins(front: seq<Chunk>, c: Chunk)
    requires c.Data? && !c.transient && c.dataId.Some?
    ensures (front + [c])[|front|] == c
    ensures Begins(front + [c], |front|) <==> !R.SaidData(front, T.DataKey(c.kind, c.dataId.value))
  {
    var chunks := front + [c];
    assert chunks[|front|] == c && forall i | 0 <= i < |front| :: chunks[i] == front[i];
  }

  // Calls.

  predicate ToolChunk(c: Chunk) { FamilyOf(c).OfTool? }

  function CallOf(c: Chunk): string
    requires ToolChunk(c)
  {
    c.call
  }

  /** A chunk about an open call leaves its part as the stream now says, and the rest as it was. */
  ghost predicate MovesCall(log: L.Log, after: L.Log, chunks: seq<Chunk>, parse: string -> Value, call: string, at: nat) {
    && at < |log.parts| && after.parts == log.parts[at := CallPart(chunks, call, parse)]
    && after.active == log.active && CallTied(after, chunks, call)
    && (forall other | other != call :: other in after.partials <==> other in log.partials)
    && (forall other | other != call :: other in after.approvals <==> other in log.approvals)
    && (forall other | other != call :: other in after.partials ==> after.partials[other] == log.partials[other])
    && (forall other | other != call :: other in after.approvals ==> after.approvals[other] == log.approvals[other])
  }

  /** The one part of a call. */
  ghost predicate OnlyAt(parts: seq<L.Part>, call: string, dynamic: bool, at: nat) {
    && at < |parts| && L.OfFlavour(parts[at], call, dynamic)
    && forall k | 0 <= k < |parts| && L.OfCall(parts[k], call) :: k == at
  }

  lemma LookedUp(parts: seq<L.Part>, call: string, dynamic: bool, at: nat)
    requires OnlyAt(parts, call, dynamic, at)
    ensures L.Invocation(parts, call) == at && L.ToolPartById(parts, call, dynamic) == at
    ensures L.ToolPartById(parts, call, !dynamic) == |parts|
  {
    assert forall k | 0 <= k < |parts| && L.OfFlavour(parts[k], call, dynamic) :: k == at;
    assert forall k | 0 <= k < |parts| :: !L.OfFlavour(parts[k], call, !dynamic);
  }

  lemma OnlyStill(parts: seq<L.Part>, call: string, dynamic: bool, at: nat, p: L.Part)
    requires OnlyAt(parts, call, dynamic, at) && L.OfFlavour(p, call, dynamic)
    ensures OnlyAt(parts[at := p], call, dynamic, at)
  {
    var more := parts[at := p];
    assert forall k | 0 <= k < |parts| && k != at :: more[k] == parts[k];
  }

  lemma UpsertedOnly(log: L.Log, u: L.ToolUpdate, at: nat)
    requires OnlyAt(log.parts, u.call, u.dynamic, at)
    ensures L.Upserted(log, u) == log.(parts := log.parts[at := L.Patched(log.parts[at], u)])
    ensures OnlyAt(L.Upserted(log, u).parts, u.call, u.dynamic, at)
  {
    LookedUp(log.parts, u.call, u.dynamic, at);
    OnlyStill(log.parts, u.call, u.dynamic, at, L.Patched(log.parts[at], u));
  }

  lemma SettledOnly(log: L.Log, call: string, dynamic: bool, at: nat, approved: Option<bool>)
    requires OnlyAt(log.parts, call, dynamic, at)
    ensures L.Settled(log, call, approved) ==
            if call !in log.approvals then log
            else log.(parts := log.parts[at := log.parts[at].(approval :=
                        if approved.None? then None else Some(L.Approval(log.approvals[call], approved)))])
  {
    LookedUp(log.parts, call, dynamic, at);
  }

  /** An open call: its one part, as the stream says it. */
  ghost predicate OpenCall(log: L.Log, front: seq<Chunk>, parse: string -> Value, call: string, at: nat) {
    && Opened(front, call) && CallTied(log, front, call)
    && OnlyAt(log.parts, call, Flavour(front, call), at) && log.parts[at] == CallPart(front, call, parse)
  }

  /** What one more chunk makes of all that the stream says of a call. */
  lemma SaysNext(front: seq<Chunk>, c: Chunk, call: string, parse: string -> Value)
    ensures var chunks, again := front + [c], Opened(front, call) && !Flavour(front, call);
            && (Opened(chunks, call) <==> Opened(front, call) || Opens(c, call))
            && Flavour(chunks, call) == (if Opened(front, call) then Flavour(front, call) else Opens(c, call) && c.dynamic)
            && LineOf(chunks, call) == (if LineFrom(c, call).Some? && Opened(front, call) then LineFrom(c, call) else LineOf(front, call))
            && StateOf(chunks, call) == (if Moves(front, c, call) then StateAfter(c) else StateOf(front, call))
            && ToolOf(chunks, call) ==
               (if Opens(c, call) && !again then c.tool
                else if c.InputDelta? && c.call == call && Streamed(front, call).Some? && !again then StartedAs(front, call)
                else ToolOf(front, call))
  {
    OpenedNext(front, c, call);
    FlavourNext(front, c, call);
    LineNext(front, c, call);
    StateNext(front, c, call);
    ToolNext(front, c, call);
  }

  lemma StartPart(front: seq<Chunk>, c: Chunk, parse: string -> Value)
    requires c.InputStart? && Opened(front, c.call) && Keeps(front, c)
    ensures CallPart(front + [c], c.call, parse) ==
            L.Patched(CallPart(front, c.call, parse), L.ToolUpdate(c.call, c.tool, L.IsStreaming, c.dynamic, Null, Null, Null, None))
  {
    var call := c.call;
    SaysNext(front, c, call, parse);
    StreamedNext(front, c, call);
    InputNext(front, c, call, parse);
    OutcomeNext(front, c, call);
    ApprovalNext(front, c, call);
  }

  lemma StartTied(log: L.Log, front: seq<Chunk>, c: Chunk)
    requires c.InputStart? && Opened(front, c.call) && CallTied(log, front, c.call) && Keeps(front, c)
    ensures CallTied(log.(partials := log.partials[c.call := L.PartialCall("", c.tool, c.dynamic)]), front + [c], c.call)
  {
    OpenedNext(front, c, c.call);
    FlavourNext(front, c, c.call);
    StreamedNext(front, c, c.call);
    ApprovalNext(front, c, c.call);
  }

  lemma StartAfter(log: L.Log, c: Chunk, at: nat, parse: string -> Value)
    requires c.InputStart? && OnlyAt(log.parts, c.call, c.dynamic, at)
    ensures L.AfterTool(log, c, parse) ==
            log.(partials := log.partials[c.call := L.PartialCall("", c.tool, c.dynamic)],
                 parts := log.parts[at := L.Patched(log.parts[at], L.ToolUpdate(c.call, c.tool, L.IsStreaming, c.dynamic, Null, Null, Null, None))])
  {
    UpsertedOnly(log.(partials := log.partials[c.call := L.PartialCall("", c.tool, c.dynamic)]),
                 L.ToolUpdate(c.call, c.tool, L.IsStreaming, c.dynamic, Null, Null, Null, None), at);
  }

  lemma StartMoves(log: L.Log, front: seq<Chunk>, c: Chunk, parse: string -> Value, at: nat)
    requires c.InputStart? && OpenCall(log, front, parse, c.call, at) && Keeps(front, c)
    ensures MovesCall(log, L.AfterTool(log, c, parse), front + [c], parse, c.call, at)
  {
    StartAfter(log, c, at, parse);
    StartTied(log, front, c);
    StartPart(front, c, parse);
  }

  lemma DeltaPart(front: seq<Chunk>, c: Chunk, parse: string -> Value)
    requires c.InputDelta? && Opened(front, c.call)
    ensures var p, streamed := CallPart(front, c.call, parse), Streamed(front, c.call);
            CallPart(front + [c], c.call, parse) ==
            if streamed.None? then p
            else L.Patched(p, L.ToolUpdate(c.call, StartedAs(front, c.call), L.IsStreaming, p.dynamic,
                                           parse(streamed.value + c.delta), Null, Null, None))
  {
    var call := c.call;
    SaysNext(front, c, call, parse);
    StreamedNext(front, c, call);
    InputNext(front, c, call, parse);
    OutcomeNext(front, c, call);
    ApprovalNext(front, c, call);
  }

  lemma DeltaTied(log: L.Log, front: seq<Chunk>, c: Chunk)
    requires c.InputDelta? && Opened(front, c.call) && CallTied(log, front, c.call)
    ensures c.call in log.partials ==>
              var more := log.partials[c.call].(text := log.partials[c.call].text + c.delta);
              CallTied(log.(partials := log.partials[c.call := more]), front + [c], c.call)
    ensures c.call !in log.partials ==> CallTied(log, front + [c], c.call)
  {
    OpenedNext(front, c, c.call);
    FlavourNext(front, c, c.call);
    StreamedNext(front, c, c.call);
    ApprovalNext(front, c, c.call);
  }

  lemma DeltaMoves(log: L.Log, front: seq<Chunk>, c: Chunk, parse: string -> Value, at: nat)
    requires c.InputDelta? && OpenCall(log, front, parse, c.call, at)
    ensures MovesCall(log, L.AfterTool(log, c, parse), front + [c], parse, c.call, at)
  {
    var call := c.call;
    DeltaPart(front, c, parse);
    DeltaTied(log, front, c);
    if call in log.partials {
      var more := log.partials[call].(text := log.partials[call].text + c.delta);
      UpsertedOnly(log.(partials := log.partials[call := more]),
                   L.ToolUpdate(call, more.tool, L.IsStreaming, more.dynamic, parse(more.text), Null, Null, None), at);
    } else {
      assert log.parts[at := log.parts[at]] == log.parts;
    }
  }

  /** A chunk that starts no input, streams none and asks for no approval leaves what the lookups hold. */
  lemma OnlyPartMoves(log: L.Log, after: L.Log, front: seq<Chunk>, c: Chunk, call: string, parse: string -> Value, at: nat)
    requires !c.InputStart? && !c.InputDelta? && !c.ApprovalRequest? && Opened(front, call) && CallTied(log, front, call)
    requires at < |log.parts| && after == log.(parts := log.parts[at := CallPart(front + [c], call, parse)])
    ensures MovesCall(log, after, front + [c], parse, call, at)
  {
    OpenedNext(front, c, call);
    FlavourNext(front, c, call);
    StreamedNext(front, c, call);
    ApprovalNext(front, c, call);
  }

  /** All that the stream says of a call after one more chunk. */
  lemma PartNext(front: seq<Chunk>, c: Chunk, call: string, parse: string -> Value)
    requires Opened(front, call) && !c.InputStart? && !c.InputDelta?
    ensures var p, q := CallPart(front, call, parse), CallPart(front + [c], call, parse);
            var asked := AskedOf(front, call);
            && q.dynamic == p.dynamic && q.call == call
            && q.tool == (if Opens(c, call) && p.dynamic then c.tool else p.tool)
            && q.state == (if Moves(front, c, call) then StateAfter(c) else p.state)
            && q.input == (if (c.InputAvailable? || (c.InputError? && p.dynamic)) && c.call == call then Or(c.input, p.input) else p.input)
            && q.output == (if c.OutputAvailable? && c.call == call then Or(c.output, p.output) else p.output)
            && q.rawInput == (if c.InputError? && c.call == call && !p.dynamic then Or(c.input, p.rawInput) else p.rawInput)
            && q.errorText == (if (c.InputError? || c.OutputError?) && c.call == call then Some(c.errorText) else p.errorText)
            && q.approval == (if c.ApprovalRequest? && c.call == call then Some(L.Approval(c.approvalId, None))
                              else if Settles(c, call) && asked.Some?
                              then if c.InputAvailable? then None else Some(L.Approval(asked.value, Some(!c.OutputDenied?)))
                              else p.approval)
            && q.summary == (if LineFrom(c, call).Some? then LineFrom(c, call) else p.summary)
  {
    SaysNext(front, c, call, parse);
    StreamedNext(front, c, call);
    InputNext(front, c, call, parse);
    OutcomeNext(front, c, call);
    ApprovalNext(front, c, call);
  }

  lemma InputPart(front: seq<Chunk>, c: Chunk, parse: string -> Value)
    requires c.InputAvailable? && Opened(front, c.call) && Keeps(front, c)
    ensures var p := CallPart(front, c.call, parse);
            var u := L.ToolUpdate(c.call, c.tool, L.IsReady, c.dynamic, c.input, Null, Null, None);
            CallPart(front + [c], c.call, parse) ==
            L.Patched(p, u).(approval := if AskedOf(front, c.call).Some? then None else p.approval)
  {
    PartNext(front, c, c.call, parse);
  }

  lemma InputAfter(log: L.Log, c: Chunk, at: nat, asked: Option<string>, parse: string -> Value)
    requires c.InputAvailable? && OnlyAt(log.parts, c.call, c.dynamic, at) && (c.call in log.approvals <==> asked.Some?)
    ensures var p, u := log.parts[at], L.ToolUpdate(c.call, c.tool, L.IsReady, c.dynamic, c.input, Null, Null, None);
            L.AfterTool(log, c, parse) ==
            log.(parts := log.parts[at := L.Patched(p, u).(approval := if asked.Some? then None else p.approval)])
  {
    var u := L.ToolUpdate(c.call, c.tool, L.IsReady, c.dynamic, c.input, Null, Null, None);
    UpsertedOnly(log, u, at);
    SettledOnly(L.Upserted(log, u), c.call, c.dynamic, at, None);
  }

  lemma InputMoves(log: L.Log, front: seq<Chunk>, c: Chunk, parse: string -> Value, at: nat)
    requires c.InputAvailable? && OpenCall(log, front, parse, c.call, at) && Keeps(front, c)
    ensures MovesCall(log, L.AfterTool(log, c, parse), front + [c], parse, c.call, at)
  {
    InputAfter(log, c, at, AskedOf(front, c.call), parse);
    InputPart(front, c, parse);
    OnlyPartMoves(log, L.AfterTool(log, c, parse), front, c, c.call, parse, at);
  }

  lemma InputErrorPart(front: seq<Chunk>, c: Chunk, parse: string -> Value)
    requires c.InputError? && Opened(front, c.call)
    ensures var p := CallPart(front, c.call, parse);
            CallPart(front + [c], c.call, parse) ==
            L.Patched(p, L.ToolUpdate(c.call, c.tool, L.IsFailed, p.dynamic, if p.dynamic then c.input else Null, Null,
                                      if p.dynamic then Null else c.input, Some(c.errorText)))
  {
    PartNext(front, c, c.call, parse);
  }

  lemma InputErrorMoves(log: L.Log, front: seq<Chunk>, c: Chunk, parse: string -> Value, at: nat)
    requires c.InputError? && OpenCall(log, front, parse, c.call, at)
    ensures MovesCall(log, L.AfterTool(log, c, parse), front + [c], parse, c.call, at)
  {
    var call, dynamic := c.call, Flavour(front, c.call);
    LookedUp(log.parts, call, dynamic, at);
    UpsertedOnly(log, L.ToolUpdate(call, c.tool, L.IsFailed, dynamic, if dynamic then c.input else Null, Null,
                                   if dynamic then Null else c.input, Some(c.errorText)), at);
    InputErrorPart(front, c, parse);
    OnlyPartMoves(log, L.AfterTool(log, c, parse), front, c, call, parse, at);
  }

  lemma RequestMoves(log: L.Log, front: seq<Chunk>, c: Chunk, parse: string -> Value, at: nat)
    requires c.ApprovalRequest? && OpenCall(log, front, parse, c.call, at)
    ensures MovesCall(log, L.AfterTool(log, c, parse), front + [c], parse, c.call, at)
  {
    var call := c.call;
    LookedUp(log.parts, call, Flavour(front, call), at);
    PartNext(front, c, call, parse);
    OpenedNext(front, c, call);
    FlavourNext(front, c, call);
    StreamedNext(front, c, call);
    ApprovalNext(front, c, call);
  }

  /** A call's part settled as the source settles an approval. */
  function SettledPart(p: L.Part, asked: Option<string>, approved: bool): L.Part
    requires p.Tool?
  {
    if asked.None? then p else p.(approval := Some(L.Approval(asked.value, Some(approved))))
  }

  lemma DenialPart(front: seq<Chunk>, c: Chunk, parse: string -> Value)
    requires c.OutputDenied? && Opened(front, c.call)
    ensures var p := CallPart(front, c.call, parse);
            CallPart(front + [c], c.call, parse) == SettledPart(p.(state := L.IsDenied), AskedOf(front, c.call), false)
  {
    PartNext(front, c, c.call, parse);
  }

  lemma DenialAfter(log: L.Log, c: Chunk, dynamic: bool, at: nat, asked: Option<string>, parse: string -> Value)
    requires c.OutputDenied? && OnlyAt(log.parts, c.call, dynamic, at)
    requires (c.call in log.approvals <==> asked.Some?) && (asked.Some? ==> log.approvals[c.call] == asked.value)
    ensures L.AfterTool(log, c, parse) ==
            log.(parts := log.parts[at := SettledPart(log.parts[at].(state := L.IsDenied), asked, false)])
  {
    LookedUp(log.parts, c.call, dynamic, at);
    var p := log.parts[at].(state := L.IsDenied);
    OnlyStill(log.parts, c.call, dynamic, at, p);
    SettledOnly(log.(parts := log.parts[at := p]), c.call, dynamic, at, Some(false));
  }

  lemma DenialMoves(log: L.Log, front: seq<Chunk>, c: Chunk, parse: string -> Value, at: nat)
    requires c.OutputDenied? && OpenCall(log, front, parse, c.call, at)
    ensures MovesCall(log, L.AfterTool(log, c, parse), front + [c], parse, c.call, at)
  {
    DenialAfter(log, c, Flavour(front, c.call), at, AskedOf(front, c.call), parse);
    DenialPart(front, c, parse);
    OnlyPartMoves(log, L.AfterTool(log, c, parse), front, c, c.call, parse, at);
  }

  /** How an outcome patches its call. */
  function OutcomeUpdate(c: Chunk, p: L.Part): L.ToolUpdate
    requires (c.OutputAvailable? || c.OutputError?) && p.Tool?
  {
    if c.OutputAvailable? then L.ToolUpdate(c.call, p.tool, L.IsAnswered, p.dynamic, p.input, c.output, Null, None)
    else L.ToolUpdate(c.call, p.tool, L.IsFailed, p.dynamic, p.input, Null, p.rawInput, Some(c.errorText))
  }

  lemma OutcomePart(front: seq<Chunk>, c: Chunk, parse: string -> Value)
    requires (c.OutputAvailable? || c.OutputError?) && Opened(front, c.call)
    ensures var p := CallPart(front, c.call, parse);
            CallPart(front + [c], c.call, parse) == SettledPart(L.Patched(p, OutcomeUpdate(c, p)), AskedOf(front, c.call), true)
  {
    PartNext(front, c, c.call, parse);
  }

  /** A part patched and its approval settled. */
  lemma PatchedAndSettled(log: L.Log, u: L.ToolUpdate, at: nat, asked: Option<string>, approved: bool)
    requires OnlyAt(log.parts, u.call, u.dynamic, at)
    requires (u.call in log.approvals <==> asked.Some?) && (asked.Some? ==> log.approvals[u.call] == asked.value)
    ensures L.Settled(L.Upserted(log, u), u.call, Some(approved)) ==
            log.(parts := log.parts[at := SettledPart(L.Patched(log.parts[at], u), asked, approved)])
  {
    UpsertedOnly(log, u, at);
    SettledOnly(L.Upserted(log, u), u.call, u.dynamic, at, Some(approved));
  }

  lemma OutcomeAfter(log: L.Log, c: Chunk, dynamic: bool, at: nat, parse: string -> Value)
    requires (c.OutputAvailable? || c.OutputError?) && OnlyAt(log.parts, c.call, dynamic, at)
    ensures L.AfterTool(log, c, parse) == L.Settled(L.Upserted(log, OutcomeUpdate(c, log.parts[at])), c.call, Some(true))
  {
    LookedUp(log.parts, c.call, dynamic, at);
  }

  lemma OutcomeMoves(log: L.Log, front: seq<Chunk>, c: Chunk, parse: string -> Value, at: nat)
    requires (c.OutputAvailable? || c.OutputError?) && OpenCall(log, front, parse, c.call, at)
    ensures MovesCall(log, L.AfterTool(log, c, parse), front + [c], parse, c.call, at)
  {
    OutcomeAfter(log, c, Flavour(front, c.call), at, parse);
    PatchedAndSettled(log, OutcomeUpdate(c, log.parts[at]), at, AskedOf(front, c.call), true);
    OutcomePart(front, c, parse);
    OnlyPartMoves(log, L.AfterTool(log, c, parse), front, c, c.call, parse, at);
  }

  lemma CallMoved(log: L.Log, front: seq<Chunk>, c: Chunk, parse: string -> Value, at: nat)
    requires ToolChunk(c) && OpenCall(log, front, parse, CallOf(c), at) && Keeps(front, c)
    ensures MovesCall(log, L.AfterTool(log, c, parse), front + [c], parse, CallOf(c), at)
  {
    match c
    case InputStart(_, _, _) => StartMoves(log, front, c, parse, at);
    case InputDelta(_, _) => DeltaMoves(log, front, c, parse, at);
    case InputAvailable(_, _, _, _) => InputMoves(log, front, c, parse, at);
    case InputError(_, _, _, _, _) => InputErrorMoves(log, front, c, parse, at);
    case ApprovalRequest(_, _) => RequestMoves(log, front, c, parse, at);
    case OutputDenied(_) => DenialMoves(log, front, c, parse, at);
    case OutputAvailable(_, _) => OutcomeMoves(log, front, c, parse, at);
    case OutputError(_, _) => OutcomeMoves(log, front, c, parse, at);
  }

  lemma LineMoves(log: L.Log, front: seq<Chunk>, c: Chunk, call: string, parse: string -> Value, at: nat)
    requires LineFrom(c, call).Some? && OpenCall(log, front, parse, call, at)
    ensures MovesCall(log, L.After(log, c, parse), front + [c], parse, call, at)
  {
    LookedUp(log.parts, call, Flavour(front, call), at);
    SummaryGives(c, call);
    PartNext(front, c, call, parse);
    OnlyPartMoves(log, L.AfterSummary(log, c.fields), front, c, call, parse, at);
  }

  // A call as it opens.

  lemma {:induction false} NothingSaid(chunks: seq<Chunk>, call: string, parse: string -> Value)
    requires !Opened(chunks, call)
    ensures InputOf(chunks, call, parse) == RefusedOf(chunks, call) == OutputOf(chunks, call) == Null
    ensures ErrorOf(chunks, call) == None && ApprovalOf(chunks, call) == None && AskedOf(chunks, call) == None && LineOf(chunks, call) == None
    ensures Streamed(chunks, call) == None
  {
    if chunks != [] {
      var front, c := R.Front(chunks), R.Last(chunks);
      assert chunks == front + [c];
      OpenedNext(front, c, call);
      NothingSaid(front, call, parse);
    }
  }

  lemma UnknownCall(parts: seq<L.Part>, call: string, dynamic: bool)
    requires forall k | 0 <= k < |parts| :: !L.OfCall(parts[k], call)
    ensures L.Invocation(parts, call) == |parts| && L.ToolPartById(parts, call, dynamic) == |parts|
  {
  }

  lemma OnlyNew(parts: seq<L.Part>, call: string, p: L.Part)
    requires (forall k | 0 <= k < |parts| :: !L.OfCall(parts[k], call)) && L.OfCall(p, call)
    ensures OnlyAt(parts + [p], call, p.dynamic, |parts|)
  {
    var more := parts + [p];
    assert forall k | 0 <= k < |parts| :: more[k] == parts[k];
  }

  /** The chunk that opens a call adds its part. */
  ghost predicate OpensCall(log: L.Log, after: L.Log, chunks: seq<Chunk>, parse: string -> Value, call: string) {
    && after.parts == log.parts + [CallPart(chunks, call, parse)]
    && after.active == log.active && CallTied(after, chunks, call) && after.approvals == log.approvals
    && (forall other | other != call :: other in after.partials <==> other in log.partials)
    && (forall other | other != call :: other in after.partials ==> after.partials[other] == log.partials[other])
  }

  /** The part a chunk opens a call with. */
  function OpeningUpdate(c: Chunk): L.ToolUpdate
    requires c.InputStart? || c.InputAvailable? || c.InputError?
  {
    match c
    case InputStart(call, tool, dynamic) => L.ToolUpdate(call, tool, L.IsStreaming, dynamic, Null, Null, Null, None)
    case InputAvailable(call, tool, input, dynamic) => L.ToolUpdate(call, tool, L.IsReady, dynamic, input, Null, Null, None)
    case InputError(call, tool, input, errorText, dynamic) =>
      L.ToolUpdate(call, tool, L.IsFailed, dynamic, if dynamic then input else Null, Null, if dynamic then Null else input, Some(errorText))
  }

  lemma OpeningPart(front: seq<Chunk>, c: Chunk, parse: string -> Value)
    requires ToolChunk(c) && Opens(c, CallOf(c)) && !Opened(front, CallOf(c))
    ensures CallPart(front + [c], CallOf(c), parse) == L.Built(OpeningUpdate(c))
  {
    var call := CallOf(c);
    NothingSaid(front, call, parse);
    SaysNext(front, c, call, parse);
    StreamedNext(front, c, call);
    InputNext(front, c, call, parse);
    OutcomeNext(front, c, call);
    ApprovalNext(front, c, call);
  }

  lemma OpeningAfter(log: L.Log, c: Chunk, parse: string -> Value)
    requires ToolChunk(c) && Opens(c, CallOf(c)) && CallOf(c) !in log.approvals
    requires forall k | 0 <= k < |log.parts| :: !L.OfCall(log.parts[k], CallOf(c))
    ensures L.AfterTool(log, c, parse) ==
            log.(parts := log.parts + [L.Built(OpeningUpdate(c))],
                 partials := if c.InputStart? then log.partials[CallOf(c) := L.PartialCall("", c.tool, c.dynamic)] else log.partials)
  {
    var call, u := CallOf(c), OpeningUpdate(c);
    UnknownCall(log.parts, call, c.dynamic);
    if c.InputAvailable? {
      OnlyNew(log.parts, call, L.Built(u));
      SettledOnly(L.Upserted(log, u), call, c.dynamic, |log.parts|, None);
    }
  }

  lemma OpeningTied(log: L.Log, front: seq<Chunk>, c: Chunk)
    requires ToolChunk(c) && Opens(c, CallOf(c)) && !Opened(front, CallOf(c)) && CallTied(log, front, CallOf(c))
    ensures var call := CallOf(c);
            CallTied(log.(partials := if c.InputStart? then log.partials[call := L.PartialCall("", c.tool, c.dynamic)] else log.partials),
                     front + [c], call)
  {
    OpenedNext(front, c, CallOf(c));
    FlavourNext(front, c, CallOf(c));
    StreamedNext(front, c, CallOf(c));
    ApprovalNext(front, c, CallOf(c));
  }

  lemma CallOpens(log: L.Log, front: seq<Chunk>, c: Chunk, parse: string -> Value)
    requires ToolChunk(c) && Opens(c, CallOf(c)) && !Opened(front, CallOf(c)) && CallTied(log, front, CallOf(c))
    requires forall k | 0 <= k < |log.parts| :: !L.OfCall(log.parts[k], CallOf(c))
    ensures OpensCall(log, L.AfterTool(log, c, parse), front + [c], parse, CallOf(c))
  {
    OpeningAfter(log, c, parse);
    OpeningPart(front, c, parse);
    OpeningTied(log, front, c);
  }

  // The whole message, one chunk at a time.

  lemma CallsAfter(log: L.Log, after: L.Log, front: seq<Chunk>, c: Chunk, call: string)
    requires Calls(log, front) && (forall other :: About(c, other) ==> other == call) && CallTied(after, front + [c], call)
    requires forall other | other != call :: other in after.partials <==> other in log.partials
    requires forall other | other != call :: other in after.approvals <==> other in log.approvals
    requires forall other | other != call :: other in after.partials ==> after.partials[other] == log.partials[other]
    requires forall other | other != call :: other in after.approvals ==> after.approvals[other] == log.approvals[other]
    ensures Calls(after, front + [c])
  {
    forall other ensures CallTied(after, front + [c], other) {
      assert CallTied(log, front, other);
      if other != call {
        CallStill(log, front, c, other);
        assert CallTied(log, front + [c], other);
      }
    }
  }

  ghost predicate OnlyAbout(c: Chunk, call: string) {
    (ToolChunk(c) || c.ToolSummary?) && forall other :: About(c, other) ==> other == call
  }

  lemma MovedReads(parts: seq<L.Part>, front: seq<Chunk>, begins: seq<nat>, c: Chunk, parse: string -> Value, call: string, at: nat)
    requires AllRead(parts, front, begins, parse) && Found(parts, front, begins, parse, call, at) && OnlyAbout(c, call)
    ensures AllRead(parts[at := CallPart(front + [c], call, parse)], front + [c], begins, parse)
  {
    assert (front + [c])[begins[at]] == front[begins[at]];
    forall k: nat | k < |begins| && k != at && begins[k] < |front| ensures !Touches(front, c, begins[k]) {
      assert !OpensAt(front, begins, k, call);
    }
    OneRead(parts, front, begins, c, parse, at, CallPart(front + [c], call, parse));
  }

  lemma MovedHolds(log: L.Log, after: L.Log, front: seq<Chunk>, c: Chunk, parse: string -> Value, call: string, at: nat)
    requires Holds(log, front, parse) && Found(log.parts, front, Beginnings(front), parse, call, at) && OnlyAbout(c, call)
    requires MovesCall(log, after, front + [c], parse, call, at) && !Begins(front + [c], |front|)
    ensures Holds(after, front + [c], parse)
  {
    var begins := Beginnings(front);
    BeginningsNext(front, c);
    InBounds(front);
    CallsAfter(log, after, front, c, call);
    StreamsStill(log.active, front, c, begins, begins);
    MovedReads(log.parts, front, begins, c, parse, call, at);
  }

  lemma FoundOnly(log: L.Log, front: seq<Chunk>, parse: string -> Value, call: string, at: nat)
    requires Holds(log, front, parse) && Opened(front, call) && Found(log.parts, front, Beginnings(front), parse, call, at)
    ensures OpenCall(log, front, parse, call, at)
  {
    assert CallTied(log, front, call);
    forall k | 0 <= k < |log.parts| && L.OfCall(log.parts[k], call) ensures k == at {
      PartOfCallReads(log.parts, front, Beginnings(front), parse, call, k);
    }
  }

  lemma NoneBegins(front: seq<Chunk>, c: Chunk)
    requires (ToolChunk(c) && (Opened(front, CallOf(c)) || !Opens(c, CallOf(c)))) || c.ToolSummary?
    ensures !Begins(front + [c], |front|)
  {
    assert (front + [c])[|front|] == c && (front + [c])[..|front|] == front;
  }

  lemma OpenHolds(log: L.Log, front: seq<Chunk>, c: Chunk, parse: string -> Value)
    requires Holds(log, front, parse) && ToolChunk(c) && Opened(front, CallOf(c)) && Keeps(front, c)
    ensures Holds(L.After(log, c, parse), front + [c], parse)
  {
    var call := CallOf(c);
    var at := CallFound(log.parts, front, Beginnings(front), parse, call);
    FoundOnly(log, front, parse, call, at);
    CallMoved(log, front, c, parse, at);
    NoneBegins(front, c);
    MovedHolds(log, L.AfterTool(log, c, parse), front, c, parse, call, at);
  }

  lemma LinedHolds(log: L.Log, front: seq<Chunk>, c: Chunk, call: string, parse: string -> Value)
    requires Holds(log, front, parse) && LineFrom(c, call).Some? && Opened(front, call)
    ensures Holds(L.After(log, c, parse), front + [c], parse)
  {
    var at := CallFound(log.parts, front, Beginnings(front), parse, call);
    FoundOnly(log, front, parse, call, at);
    LineMoves(log, front, c, call, parse, at);
    NoneBegins(front, c);
    MovedHolds(log, L.After(log, c, parse), front, c, parse, call, at);
  }

  /** A chunk about calls that are not open, and that opens none. */
  ghost predicate Unheard(front: seq<Chunk>, c: Chunk) {
    (ToolChunk(c) ==> !Opens(c, CallOf(c))) && forall call :: About(c, call) ==> !Opened(front, call)
  }

  lemma UnheardCall(log: L.Log, front: seq<Chunk>, c: Chunk, call: string)
    requires CallTied(log, front, call) && Unheard(front, c)
    ensures CallTied(log, front + [c], call)
  {
    if About(c, call) {
      OpenedNext(front, c, call);
      StreamedNext(front, c, call);
      ApprovalNext(front, c, call);
    } else {
      CallStill(log, front, c, call);
    }
  }

  lemma UnheardDoesNothing(log: L.Log, front: seq<Chunk>, c: Chunk, parse: string -> Value)
    requires Holds(log, front, parse) && (ToolChunk(c) || c.ToolSummary?) && Unheard(front, c)
    ensures L.After(log, c, parse) == log
  {
    if ToolChunk(c) {
      assert About(c, CallOf(c)) && CallTied(log, front, CallOf(c));
      CallNotFound(log.parts, front, Beginnings(front), parse, CallOf(c));
    } else if !c.transient && ReadSummary(c.fields).Some? {
      var call := ReadSummary(c.fields).value.call;
      SummaryGives(c, call);
      assert About(c, call);
      CallNotFound(log.parts, front, Beginnings(front), parse, call);
    }
  }

  lemma UnheardHolds(log: L.Log, front: seq<Chunk>, c: Chunk, parse: string -> Value)
    requires Holds(log, front, parse) && (ToolChunk(c) || c.ToolSummary?) && Unheard(front, c)
    ensures Holds(L.After(log, c, parse), front + [c], parse)
  {
    var begins := Beginnings(front);
    UnheardDoesNothing(log, front, c, parse);
    BeginningsNext(front, c);
    InBounds(front);
    NoneBegins(front, c);
    forall call ensures CallTied(log, front + [c], call) {
      assert CallTied(log, front, call);
      UnheardCall(log, front, c, call);
    }
    StreamsStill(log.active, front, c, begins, begins);
    forall k: nat | k < |begins| && begins[k] < |front| ensures !Touches(front, c, begins[k]) {
      if front[begins[k]].InputStart? || front[begins[k]].InputAvailable? || front[begins[k]].InputError? {
        assert Opens(front[begins[k]], front[begins[k]].call) && Opened(front, front[begins[k]].call);
      }
    }
    AllStillRead(log.parts, front, begins, c, parse);
  }

  lemma OpensHolds(log: L.Log, front: seq<Chunk>, c: Chunk, parse: string -> Value)
    requires Holds(log, front, parse) && ToolChunk(c) && Opens(c, CallOf(c)) && !Opened(front, CallOf(c))
    ensures Holds(L.After(log, c, parse), front + [c], parse)
  {
    var begins, chunks, call, n := Beginnings(front), front + [c], CallOf(c), |front|;
    assert CallTied(log, front, call);
    CallNotFound(log.parts, front, begins, parse, call);
    forall k | 0 <= k < |log.parts| ensures !L.OfCall(log.parts[k], call) { PartOfCallReads(log.parts, front, begins, parse, call, k); }
    CallOpens(log, front, c, parse);
    BeginningsNext(front, c);
    InBounds(front);
    assert chunks[n] == c && chunks[..n] == front;
    CallsAfter(log, L.AfterTool(log, c, parse), front, c, call);
    StreamsStill(log.active, front, c, begins, begins + [n]);
    forall k: nat | k < |begins| && begins[k] < |front| ensures !Touches(front, c, begins[k]) {
      assert !OpensAt(front, begins, k, call);
    }
    AllStillRead(log.parts, front, begins, c, parse);
    OneMoreRead(log.parts, chunks, begins, parse, CallPart(chunks, call, parse), n);
  }

  lemma NextHolds(log: L.Log, front: seq<Chunk>, c: Chunk, parse: string -> Value)
    requires Holds(log, front, parse) && Keeps(front, c)
    ensures Holds(L.After(log, c, parse), front + [c], parse)
  {
    if Aside(c) {
      AsideHolds(log, front, c, parse);
    } else if c.StreamStart? {
      StartHolds(log, front, c.key, parse);
    } else if c.FinishStep? {
      FinishHolds(log, front, parse);
    } else if c.StreamDelta? || c.StreamEnd? {
      StreamedHolds(log, front, c, parse);
    } else if c.Data? {
      DataHolds(log, front, c, parse);
    } else if c.ToolSummary? {
      if call :| LineFrom(c, call).Some? && Opened(front, call) {
        LinedHolds(log, front, c, call, parse);
      } else {
        UnheardHolds(log, front, c, parse);
      }
    } else if Opened(front, CallOf(c)) {
      OpenHolds(log, front, c, parse);
    } else if Opens(c, CallOf(c)) {
      OpensHolds(log, front, c, parse);
    } else {
      UnheardHolds(log, front, c, parse);
    }
  }

  lemma {:induction false} LogHolds(id: string, chunks: seq<Chunk>, parse: string -> Value)
    requires OneFlavour(chunks)
    ensures Holds(L.LogOf(id, chunks, parse), chunks, parse)
  {
    if chunks != [] {
      var front, c := R.Front(chunks), R.Last(chunks);
      assert front + [c] == chunks;
      LogHolds(id, front, parse);
      NextHolds(L.LogOf(id, front, parse), front, c, parse);
    }
  }

  /** The parts of a message are those its chunks begin, in order, each saying what the stream says of it. */
  lemma PartsSayWhatTheStreamSays(id: string, chunks: seq<Chunk>, parse: string -> Value)
    requires OneFlavour(chunks)
    ensures AllRead(L.LogOf(id, chunks, parse).parts, chunks, Beginnings(chunks), parse)
  {
    LogHolds(id, chunks, parse);
  }

  // What is said of the whole message.

  predicate SpeaksOfAll(log: L.Log, after: L.Log, c: Chunk) {
    && after.id == (if R.SaidId(c).Some? then R.SaidId(c).value else log.id)
    && after.finishReason == (if R.SaidReason(c).Some? then R.SaidReason(c) else log.finishReason)
    && after.metadata == Merged(log.metadata, R.SaidMetadata(c))
  }

  lemma LeavesTheRest(log: L.Log, after: L.Log, c: Chunk)
    requires !FamilyOf(c).OfMessage?
    requires after == log.(parts := after.parts, active := after.active, partials := after.partials, approvals := after.approvals)
    ensures SpeaksOfAll(log, after, c)
  {
  }

  lemma MessageAfter(log: L.Log, c: Chunk, parse: string -> Value)
    ensures SpeaksOfAll(log, L.After(log, c, parse), c)
  {
    match FamilyOf(c)
    case OfStream => LeavesTheRest(log, L.AfterStream(log, c), c);
    case OfTool => LeavesTheRest(log, L.AfterTool(log, c, parse), c);
    case OfPart => LeavesTheRest(log, L.AfterPart(log, c), c);
    case OfMessage => assert SpeaksOfAll(log, L.AfterMessage(log, c), c);
    case OfData => LeavesTheRest(log, L.After(log, c, parse), c);
    case OfSummary => LeavesTheRest(log, L.After(log, c, parse), c);
  }

  /** A message's id, its end and its metadata are as the stream says them. */
  lemma {:induction false} MessageSaysWhatTheStreamSays(id: string, chunks: seq<Chunk>, parse: string -> Value)
    ensures var log := L.LogOf(id, chunks, parse);
            R.MessageReads(log.id, log.finishReason, log.metadata, chunks, id)
  {
    if chunks != [] {
      var front, c := R.Front(chunks), R.Last(chunks);
      var log := L.LogOf(id, front, parse);
      MessageSaysWhatTheStreamSays(id, front, parse);
      assert chunks == front + [c];
      R.MessageNext(log.id, log.finishReason, log.metadata, front, c, id);
      MessageAfter(log, c, parse);
    }
  }
}
