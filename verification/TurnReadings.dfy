/** What each part of the client's message says, read straight off the chunks. */
module TurnReadings {
  import opened Wrappers
  import opened Chunks
  import T = TurnReducer

  // A call.

  /** A chunk that opens a call, if none did before. */
  predicate Opens(c: Chunk, call: string) { (c.InputStart? || c.InputAvailable?) && c.call == call }

  predicate Opened(chunks: seq<Chunk>, call: string) { exists i | 0 <= i < |chunks| :: Opens(chunks[i], call) }

  function Last(chunks: seq<Chunk>): Chunk
    requires chunks != []
  {
    chunks[|chunks| - 1]
  }

  function Front(chunks: seq<Chunk>): seq<Chunk>
    requires chunks != []
  {
    chunks[..|chunks| - 1]
  }

  /** The text of a call's input as it streamed in. */
  function StreamedInput(chunks: seq<Chunk>, call: string): string {
    if chunks == [] then ""
    else
      var before, c := StreamedInput(Front(chunks), call), Last(chunks);
      if c.InputDelta? && c.call == call && Opened(Front(chunks), call) then before + c.delta else before
  }

  /** The input last given: whole, streamed so far, or taken back by an error. */
  function InputOf(chunks: seq<Chunk>, call: string): Option<Value> {
    if chunks == [] then None
    else
      var before, c := InputOf(Front(chunks), call), Last(chunks);
      if c.InputAvailable? && c.call == call then Some(c.input)
      else if c.InputDelta? && c.call == call && Opened(Front(chunks), call) then Some(Json(StreamedInput(chunks, call)))
      else if c.InputError? && c.call == call then None
      else before
  }

  /** The approval last asked for. */
  function ApprovalOf(chunks: seq<Chunk>, call: string): Option<string> {
    if chunks == [] then None
    else
      var before, c := ApprovalOf(Front(chunks), call), Last(chunks);
      if c.ApprovalRequest? && c.call == call && Opened(Front(chunks), call) then Some(c.approvalId) else before
  }

  /** A line a summary gives a call. A status the protocol does not know reads as fine. */
  function LineFrom(fields: Option<SummaryFields>, call: string): Option<T.Line> {
    match fields
    case Some(SummaryFields(Some(named), Some(text), status)) =>
      if named != call then None
      else
        Some(T.Line(text, if status == Some("empty") then SummaryEmpty
                          else if status == Some("warn") then SummaryWarn
                          else if status == Some("corrected") then SummaryCorrected
                          else SummaryOk))
    case _ => None
  }

  function LineOf(chunks: seq<Chunk>, call: string): Option<T.Line> {
    if chunks == [] then None
    else
      var before, c := LineOf(Front(chunks), call), Last(chunks);
      if c.ToolSummary? && LineFrom(c.fields, call).Some? && Opened(Front(chunks), call) then LineFrom(c.fields, call) else before
  }

  /** A chunk that moves an open call on. A denial does where an approval was asked for. */
  predicate Moves(front: seq<Chunk>, c: Chunk, call: string) {
    match c
    case InputAvailable(named, _, _, _) => named == call
    case InputDelta(named, _) => named == call && Opened(front, call)
    case InputError(named, _, _, _, _) => named == call && Opened(front, call)
    case ApprovalRequest(named, _) => named == call && Opened(front, call)
    case OutputDenied(named) => named == call && ApprovalOf(front, call).Some?
    case OutputAvailable(named, _) => named == call && Opened(front, call)
    case OutputError(named, _) => named == call && Opened(front, call)
    case _ => false
  }

  /** The last chunk that moved a call: the number of chunks when none did. */
  function LastMove(chunks: seq<Chunk>, call: string): (at: nat)
    ensures at <= |chunks|
    ensures at < |chunks| ==> Moves(chunks[..at], chunks[at], call)
    ensures forall i | (if at < |chunks| then at + 1 else 0) <= i < |chunks| :: !Moves(chunks[..i], chunks[i], call)
  {
    if chunks == [] then 0
    else
      var n := |chunks| - 1;
      if Moves(Front(chunks), Last(chunks), call) then n
      else
        var at := LastMove(Front(chunks), call);
        assert forall i | 0 <= i < n :: Front(chunks)[..i] == chunks[..i] && Front(chunks)[i] == chunks[i];
        if at < n then at else |chunks|
  }

  /** A call's phase is that of its last move, with what was said of it until then. */
  function PhaseAt(chunks: seq<Chunk>, at: nat, call: string): T.Phase {
    if at >= |chunks| then T.InputStreaming(None)
    else
      var input, approval := InputOf(chunks[..at + 1], call), ApprovalOf(chunks[..at + 1], call);
      match chunks[at]
      case InputAvailable(_, _, _, _) => T.InputReady(input)
      case InputError(_, _, _, errorText, _) => T.Failed(None, errorText, approval)
      case OutputError(_, errorText) => T.Failed(input, errorText, approval)
      case ApprovalRequest(_, approvalId) => T.ApprovalRequested(input, approvalId)
      case OutputDenied(_) => T.Denied(input, if approval.Some? then approval.value else "")
      case OutputAvailable(_, output) => T.Answered(input, output, approval)
      case _ => T.InputStreaming(input)
  }

  function PhaseOf(chunks: seq<Chunk>, call: string): T.Phase { PhaseAt(chunks, LastMove(chunks, call), call) }

  // Streamed text and data.

  predicate Restarts(chunks: seq<Chunk>, b: nat, key: StreamKey) { exists i | b < i < |chunks| :: chunks[i] == StreamStart(key) }

  /** What was streamed into a part since it was started and until its key was started again. */
  function TextSince(chunks: seq<Chunk>, b: nat, key: StreamKey): string {
    if |chunks| <= b + 1 then ""
    else
      var before, c := TextSince(Front(chunks), b, key), Last(chunks);
      if c.StreamDelta? && c.key == key && !Restarts(chunks, b, key) then before + c.delta else before
  }

  predicate EndedSince(chunks: seq<Chunk>, b: nat, key: StreamKey) {
    exists i | b < i < |chunks| :: chunks[i] == StreamEnd(key) && !Restarts(chunks[..i], b, key)
  }

  predicate SaysData(c: Chunk, kind: string, id: string) { c.Data? && !c.transient && c.kind == kind && c.dataId == Some(id) }

  function LastData(chunks: seq<Chunk>, kind: string, id: string): Value {
    if chunks == [] then Null
    else if SaysData(Last(chunks), kind, id) then Last(chunks).data else LastData(Front(chunks), kind, id)
  }

  // The parts.

  /** A chunk that begins a part of the message. */
  predicate Begins(chunks: seq<Chunk>, b: nat)
    requires b < |chunks|
  {
    match chunks[b]
    case StreamStart(_) => true
    case StartStep => true
    case FileChunk(_, _, _) => true
    case SourceUrl(_, _, _) => true
    case SourceDocument(_, _, _, _) => true
    case Data(kind, Some(id), _, false) => forall i | 0 <= i < b :: !SaysData(chunks[i], kind, id)
    case Data(_, None, _, false) => true
    case InputStart(call, _, _) => !Opened(chunks[..b], call)
    case InputAvailable(call, _, _, _) => !Opened(chunks[..b], call)
    case _ => false
  }

  /** What a part that a chunk began says by the end. */
  predicate Reads(p: T.Part, chunks: seq<Chunk>, b: nat)
    requires b < |chunks|
  {
    match chunks[b]
    case StreamStart(key) => p == T.Stream(key.kind, TextSince(chunks, b, key), EndedSince(chunks, b, key))
    case StartStep => p == T.StepStart
    case FileChunk(url, mediaType, filename) => p == T.File(url, mediaType, filename)
    case SourceUrl(sourceId, url, title) => p == T.Url(sourceId, url, title)
    case SourceDocument(sourceId, mediaType, heading, filename) => p == T.Document(sourceId, mediaType, heading, filename)
    case Data(kind, Some(id), _, _) => p == T.DataPart(kind, Some(id), LastData(chunks, kind, id))
    case Data(kind, None, data, _) => p == T.DataPart(kind, None, data)
    case InputStart(call, tool, _) => p == T.Tool(tool, call, PhaseOf(chunks, call), LineOf(chunks, call))
    case InputAvailable(call, tool, _, _) => p == T.Tool(tool, call, PhaseOf(chunks, call), LineOf(chunks, call))
    case _ => false
  }

  function Beginnings(chunks: seq<Chunk>): (begins: seq<nat>)
    ensures forall i <- begins :: i < |chunks|
  {
    if chunks == [] then []
    else
      var before, n := Beginnings(Front(chunks)), |chunks| - 1;
      if Begins(chunks, n) then before + [n] else before
  }

  /** They are the chunks that begin a part, each once and in order. */
  lemma {:induction false} BeginningsInOrder(chunks: seq<Chunk>)
    ensures var begins := Beginnings(chunks);
            && (forall i: nat :: i in begins <==> i < |chunks| && Begins(chunks, i))
            && (forall j, k | 0 <= j < k < |begins| :: begins[j] < begins[k])
  {
    if chunks != [] {
      var front, n := Front(chunks), |chunks| - 1;
      BeginningsInOrder(front);
      assert chunks == front + [Last(chunks)];
      forall i: nat | i < n ensures Begins(chunks, i) <==> Begins(front, i) { FrontBegins(front, Last(chunks), i); }
      var before := Beginnings(front);
      assert forall k | 0 <= k < |before| :: before[k] in before && before[k] < n;
    }
  }

  lemma FrontBegins(front: seq<Chunk>, c: Chunk, i: nat)
    requires i < |front|
    ensures Begins(front + [c], i) <==> Begins(front, i)
  {
    var chunks := front + [c];
    assert chunks[i] == front[i] && chunks[..i] == front[..i];
    assert forall j | 0 <= j < i :: chunks[j] == front[j];
  }

  // One more chunk.

  lemma OpenedNext(front: seq<Chunk>, c: Chunk, call: string)
    ensures Opened(front + [c], call) <==> Opened(front, call) || Opens(c, call)
  {
    var chunks := front + [c];
    assert chunks[|front|] == c;
    assert forall i | 0 <= i < |front| :: chunks[i] == front[i];
    if Opened(front, call) {
      var i :| 0 <= i < |front| && Opens(front[i], call);
      assert Opens(chunks[i], call);
    }
  }

  lemma CallNext(front: seq<Chunk>, c: Chunk, call: string)
    ensures var chunks := front + [c];
            && Front(chunks) == front && Last(chunks) == c
            && StreamedInput(chunks, call) ==
               (if c.InputDelta? && c.call == call && Opened(front, call) then StreamedInput(front, call) + c.delta else StreamedInput(front, call))
            && ApprovalOf(chunks, call) ==
               (if c.ApprovalRequest? && c.call == call && Opened(front, call) then Some(c.approvalId) else ApprovalOf(front, call))
            && LineOf(chunks, call) ==
               (if c.ToolSummary? && LineFrom(c.fields, call).Some? && Opened(front, call) then LineFrom(c.fields, call) else LineOf(front, call))
  {
    assert (front + [c])[..|front|] == front;
  }

  lemma InputNext(front: seq<Chunk>, c: Chunk, call: string)
    ensures var chunks := front + [c];
            InputOf(chunks, call) ==
              if c.InputAvailable? && c.call == call then Some(c.input)
              else if c.InputDelta? && c.call == call && Opened(front, call) then Some(Json(StreamedInput(front, call) + c.delta))
              else if c.InputError? && c.call == call then None
              else InputOf(front, call)
  {
    CallNext(front, c, call);
  }

  lemma MoveNext(front: seq<Chunk>, c: Chunk, call: string)
    ensures LastMove(front + [c], call) ==
            if Moves(front, c, call) then |front| else if LastMove(front, call) < |front| then LastMove(front, call) else |front| + 1
  {
    assert Front(front + [c]) == front && Last(front + [c]) == c;
  }

  lemma PhaseAtStays(front: seq<Chunk>, c: Chunk, at: nat, call: string)
    requires at < |front|
    ensures PhaseAt(front + [c], at, call) == PhaseAt(front, at, call)
  {
    assert (front + [c])[..at + 1] == front[..at + 1];
    assert (front + [c])[at] == front[at];
  }

  lemma PhaseNext(front: seq<Chunk>, c: Chunk, call: string)
    ensures !Moves(front, c, call) ==> PhaseOf(front + [c], call) == PhaseOf(front, call)
    ensures Moves(front, c, call) ==> PhaseOf(front + [c], call) == PhaseAt(front + [c], |front|, call)
  {
    MoveNext(front, c, call);
    if LastMove(front, call) < |front| {
      PhaseAtStays(front, c, LastMove(front, call), call);
    }
  }

  lemma RestartsNext(front: seq<Chunk>, c: Chunk, b: nat, key: StreamKey)
    requires b < |front|
    ensures Restarts(front + [c], b, key) <==> Restarts(front, b, key) || c == StreamStart(key)
  {
    var chunks := front + [c];
    assert chunks[|front|] == c;
    assert forall i | 0 <= i < |front| :: chunks[i] == front[i];
    if Restarts(front, b, key) {
      var i :| b < i < |front| && front[i] == StreamStart(key);
      assert chunks[i] == StreamStart(key);
    }
  }

  lemma TextNext(front: seq<Chunk>, c: Chunk, b: nat, key: StreamKey)
    requires b < |front|
    ensures TextSince(front + [c], b, key) ==
            if c.StreamDelta? && c.key == key && !Restarts(front, b, key) then TextSince(front, b, key) + c.delta else TextSince(front, b, key)
  {
    assert Front(front + [c]) == front;
    RestartsNext(front, c, b, key);
  }

  lemma EndedNext(front: seq<Chunk>, c: Chunk, b: nat, key: StreamKey)
    requires b < |front|
    ensures EndedSince(front + [c], b, key) <==> EndedSince(front, b, key) || (c == StreamEnd(key) && !Restarts(front, b, key))
  {
    var chunks, n := front + [c], |front|;
    assert chunks[..n] == front && chunks[n] == c;
    assert forall i | 0 <= i < n :: chunks[i] == front[i] && chunks[..i] == front[..i];
    if EndedSince(front, b, key) {
      var i :| b < i < n && front[i] == StreamEnd(key) && !Restarts(front[..i], b, key);
      assert chunks[i] == StreamEnd(key) && !Restarts(chunks[..i], b, key);
    }
    if c == StreamEnd(key) && !Restarts(front, b, key) {
      assert chunks[n] == StreamEnd(key) && !Restarts(chunks[..n], b, key);
    }
  }

  lemma DataNext(front: seq<Chunk>, c: Chunk, kind: string, id: string)
    ensures LastData(front + [c], kind, id) == if SaysData(c, kind, id) then c.data else LastData(front, kind, id)
  {
    assert Front(front + [c]) == front;
  }

  // What a chunk may change.

  predicate About(c: Chunk, call: string) {
    match c
    case InputStart(named, _, _) => named == call
    case InputDelta(named, _) => named == call
    case InputAvailable(named, _, _, _) => named == call
    case InputError(named, _, _, _, _) => named == call
    case ApprovalRequest(named, _) => named == call
    case OutputDenied(named) => named == call
    case OutputAvailable(named, _) => named == call
    case OutputError(named, _) => named == call
    case ToolSummary(fields, _) => LineFrom(fields, call).Some?
    case _ => false
  }

  /** The part a chunk began is one this chunk speaks of. */
  predicate Touches(front: seq<Chunk>, c: Chunk, b: nat)
    requires b < |front|
  {
    match front[b]
    case StreamStart(key) => (c.StreamDelta? || c.StreamEnd?) && c.key == key && !Restarts(front, b, key)
    case Data(kind, Some(id), _, _) => SaysData(c, kind, id)
    case InputStart(call, _, _) => About(c, call)
    case InputAvailable(call, _, _, _) => About(c, call)
    case _ => false
  }

  lemma UntouchedCall(front: seq<Chunk>, c: Chunk, call: string)
    requires !About(c, call)
    ensures PhaseOf(front + [c], call) == PhaseOf(front, call) && LineOf(front + [c], call) == LineOf(front, call)
    ensures InputOf(front + [c], call) == InputOf(front, call) && StreamedInput(front + [c], call) == StreamedInput(front, call)
    ensures ApprovalOf(front + [c], call) == ApprovalOf(front, call)
    ensures Opened(front + [c], call) <==> Opened(front, call)
  {
    OpenedNext(front, c, call);
    CallNext(front, c, call);
    InputNext(front, c, call);
    PhaseNext(front, c, call);
  }

  lemma Untouched(p: T.Part, front: seq<Chunk>, c: Chunk, b: nat)
    requires b < |front| && Reads(p, front, b) && !Touches(front, c, b)
    ensures Reads(p, front + [c], b)
  {
    assert (front + [c])[b] == front[b];
    match front[b]
    case StreamStart(key) =>
      TextNext(front, c, b, key);
      EndedNext(front, c, b, key);
    case Data(kind, Some(id), _, _) => DataNext(front, c, kind, id);
    case InputStart(call, _, _) => UntouchedCall(front, c, call);
    case InputAvailable(call, _, _, _) => UntouchedCall(front, c, call);
    case _ =>
  }

  // The parts, one chunk at a time.

  ghost predicate PartReads(parts: seq<T.Part>, chunks: seq<Chunk>, begins: seq<nat>, k: nat)
    requires k < |parts| && k < |begins|
  {
    begins[k] < |chunks| && Begins(chunks, begins[k]) && Reads(parts[k], chunks, begins[k])
  }

  ghost predicate AllRead(parts: seq<T.Part>, chunks: seq<Chunk>, begins: seq<nat>) {
    |parts| == |begins| && forall k: nat | k < |begins| :: PartReads(parts, chunks, begins, k)
  }

  predicate Ascends(begins: seq<nat>) { forall j, k | 0 <= j < k < |begins| :: begins[j] < begins[k] }

  lemma StillRead(parts: seq<T.Part>, front: seq<Chunk>, begins: seq<nat>, c: Chunk, k: nat)
    requires k < |parts| && k < |begins| && PartReads(parts, front, begins, k) && !Touches(front, c, begins[k])
    ensures PartReads(parts, front + [c], begins, k)
  {
    FrontBegins(front, c, begins[k]);
    Untouched(parts[k], front, c, begins[k]);
  }

  lemma AllStillRead(parts: seq<T.Part>, front: seq<Chunk>, begins: seq<nat>, c: Chunk)
    requires AllRead(parts, front, begins) && forall k: nat | k < |begins| :: begins[k] < |front| ==> !Touches(front, c, begins[k])
    ensures AllRead(parts, front + [c], begins)
  {
    forall k: nat | k < |begins| ensures PartReads(parts, front + [c], begins, k) {
      assert PartReads(parts, front, begins, k);
      StillRead(parts, front, begins, c, k);
    }
  }

  lemma OneMoreRead(parts: seq<T.Part>, chunks: seq<Chunk>, begins: seq<nat>, p: T.Part, n: nat)
    requires AllRead(parts, chunks, begins) && n < |chunks| && Begins(chunks, n) && Reads(p, chunks, n)
    ensures AllRead(parts + [p], chunks, begins + [n])
  {
    forall k: nat | k < |begins| + 1 ensures PartReads(parts + [p], chunks, begins + [n], k) {
      if k < |begins| { assert PartReads(parts, chunks, begins, k); }
    }
  }

  lemma OneRead(parts: seq<T.Part>, front: seq<Chunk>, begins: seq<nat>, c: Chunk, at: nat, p: T.Part)
    requires AllRead(parts, front, begins) && at < |begins| && begins[at] < |front| && Reads(p, front + [c], begins[at])
    requires forall k: nat | k < |begins| && k != at :: begins[k] < |front| ==> !Touches(front, c, begins[k])
    ensures AllRead(parts[at := p], front + [c], begins)
  {
    var after := parts[at := p];
    forall k: nat | k < |begins| ensures PartReads(after, front + [c], begins, k) {
      assert PartReads(parts, front, begins, k);
      if k == at {
        FrontBegins(front, c, begins[k]);
      } else {
        StillRead(parts, front, begins, c, k);
      }
    }
  }

  // The indices.

  predicate BeganCall(chunks: seq<Chunk>, begins: seq<nat>, at: nat, call: string) {
    at < |begins| && begins[at] < |chunks| && Opens(chunks[begins[at]], call)
  }

  predicate TrackReads(track: T.Track, chunks: seq<Chunk>, call: string) {
    && track.input == InputOf(chunks, call) && track.inputText == StreamedInput(chunks, call)
    && track.approval == ApprovalOf(chunks, call) && track.line == LineOf(chunks, call)
  }

  predicate CallTied(tools: map<string, T.Track>, chunks: seq<Chunk>, begins: seq<nat>, call: string) {
    && (call in tools <==> Opened(chunks, call))
    && (call in tools ==> BeganCall(chunks, begins, tools[call].index, call) &&
                          tools[call].tool == chunks[begins[tools[call].index]].tool && TrackReads(tools[call], chunks, call))
  }

  predicate SaidData(chunks: seq<Chunk>, key: T.DataKey) { exists i | 0 <= i < |chunks| :: SaysData(chunks[i], key.kind, key.id) }

  predicate DataTied(data: map<T.DataKey, nat>, chunks: seq<Chunk>, begins: seq<nat>, key: T.DataKey) {
    && (key in data <==> SaidData(chunks, key))
    && (key in data ==> data[key] < |begins| && begins[data[key]] < |chunks| && SaysData(chunks[begins[data[key]]], key.kind, key.id))
  }

  predicate Started(chunks: seq<Chunk>, key: StreamKey) { exists i | 0 <= i < |chunks| :: chunks[i] == StreamStart(key) }

  predicate StreamTied(streams: map<StreamKey, nat>, chunks: seq<Chunk>, begins: seq<nat>, key: StreamKey) {
    && (key in streams <==> Started(chunks, key))
    && (key in streams ==> streams[key] < |begins| && begins[streams[key]] < |chunks| &&
                           chunks[begins[streams[key]]] == StreamStart(key) && !Restarts(chunks, begins[streams[key]], key))
  }

  ghost predicate Indexed(t: T.Turn, chunks: seq<Chunk>, begins: seq<nat>) {
    && (forall call :: CallTied(t.tools, chunks, begins, call))
    && (forall key :: DataTied(t.data, chunks, begins, key))
    && (forall key :: StreamTied(t.streams, chunks, begins, key))
  }

  ghost predicate TurnReads(t: T.Turn, chunks: seq<Chunk>, begins: seq<nat>) {
    Ascends(begins) && AllRead(t.parts, chunks, begins) && Indexed(t, chunks, begins)
  }

  /** No two parts are of one call, of one piece of data, or of one stream still open to deltas. */
  lemma OnePartEach(parts: seq<T.Part>, chunks: seq<Chunk>, begins: seq<nat>, j: nat, k: nat)
    requires AllRead(parts, chunks, begins) && Ascends(begins) && j < k < |begins| && begins[k] < |chunks|
    ensures begins[j] < begins[k]
    ensures forall call :: Opens(chunks[begins[j]], call) ==> !Opens(chunks[begins[k]], call)
    ensures forall kind, id :: SaysData(chunks[begins[j]], kind, id) ==> !SaysData(chunks[begins[k]], kind, id)
    ensures forall key :: chunks[begins[j]] == chunks[begins[k]] == StreamStart(key) ==> Restarts(chunks, begins[j], key)
  {
    assert PartReads(parts, chunks, begins, j) && PartReads(parts, chunks, begins, k);
    var b, d := begins[j], begins[k];
    assert chunks[..d][b] == chunks[b];
  }

  // Indices a chunk leaves alone.

  lemma CallStill(tools: map<string, T.Track>, front: seq<Chunk>, c: Chunk, begins: seq<nat>, more: seq<nat>, call: string)
    requires CallTied(tools, front, begins, call) && begins <= more && !About(c, call)
    ensures CallTied(tools, front + [c], more, call)
  {
    UntouchedCall(front, c, call);
    if call in tools {
      assert (front + [c])[begins[tools[call].index]] == front[begins[tools[call].index]];
    }
  }

  lemma DataStill(data: map<T.DataKey, nat>, front: seq<Chunk>, c: Chunk, begins: seq<nat>, more: seq<nat>, key: T.DataKey)
    requires DataTied(data, front, begins, key) && begins <= more && !SaysData(c, key.kind, key.id)
    ensures DataTied(data, front + [c], more, key)
  {
    SaidNext(front, c, key);
    if key in data {
      assert (front + [c])[begins[data[key]]] == front[begins[data[key]]];
    }
  }

  lemma SaidNext(front: seq<Chunk>, c: Chunk, key: T.DataKey)
    ensures SaidData(front + [c], key) <==> SaidData(front, key) || SaysData(c, key.kind, key.id)
  {
    var chunks := front + [c];
    assert chunks[|front|] == c;
    assert forall i | 0 <= i < |front| :: chunks[i] == front[i];
    if SaidData(front, key) {
      var i :| 0 <= i < |front| && SaysData(front[i], key.kind, key.id);
      assert SaysData(chunks[i], key.kind, key.id);
    }
  }

  lemma StartedNext(front: seq<Chunk>, c: Chunk, key: StreamKey)
    ensures Started(front + [c], key) <==> Started(front, key) || c == StreamStart(key)
  {
    var chunks := front + [c];
    assert chunks[|front|] == c;
    assert forall i | 0 <= i < |front| :: chunks[i] == front[i];
    if Started(front, key) {
      var i :| 0 <= i < |front| && front[i] == StreamStart(key);
      assert chunks[i] == StreamStart(key);
    }
  }

  lemma StreamStill(streams: map<StreamKey, nat>, front: seq<Chunk>, c: Chunk, begins: seq<nat>, more: seq<nat>, key: StreamKey)
    requires StreamTied(streams, front, begins, key) && begins <= more && c != StreamStart(key)
    ensures StreamTied(streams, front + [c], more, key)
  {
    StartedNext(front, c, key);
    if key in streams {
      var b := begins[streams[key]];
      assert (front + [c])[b] == front[b];
      RestartsNext(front, c, b, key);
    }
  }

  ghost predicate Calls(t: T.Turn, chunks: seq<Chunk>, begins: seq<nat>) { forall call :: CallTied(t.tools, chunks, begins, call) }

  ghost predicate Datas(t: T.Turn, chunks: seq<Chunk>, begins: seq<nat>) { forall key :: DataTied(t.data, chunks, begins, key) }

  ghost predicate Streams(t: T.Turn, chunks: seq<Chunk>, begins: seq<nat>) { forall key :: StreamTied(t.streams, chunks, begins, key) }

  lemma CallsStill(t: T.Turn, front: seq<Chunk>, c: Chunk, begins: seq<nat>, more: seq<nat>)
    requires Calls(t, front, begins) && begins <= more && forall call :: !About(c, call)
    ensures Calls(t, front + [c], more)
  {
    forall call ensures CallTied(t.tools, front + [c], more, call) {
      assert CallTied(t.tools, front, begins, call);
      CallStill(t.tools, front, c, begins, more, call);
    }
  }

  lemma DatasStill(t: T.Turn, front: seq<Chunk>, c: Chunk, begins: seq<nat>, more: seq<nat>)
    requires Datas(t, front, begins) && begins <= more && !(c.Data? && !c.transient && c.dataId.Some?)
    ensures Datas(t, front + [c], more)
  {
    forall key ensures DataTied(t.data, front + [c], more, key) {
      assert DataTied(t.data, front, begins, key);
      DataStill(t.data, front, c, begins, more, key);
    }
  }

  lemma StreamsStill(t: T.Turn, front: seq<Chunk>, c: Chunk, begins: seq<nat>, more: seq<nat>)
    requires Streams(t, front, begins) && begins <= more && !c.StreamStart?
    ensures Streams(t, front + [c], more)
  {
    forall key ensures StreamTied(t.streams, front + [c], more, key) {
      assert StreamTied(t.streams, front, begins, key);
      StreamStill(t.streams, front, c, begins, more, key);
    }
  }

  /** What holds of the turn so far, with the parts the chunks began. */
  ghost predicate Holds(t: T.Turn, chunks: seq<Chunk>) { TurnReads(t, chunks, Beginnings(chunks)) }

  lemma BeginningsNext(front: seq<Chunk>, c: Chunk)
    ensures Beginnings(front + [c]) == Beginnings(front) + if Begins(front + [c], |front|) then [|front|] else []
    ensures Ascends(Beginnings(front + [c]))
  {
    assert Front(front + [c]) == front;
    BeginningsInOrder(front + [c]);
  }

  lemma TurnReadsParts(t: T.Turn, chunks: seq<Chunk>, begins: seq<nat>)
    ensures TurnReads(t, chunks, begins) <==>
            Ascends(begins) && AllRead(t.parts, chunks, begins) && Calls(t, chunks, begins) && Datas(t, chunks, begins) && Streams(t, chunks, begins)
  {
  }

  // Chunks that name no part but the one they add.

  /** A chunk that speaks of no part before it. */
  predicate Aside(c: Chunk) {
    FamilyOf(c).OfPart? || FamilyOf(c).OfMessage? || c.FinishStep? || (c.Data? && (c.transient || c.dataId.None?))
  }

  lemma AsideHolds(t: T.Turn, front: seq<Chunk>, c: Chunk)
    requires Holds(t, front) && Aside(c)
    ensures Holds(T.After(t, c), front + [c])
  {
    var begins, more, after, n := Beginnings(front), Beginnings(front + [c]), T.After(t, c), |front|;
    BeginningsNext(front, c);
    TurnReadsParts(t, front, begins);
    TurnReadsParts(after, front + [c], more);
    assert (front + [c])[n] == c;
    CallsStill(t, front, c, begins, more);
    DatasStill(t, front, c, begins, more);
    StreamsStill(t, front, c, begins, more);
    AllStillRead(t.parts, front, begins, c);
    if Begins(front + [c], n) {
      OneMoreRead(t.parts, front + [c], begins, after.parts[|t.parts|], n);
      assert after.parts == t.parts + [after.parts[|t.parts|]];
    }
  }

  // Streamed parts.

  lemma StartHolds(t: T.Turn, front: seq<Chunk>, key: StreamKey)
    requires Holds(t, front)
    ensures Holds(T.After(t, StreamStart(key)), front + [StreamStart(key)])
  {
    var c := StreamStart(key);
    var begins, chunks, after, n := Beginnings(front), front + [c], T.After(t, c), |front|;
    BeginningsNext(front, c);
    TurnReadsParts(t, front, begins);
    TurnReadsParts(after, chunks, begins + [n]);
    assert chunks[n] == c;
    CallsStill(t, front, c, begins, begins + [n]);
    DatasStill(t, front, c, begins, begins + [n]);
    forall other ensures StreamTied(after.streams, chunks, begins + [n], other) {
      assert StreamTied(t.streams, front, begins, other);
      if other == key { StartedNext(front, c, key); } else { StreamStill(t.streams, front, c, begins, begins + [n], other); }
    }
    AllStillRead(t.parts, front, begins, c);
    assert !EndedSince(chunks, n, key);
    OneMoreRead(t.parts, chunks, begins, T.Stream(key.kind, "", false), n);
  }

  /** A delta or an end finds the part it is for. */
  lemma StreamedPart(t: T.Turn, front: seq<Chunk>, begins: seq<nat>, c: Chunk)
    requires TurnReads(t, front, begins) && (c.StreamDelta? || c.StreamEnd?)
    ensures c.key in t.streams ==>
              var at := t.streams[c.key];
              && at < |begins| && begins[at] < |front| && front[begins[at]] == StreamStart(c.key) && !Restarts(front, begins[at], c.key)
              && PartReads(t.parts, front, begins, at)
              && forall k: nat | k < |begins| && k != at :: begins[k] < |front| ==> !Touches(front, c, begins[k])
    ensures c.key !in t.streams ==> forall k: nat | k < |begins| :: begins[k] < |front| ==> !Touches(front, c, begins[k])
  {
    assert StreamTied(t.streams, front, begins, c.key);
    if c.key in t.streams {
      var at := t.streams[c.key];
      assert PartReads(t.parts, front, begins, at);
      forall k: nat | k < |begins| && k != at && begins[k] < |front| ensures !Touches(front, c, begins[k]) {
        assert PartReads(t.parts, front, begins, k);
        OnePartEach(t.parts, front, begins, if k < at then k else at, if k < at then at else k);
      }
    }
  }

  lemma StreamedHolds(t: T.Turn, front: seq<Chunk>, c: Chunk)
    requires Holds(t, front) && (c.StreamDelta? || c.StreamEnd?)
    ensures Holds(T.After(t, c), front + [c])
  {
    var begins, chunks, after := Beginnings(front), front + [c], T.After(t, c);
    BeginningsNext(front, c);
    assert chunks[|front|] == c;
    TurnReadsParts(t, front, begins);
    TurnReadsParts(after, chunks, begins);
    CallsStill(t, front, c, begins, begins);
    DatasStill(t, front, c, begins, begins);
    StreamsStill(t, front, c, begins, begins);
    StreamedPart(t, front, begins, c);
    if c.key in t.streams {
      var at := t.streams[c.key];
      assert chunks[begins[at]] == front[begins[at]];
      TextNext(front, c, begins[at], c.key);
      EndedNext(front, c, begins[at], c.key);
      OneRead(t.parts, front, begins, c, at, after.parts[at]);
      assert after.parts == t.parts[at := after.parts[at]];
    } else {
      AllStillRead(t.parts, front, begins, c);
    }
  }

  // Data.

  lemma DataPartOf(t: T.Turn, front: seq<Chunk>, begins: seq<nat>, c: Chunk)
    requires TurnReads(t, front, begins) && c.Data? && !c.transient && c.dataId.Some?
    ensures var key := T.DataKey(c.kind, c.dataId.value);
            if key in t.data then
              var at := t.data[key];
              && at < |begins| && begins[at] < |front| && SaysData(front[begins[at]], key.kind, key.id)
              && forall k: nat | k < |begins| && k != at :: begins[k] < |front| ==> !Touches(front, c, begins[k])
            else
              && !SaidData(front, key)
              && forall k: nat | k < |begins| :: begins[k] < |front| ==> !Touches(front, c, begins[k])
  {
    var key := T.DataKey(c.kind, c.dataId.value);
    assert DataTied(t.data, front, begins, key);
    forall k: nat | k < |begins| && begins[k] < |front| && Touches(front, c, begins[k]) ensures key in t.data && k == t.data[key] {
      assert PartReads(t.parts, front, begins, k);
      assert SaysData(front[begins[k]], key.kind, key.id);
      var at := t.data[key];
      if k != at {
        OnePartEach(t.parts, front, begins, if k < at then k else at, if k < at then at else k);
      }
    }
  }

  /** After data with an id, every other piece of data stands where it did. */
  lemma DatasAfter(t: T.Turn, front: seq<Chunk>, c: Chunk, begins: seq<nat>, more: seq<nat>, data: map<T.DataKey, nat>)
    requires Datas(t, front, begins) && begins <= more && c.Data? && c.dataId.Some?
    requires var key := T.DataKey(c.kind, c.dataId.value);
             && DataTied(data, front + [c], more, key)
             && forall other | other != key :: (other in data <==> other in t.data) && (other in data ==> data[other] == t.data[other])
    ensures forall other :: DataTied(data, front + [c], more, other)
  {
    var key := T.DataKey(c.kind, c.dataId.value);
    forall other ensures DataTied(data, front + [c], more, other) {
      assert DataTied(t.data, front, begins, other);
      if other != key { DataStill(t.data, front, c, begins, more, other); }
    }
  }

  /** More about a piece of data replaces its part. */
  lemma DataReplaced(t: T.Turn, front: seq<Chunk>, c: Chunk)
    requires Holds(t, front) && c.Data? && !c.transient && c.dataId.Some? && T.DataKey(c.kind, c.dataId.value) in t.data
    ensures Holds(T.After(t, c), front + [c])
  {
    var begins, chunks, key := Beginnings(front), front + [c], T.DataKey(c.kind, c.dataId.value);
    DataPartOf(t, front, begins, c);
    var at := t.data[key];
    assert chunks[begins[at]] == front[begins[at]];
    BeginningsNext(front, c);
    assert !Begins(chunks, |front|) by { assert chunks[|front|] == c && SaysData(chunks[begins[at]], key.kind, key.id); }
    TurnReadsParts(t, front, begins);
    TurnReadsParts(T.After(t, c), chunks, begins);
    CallsStill(t, front, c, begins, begins);
    StreamsStill(t, front, c, begins, begins);
    DataNext(front, c, key.kind, key.id);
    OneRead(t.parts, front, begins, c, at, T.DataPart(c.kind, c.dataId, c.data));
    SaidNext(front, c, key);
    DatasAfter(t, front, c, begins, begins, t.data);
  }

  lemma DataAdded(t: T.Turn, front: seq<Chunk>, c: Chunk)
    requires Holds(t, front) && c.Data? && !c.transient && c.dataId.Some? && T.DataKey(c.kind, c.dataId.value) !in t.data
    ensures Holds(T.After(t, c), front + [c])
  {
    var begins, chunks, key, n := Beginnings(front), front + [c], T.DataKey(c.kind, c.dataId.value), |front|;
    DataPartOf(t, front, begins, c);
    BeginningsNext(front, c);
    assert Begins(chunks, n) by {
      assert chunks[n] == c && forall i | 0 <= i < n :: chunks[i] == front[i] && !SaysData(front[i], key.kind, key.id);
    }
    TurnReadsParts(t, front, begins);
    TurnReadsParts(T.After(t, c), chunks, begins + [n]);
    CallsStill(t, front, c, begins, begins + [n]);
    StreamsStill(t, front, c, begins, begins + [n]);
    DataNext(front, c, key.kind, key.id);
    AllStillRead(t.parts, front, begins, c);
    OneMoreRead(t.parts, chunks, begins, T.DataPart(c.kind, c.dataId, c.data), n);
    SaidNext(front, c, key);
    DatasAfter(t, front, c, begins, begins + [n], T.After(t, c).data);
  }

  // Calls.

  predicate ToolChunk(c: Chunk) { FamilyOf(c).OfTool? }

  function CallOf(c: Chunk): string
    requires ToolChunk(c)
  {
    c.call
  }

  lemma AboutItsCall(c: Chunk, call: string)
    requires ToolChunk(c)
    ensures About(c, call) <==> call == CallOf(c)
  {
  }

  function CallPart(chunks: seq<Chunk>, call: string, tool: string): T.Part {
    T.Tool(tool, call, PhaseOf(chunks, call), LineOf(chunks, call))
  }

  /** What a chunk that moves a call leaves its phase at. */
  lemma PhaseNow(front: seq<Chunk>, c: Chunk, call: string)
    requires Moves(front, c, call)
    ensures var chunks := front + [c];
            var input, approval := InputOf(chunks, call), ApprovalOf(chunks, call);
            PhaseOf(chunks, call) ==
            match c
            case InputAvailable(_, _, _, _) => T.InputReady(input)
            case InputError(_, _, _, errorText, _) => T.Failed(None, errorText, approval)
            case OutputError(_, errorText) => T.Failed(input, errorText, approval)
            case ApprovalRequest(_, approvalId) => T.ApprovalRequested(input, approvalId)
            case OutputDenied(_) => T.Denied(input, if approval.Some? then approval.value else "")
            case OutputAvailable(_, output) => T.Answered(input, output, approval)
            case _ => T.InputStreaming(input)
  {
    PhaseNext(front, c, call);
    assert (front + [c])[..|front| + 1] == front + [c];
  }

  /** What a chunk about an open call makes of its track and its part. */
  ghost predicate MovesCall(t: T.Turn, after: T.Turn, chunks: seq<Chunk>, call: string) {
    && call in t.tools && t.tools[call].index < |t.parts|
    && call in after.tools && after == t.(tools := t.tools[call := after.tools[call]], parts := after.parts)
    && after.tools[call].index == t.tools[call].index && after.tools[call].tool == t.tools[call].tool
    && TrackReads(after.tools[call], chunks, call)
    && after.parts == t.parts[t.tools[call].index := CallPart(chunks, call, t.tools[call].tool)]
  }

  lemma WroteMoves(t: T.Turn, track: T.Track, phase: T.Phase, chunks: seq<Chunk>, call: string)
    requires call in t.tools && t.tools[call].index < |t.parts| && track.index == t.tools[call].index && track.tool == t.tools[call].tool
    requires TrackReads(track, chunks, call) && phase == PhaseOf(chunks, call)
    ensures MovesCall(t, T.Wrote(t, call, track, phase), chunks, call)
  {
  }

  lemma StaysMoves(t: T.Turn, chunks: seq<Chunk>, call: string)
    requires call in t.tools && t.tools[call].index < |t.parts| && TrackReads(t.tools[call], chunks, call)
    requires t.parts[t.tools[call].index] == CallPart(chunks, call, t.tools[call].tool)
    ensures MovesCall(t, t, chunks, call)
  {
    assert t.tools[call := t.tools[call]] == t.tools;
    assert t.parts[t.tools[call].index := t.parts[t.tools[call].index]] == t.parts;
  }

  /** An open call after a chunk about it. */
  lemma CallMoved(t: T.Turn, front: seq<Chunk>, begins: seq<nat>, c: Chunk)
    requires ToolChunk(c) && Opened(front, CallOf(c))
    requires CallTied(t.tools, front, begins, CallOf(c)) && |t.parts| == |begins|
    requires t.parts[t.tools[CallOf(c)].index] == CallPart(front, CallOf(c), t.tools[CallOf(c)].tool)
    ensures MovesCall(t, T.AfterTool(t, c), front + [c], CallOf(c))
  {
    var chunks, call := front + [c], CallOf(c);
    var track := t.tools[call];
    CallNext(front, c, call);
    InputNext(front, c, call);
    if !Moves(front, c, call) {
      PhaseNext(front, c, call);
      StaysMoves(t, chunks, call);
    } else {
      PhaseNow(front, c, call);
      var more := track.(input := InputOf(chunks, call), inputText := StreamedInput(chunks, call), approval := ApprovalOf(chunks, call));
      WroteMoves(t, more, PhaseOf(chunks, call), chunks, call);
    }
  }

  /** A call's part is found through its track. */
  lemma PartOfCall(t: T.Turn, front: seq<Chunk>, begins: seq<nat>, call: string)
    requires TurnReads(t, front, begins)
    ensures Opened(front, call) ==>
              && call in t.tools && BeganCall(front, begins, t.tools[call].index, call)
              && t.parts[t.tools[call].index] == CallPart(front, call, t.tools[call].tool)
    ensures forall k: nat | k < |begins| && begins[k] < |front| && (front[begins[k]].InputStart? || front[begins[k]].InputAvailable?) ::
              front[begins[k]].call == call ==> call in t.tools && k == t.tools[call].index
  {
    assert CallTied(t.tools, front, begins, call);
    if call in t.tools {
      assert PartReads(t.parts, front, begins, t.tools[call].index);
    }
    forall k: nat | k < |begins| && begins[k] < |front| && Opens(front[begins[k]], call) ensures call in t.tools && k == t.tools[call].index {
      assert PartReads(t.parts, front, begins, k);
      var at := t.tools[call].index;
      if k != at {
        OnePartEach(t.parts, front, begins, if k < at then k else at, if k < at then at else k);
      }
    }
  }

  /** Every other call stands where it did. */
  lemma CallsAfter(t: T.Turn, front: seq<Chunk>, c: Chunk, begins: seq<nat>, more: seq<nat>, tools: map<string, T.Track>, call: string)
    requires Calls(t, front, begins) && begins <= more && (forall other :: About(c, other) ==> other == call)
    requires CallTied(tools, front + [c], more, call)
    requires forall other | other != call :: (other in tools <==> other in t.tools) && (other in tools ==> tools[other] == t.tools[other])
    ensures forall other :: CallTied(tools, front + [c], more, other)
  {
    forall other ensures CallTied(tools, front + [c], more, other) {
      assert CallTied(t.tools, front, begins, other);
      if other != call { CallStill(t.tools, front, c, begins, more, other); }
    }
  }

  /** A chunk about one call, and about no stream and no data. */
  ghost predicate OnlyAbout(c: Chunk, call: string) {
    (ToolChunk(c) || c.ToolSummary?) && forall other :: About(c, other) ==> other == call
  }

  lemma TouchesOneCall(t: T.Turn, front: seq<Chunk>, begins: seq<nat>, c: Chunk, call: string, k: nat)
    requires TurnReads(t, front, begins) && OnlyAbout(c, call) && k < |begins| && begins[k] < |front| && Touches(front, c, begins[k])
    ensures call in t.tools && k == t.tools[call].index
  {
    PartOfCall(t, front, begins, call);
  }

  lemma MovedCallTied(t: T.Turn, after: T.Turn, front: seq<Chunk>, begins: seq<nat>, c: Chunk, call: string)
    requires CallTied(t.tools, front, begins, call) && MovesCall(t, after, front + [c], call)
    ensures CallTied(after.tools, front + [c], begins, call)
  {
    OpenedNext(front, c, call);
    assert (front + [c])[begins[t.tools[call].index]] == front[begins[t.tools[call].index]];
  }

  lemma MovedCallRead(t: T.Turn, after: T.Turn, front: seq<Chunk>, begins: seq<nat>, c: Chunk, call: string)
    requires TurnReads(t, front, begins) && OnlyAbout(c, call) && MovesCall(t, after, front + [c], call)
    ensures AllRead(after.parts, front + [c], begins)
  {
    var at := t.tools[call].index;
    assert CallTied(t.tools, front, begins, call);
    assert (front + [c])[begins[at]] == front[begins[at]];
    forall k: nat | k < |begins| && k != at && begins[k] < |front| ensures !Touches(front, c, begins[k]) {
      if Touches(front, c, begins[k]) { TouchesOneCall(t, front, begins, c, call, k); }
    }
    OneRead(t.parts, front, begins, c, at, CallPart(front + [c], call, t.tools[call].tool));
  }

  /** A chunk that only says more of one open call. */
  lemma CallReplaced(t: T.Turn, after: T.Turn, front: seq<Chunk>, begins: seq<nat>, c: Chunk, call: string)
    requires TurnReads(t, front, begins) && OnlyAbout(c, call) && MovesCall(t, after, front + [c], call)
    ensures TurnReads(after, front + [c], begins)
  {
    TurnReadsParts(t, front, begins);
    assert CallTied(t.tools, front, begins, call);
    MovedCallTied(t, after, front, begins, c, call);
    CallsAfter(t, front, c, begins, begins, after.tools, call);
    DatasStill(t, front, c, begins, begins);
    StreamsStill(t, front, c, begins, begins);
    MovedCallRead(t, after, front, begins, c, call);
    TurnReadsParts(after, front + [c], begins);
  }

  lemma MovedHolds(t: T.Turn, front: seq<Chunk>, c: Chunk)
    requires Holds(t, front) && ToolChunk(c) && Opened(front, CallOf(c))
    ensures Holds(T.After(t, c), front + [c])
  {
    var begins, call := Beginnings(front), CallOf(c);
    PartOfCall(t, front, begins, call);
    assert CallTied(t.tools, front, begins, call);
    CallMoved(t, front, begins, c);
    CallReplaced(t, T.AfterTool(t, c), front, begins, c, call);
    BeginningsNext(front, c);
    NoneBegins(front, c);
  }

  lemma NoneBegins(front: seq<Chunk>, c: Chunk)
    requires (ToolChunk(c) && Opened(front, CallOf(c))) || c.ToolSummary?
    ensures !Begins(front + [c], |front|)
  {
    assert (front + [c])[|front|] == c && (front + [c])[..|front|] == front;
  }

  /** A chunk about a call that is not open does nothing, unless it opens it. */
  lemma UnopenedHolds(t: T.Turn, front: seq<Chunk>, c: Chunk)
    requires Holds(t, front) && ToolChunk(c) && !Opened(front, CallOf(c)) && !Opens(c, CallOf(c))
    ensures Holds(T.After(t, c), front + [c])
  {
    var begins, chunks, call := Beginnings(front), front + [c], CallOf(c);
    TurnReadsParts(t, front, begins);
    assert CallTied(t.tools, front, begins, call);
    assert T.After(t, c) == t;
    BeginningsNext(front, c);
    assert chunks[|front|] == c;
    PartOfCall(t, front, begins, call);
    OpenedNext(front, c, call);
    CallsAfter(t, front, c, begins, begins, t.tools, call);
    DatasStill(t, front, c, begins, begins);
    StreamsStill(t, front, c, begins, begins);
    AllStillRead(t.parts, front, begins, c);
    TurnReadsParts(t, chunks, begins);
  }

  lemma {:induction false} NothingSaid(chunks: seq<Chunk>, call: string)
    requires !Opened(chunks, call)
    ensures StreamedInput(chunks, call) == "" && InputOf(chunks, call) == None && ApprovalOf(chunks, call) == None
    ensures LineOf(chunks, call) == None && LastMove(chunks, call) == |chunks|
  {
    if chunks != [] {
      var front, c := Front(chunks), Last(chunks);
      assert chunks == front + [c];
      OpenedNext(front, c, call);
      NothingSaid(front, call);
      MoveNext(front, c, call);
    }
  }

  /** A call as it opens. */
  lemma CallOpens(t: T.Turn, front: seq<Chunk>, c: Chunk)
    requires ToolChunk(c) && Opens(c, CallOf(c)) && !Opened(front, CallOf(c)) && CallOf(c) !in t.tools
    ensures var call, after := CallOf(c), T.AfterTool(t, c);
            && call in after.tools && after == t.(tools := t.tools[call := after.tools[call]], parts := after.parts)
            && after.tools[call].index == |t.parts| && after.tools[call].tool == c.tool
            && TrackReads(after.tools[call], front + [c], call)
            && after.parts == t.parts + [CallPart(front + [c], call, c.tool)]
  {
    var call := CallOf(c);
    NothingSaid(front, call);
    CallNext(front, c, call);
    InputNext(front, c, call);
    PhaseNext(front, c, call);
    if c.InputAvailable? {
      PhaseNow(front, c, call);
    }
  }

  lemma OpensHolds(t: T.Turn, front: seq<Chunk>, c: Chunk)
    requires Holds(t, front) && ToolChunk(c) && Opens(c, CallOf(c)) && !Opened(front, CallOf(c))
    ensures Holds(T.After(t, c), front + [c])
  {
    var begins, chunks, call, after, n := Beginnings(front), front + [c], CallOf(c), T.AfterTool(t, c), |front|;
    TurnReadsParts(t, front, begins);
    assert CallTied(t.tools, front, begins, call);
    CallOpens(t, front, c);
    BeginningsNext(front, c);
    assert chunks[n] == c && chunks[..n] == front;
    PartOfCall(t, front, begins, call);
    OpenedNext(front, c, call);
    CallsAfter(t, front, c, begins, begins + [n], after.tools, call);
    DatasStill(t, front, c, begins, begins + [n]);
    StreamsStill(t, front, c, begins, begins + [n]);
    AllStillRead(t.parts, front, begins, c);
    OneMoreRead(t.parts, chunks, begins, CallPart(chunks, call, c.tool), n);
    TurnReadsParts(after, chunks, begins + [n]);
  }

  // Summaries.

  predicate Lines(c: Chunk, call: string) { c.ToolSummary? && LineFrom(c.fields, call).Some? }

  lemma SummaryReads(t: T.Turn, fields: Option<SummaryFields>)
    ensures fields.Some? && fields.value.call.Some? && fields.value.summary.Some? && fields.value.call.value in t.tools ==>
              var call, line := fields.value.call.value, LineFrom(fields, fields.value.call.value);
              var at := t.tools[call].index;
              && line.Some?
              && T.AfterSummary(t, fields) ==
                 t.(tools := t.tools[call := t.tools[call].(line := line)],
                    parts := if at < |t.parts| && t.parts[at].Tool? then t.parts[at := t.parts[at].(line := line)] else t.parts)
    ensures !(fields.Some? && fields.value.call.Some? && fields.value.summary.Some? && fields.value.call.value in t.tools) ==>
              T.AfterSummary(t, fields) == t
  {
  }

  lemma LineMoves(t: T.Turn, front: seq<Chunk>, begins: seq<nat>, c: Chunk, call: string)
    requires Lines(c, call) && Opened(front, call) && CallTied(t.tools, front, begins, call) && |t.parts| == |begins|
    requires t.parts[t.tools[call].index] == CallPart(front, call, t.tools[call].tool)
    ensures MovesCall(t, T.AfterSummary(t, c.fields), front + [c], call)
  {
    SummaryReads(t, c.fields);
    CallNext(front, c, call);
    InputNext(front, c, call);
    PhaseNext(front, c, call);
  }

  lemma LinedHolds(t: T.Turn, front: seq<Chunk>, c: Chunk, call: string)
    requires Holds(t, front) && Lines(c, call) && Opened(front, call)
    ensures Holds(T.After(t, c), front + [c])
  {
    var begins := Beginnings(front);
    PartOfCall(t, front, begins, call);
    assert CallTied(t.tools, front, begins, call);
    LineMoves(t, front, begins, c, call);
    CallReplaced(t, T.AfterSummary(t, c.fields), front, begins, c, call);
    BeginningsNext(front, c);
    NoneBegins(front, c);
  }

  lemma UnlinedHolds(t: T.Turn, front: seq<Chunk>, c: Chunk)
    requires Holds(t, front) && c.ToolSummary? && forall call :: Lines(c, call) ==> !Opened(front, call)
    ensures Holds(T.After(t, c), front + [c])
  {
    var begins, chunks := Beginnings(front), front + [c];
    TurnReadsParts(t, front, begins);
    SummaryReads(t, c.fields);
    forall call | Lines(c, call) ensures call !in t.tools { assert CallTied(t.tools, front, begins, call); }
    if c.fields.Some? && c.fields.value.call.Some? && c.fields.value.summary.Some? {
      assert Lines(c, c.fields.value.call.value);
    }
    assert T.After(t, c) == t;
    BeginningsNext(front, c);
    assert chunks[|front|] == c;
    forall call ensures CallTied(t.tools, chunks, begins, call) {
      assert CallTied(t.tools, front, begins, call);
      if Lines(c, call) { UnopenedLine(front, c, call); } else { CallStill(t.tools, front, c, begins, begins, call); }
    }
    DatasStill(t, front, c, begins, begins);
    StreamsStill(t, front, c, begins, begins);
    forall k: nat | k < |begins| && begins[k] < |front| ensures !Touches(front, c, begins[k]) {
      if front[begins[k]].InputStart? || front[begins[k]].InputAvailable? {
        var call := front[begins[k]].call;
        assert Opens(front[begins[k]], call) && Opened(front, call);
        assert Lines(c, call) <==> About(c, call);
      }
    }
    AllStillRead(t.parts, front, begins, c);
    TurnReadsParts(t, chunks, begins);
  }

  lemma UnopenedLine(front: seq<Chunk>, c: Chunk, call: string)
    requires Lines(c, call) && !Opened(front, call)
    ensures !Opened(front + [c], call)
  {
    OpenedNext(front, c, call);
  }

  // The whole turn.

  lemma NextHolds(t: T.Turn, front: seq<Chunk>, c: Chunk)
    requires Holds(t, front)
    ensures Holds(T.After(t, c), front + [c])
  {
    if Aside(c) {
      AsideHolds(t, front, c);
    } else if c.StreamStart? {
      StartHolds(t, front, c.key);
    } else if c.StreamDelta? || c.StreamEnd? {
      StreamedHolds(t, front, c);
    } else if c.Data? {
      if T.DataKey(c.kind, c.dataId.value) in t.data { DataReplaced(t, front, c); } else { DataAdded(t, front, c); }
    } else if c.ToolSummary? {
      if call :| Lines(c, call) && Opened(front, call) { LinedHolds(t, front, c, call); } else { UnlinedHolds(t, front, c); }
    } else if Opened(front, CallOf(c)) {
      MovedHolds(t, front, c);
    } else if Opens(c, CallOf(c)) {
      OpensHolds(t, front, c);
    } else {
      UnopenedHolds(t, front, c);
    }
  }

  lemma {:induction false} TurnHolds(chunks: seq<Chunk>)
    ensures Holds(T.TurnOf(chunks), chunks)
  {
    if chunks != [] {
      TurnHolds(Front(chunks));
      NextHolds(T.TurnOf(Front(chunks)), Front(chunks), Last(chunks));
      assert Front(chunks) + [Last(chunks)] == chunks;
    }
  }

  // What is said of the whole message.

  /** What a chunk says of the whole message beside its metadata. */
  function SaidId(c: Chunk): Option<string> { if c.Start? then c.messageId else None }

  function SaidReason(c: Chunk): Option<string> { if c.Finish? then c.reason else None }

  function SaidMetadata(c: Chunk): Option<Metadata> { if c.Start? || c.MessageMetadata? || c.Finish? then c.metadata else None }

  function LastSaid<A>(chunks: seq<Chunk>, says: Chunk -> Option<A>): Option<A> {
    if chunks == [] then None else if says(Last(chunks)).Some? then says(Last(chunks)) else LastSaid(Front(chunks), says)
  }

  function ErrorsOf(chunks: seq<Chunk>): seq<string> {
    if chunks == [] then [] else ErrorsOf(Front(chunks)) + if Last(chunks).ErrorChunk? then [Last(chunks).errorText] else []
  }

  /** A field of the metadata is what the last chunk that carries it says. */
  function LastField(chunks: seq<Chunk>, field: string): Option<Value> {
    if chunks == [] then None
    else
      var said := SaidMetadata(Last(chunks));
      if said.Some? && field in said.value then Some(said.value[field]) else LastField(Front(chunks), field)
  }

  ghost predicate MetadataReads(metadata: Option<Metadata>, chunks: seq<Chunk>) {
    && (metadata.Some? <==> LastSaid(chunks, SaidMetadata).Some?)
    && (metadata.Some? ==> forall field :: FieldReads(metadata.value, chunks, field))
  }

  predicate FieldReads(metadata: Metadata, chunks: seq<Chunk>, field: string) {
    if field in metadata then LastField(chunks, field) == Some(metadata[field]) else LastField(chunks, field).None?
  }

  ghost predicate MessageReads(id: string, finishReason: Option<string>, metadata: Option<Metadata>, chunks: seq<Chunk>, named: string) {
    && id == (var said := LastSaid(chunks, SaidId); if said.Some? then said.value else named)
    && finishReason == LastSaid(chunks, SaidReason)
    && MetadataReads(metadata, chunks)
  }

  lemma SaidNextOf<A>(front: seq<Chunk>, c: Chunk, says: Chunk -> Option<A>)
    ensures LastSaid(front + [c], says) == if says(c).Some? then says(c) else LastSaid(front, says)
  {
    assert Front(front + [c]) == front;
  }

  lemma {:induction false} NoFields(chunks: seq<Chunk>, field: string)
    requires LastSaid(chunks, SaidMetadata).None?
    ensures LastField(chunks, field).None?
  {
    if chunks != [] {
      NoFields(Front(chunks), field);
    }
  }

  lemma MetadataNext(metadata: Option<Metadata>, front: seq<Chunk>, c: Chunk)
    requires MetadataReads(metadata, front)
    ensures MetadataReads(Merged(metadata, SaidMetadata(c)), front + [c])
  {
    var after := Merged(metadata, SaidMetadata(c));
    SaidNextOf(front, c, SaidMetadata);
    assert Front(front + [c]) == front && Last(front + [c]) == c;
    if after.Some? {
      forall field ensures FieldReads(after.value, front + [c], field) {
        if metadata.Some? { assert FieldReads(metadata.value, front, field); } else { NoFields(front, field); }
      }
    }
  }

  lemma MessageNext(id: string, finishReason: Option<string>, metadata: Option<Metadata>, front: seq<Chunk>, c: Chunk, named: string)
    requires MessageReads(id, finishReason, metadata, front, named)
    ensures MessageReads(if SaidId(c).Some? then SaidId(c).value else id, if SaidReason(c).Some? then SaidReason(c) else finishReason,
                         Merged(metadata, SaidMetadata(c)), front + [c], named)
  {
    SaidNextOf(front, c, SaidId);
    SaidNextOf(front, c, SaidReason);
    MetadataNext(metadata, front, c);
  }

  predicate Aborts(chunks: seq<Chunk>) { exists i | 0 <= i < |chunks| :: chunks[i].Abort? }

  /** A turn names its message, its end, its metadata, its errors and its abort as the stream says them. */
  lemma {:induction false} TurnSaysWhatTheStreamSays(chunks: seq<Chunk>)
    ensures var t := T.TurnOf(chunks);
            MessageReads(t.id, t.finishReason, t.metadata, chunks, "") && t.errors == ErrorsOf(chunks) && (t.aborted <==> Aborts(chunks))
  {
    if chunks != [] {
      var front, c := Front(chunks), Last(chunks);
      var t := T.TurnOf(front);
      TurnSaysWhatTheStreamSays(front);
      assert chunks == front + [c];
      MessageNext(t.id, t.finishReason, t.metadata, front, c, "");
      MessageAfter(t, c);
      AbortsNext(front, c);
    }
  }

  lemma AbortsNext(front: seq<Chunk>, c: Chunk)
    ensures Aborts(front + [c]) <==> Aborts(front) || c.Abort?
  {
    var chunks := front + [c];
    assert chunks[|front|] == c && forall i | 0 <= i < |front| :: chunks[i] == front[i];
    if Aborts(front) {
      var i :| 0 <= i < |front| && front[i].Abort?;
      assert chunks[i].Abort?;
    }
  }

  predicate SpeaksOfAll(t: T.Turn, after: T.Turn, c: Chunk) {
    && after.id == (if SaidId(c).Some? then SaidId(c).value else t.id)
    && after.finishReason == (if SaidReason(c).Some? then SaidReason(c) else t.finishReason)
    && after.metadata == Merged(t.metadata, SaidMetadata(c))
    && after.errors == (if c.ErrorChunk? then t.errors + [c.errorText] else t.errors)
    && after.aborted == (t.aborted || c.Abort?)
  }

  lemma LeavesTheRest(t: T.Turn, after: T.Turn, c: Chunk)
    requires !FamilyOf(c).OfMessage?
    requires after == t.(parts := after.parts, streams := after.streams, data := after.data, tools := after.tools)
    ensures SpeaksOfAll(t, after, c)
  {
  }

  /** Only the chunks that speak of the whole message change what is said of it. */
  lemma MessageAfter(t: T.Turn, c: Chunk)
    ensures SpeaksOfAll(t, T.After(t, c), c)
  {
    match FamilyOf(c)
    case OfStream => LeavesTheRest(t, T.AfterStream(t, c), c);
    case OfTool =>
      OnlyTools(t, c);
      LeavesTheRest(t, T.AfterTool(t, c), c);
    case OfPart => LeavesTheRest(t, T.AfterPart(t, c), c);
    case OfMessage => assert SpeaksOfAll(t, T.AfterMessage(t, c), c);
    case OfData => LeavesTheRest(t, T.After(t, c), c);
    case OfSummary =>
      SummaryReads(t, c.fields);
      LeavesTheRest(t, T.AfterSummary(t, c.fields), c);
  }

  lemma OnlyTools(t: T.Turn, c: Chunk)
    ensures var after := T.AfterTool(t, c); after == t.(tools := after.tools, parts := after.parts)
  {
  }

  /** The parts of a turn are those its chunks begin, in order, each saying what the stream says of it, whatever the stream. */
  lemma PartsSayWhatTheStreamSays(chunks: seq<Chunk>)
    ensures AllRead(T.TurnOf(chunks).parts, chunks, Beginnings(chunks))
  {
    TurnHolds(chunks);
  }
}
