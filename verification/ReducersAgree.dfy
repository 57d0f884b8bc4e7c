/** The two reducers give one message: the client's index maps and the server's scans agree. */
module ReducersAgree {
  import opened Wrappers
  import opened Chunks
  import T = TurnReducer
  import L = LogReducer

  // Which streams the protocol allows.

  /** What a stream has said of one call: whether its input is being streamed, whether an approval was asked
      for, whether it was given any input or any output, and whether its last input and its last output are
      ones both sides keep alike: an empty one after another is not. */
  datatype CallSeen = CallSeen(streaming: bool, approved: bool, touched: bool, settled: bool, answered: bool, told: bool)

  /** What a stream has said so far: its streamed parts, with the open ones marked, its calls, and whether it
      named its message. */
  datatype Seen = Seen(streams: map<StreamKey, bool>, calls: map<string, CallSeen>, named: bool)

  const Nothing := Seen(map[], map[], false)

  const NewCall := CallSeen(true, false, false, false, false, true)

  /** A summary both sides read the same way. */
  predicate PlainSummary(summary: string, status: Option<string>) {
    ReadableLine(summary) == Some(summary) && (status.Some? ==> KnownStatus(status.value).Some?)
  }

  predicate Open(s: Seen, key: StreamKey) { key in s.streams ==> s.streams[key] }

  predicate Allowed(s: Seen, c: Chunk) {
    match c
    case StreamDelta(key, _) => Open(s, key)
    case StreamEnd(key) => Open(s, key)
    case InputStart(call, _, dynamic) => call !in s.calls && !dynamic
    case InputDelta(call, _) => call in s.calls ==> s.calls[call].streaming && !s.calls[call].approved
    case InputAvailable(_, _, _, dynamic) => !dynamic
    case InputError(call, _, _, _, _) => call in s.calls && !s.calls[call].approved
    case OutputDenied(call) => call in s.calls ==> s.calls[call].approved
    case ToolSummary(Some(SummaryFields(Some(call), Some(summary), status)), transient) =>
      call in s.calls ==> !transient && PlainSummary(summary, status)
    case _ => true
  }

  function NextCall(held: CallSeen, c: Chunk): CallSeen {
    match c
    case InputDelta(_, _) => held.(touched := true, settled := false)
    case InputAvailable(_, _, input, _) =>
      held.(streaming := false, touched := held.touched || input != Null, settled := input != Null || !held.touched)
    case InputError(_, _, _, _, _) => held.(streaming := false, settled := false)
    case ApprovalRequest(_, _) => held.(approved := true)
    case OutputAvailable(_, output) =>
      held.(streaming := false, answered := held.answered || output != Null, told := output != Null || !held.answered)
    case OutputError(_, _) => held.(streaming := false)
    case _ => held
  }

  function Next(s: Seen, c: Chunk): Seen {
    match c
    case Start(messageId, _) => s.(named := s.named || messageId.Some?)
    case StreamStart(key) => s.(streams := s.streams[key := true])
    case StreamEnd(key) => if key in s.streams then s.(streams := s.streams[key := false]) else s
    case FinishStep => s.(streams := map key <- s.streams :: false)
    case InputStart(call, _, _) => if call in s.calls then s else s.(calls := s.calls[call := NewCall])
    case InputAvailable(call, _, _, _) =>
      s.(calls := s.calls[call := NextCall(if call in s.calls then s.calls[call] else NewCall, c)])
    case InputDelta(call, _) => if call in s.calls then s.(calls := s.calls[call := NextCall(s.calls[call], c)]) else s
    case InputError(call, _, _, _, _) => if call in s.calls then s.(calls := s.calls[call := NextCall(s.calls[call], c)]) else s
    case ApprovalRequest(call, _) => if call in s.calls then s.(calls := s.calls[call := NextCall(s.calls[call], c)]) else s
    case OutputDenied(call) => if call in s.calls then s.(calls := s.calls[call := NextCall(s.calls[call], c)]) else s
    case OutputAvailable(call, _) => if call in s.calls then s.(calls := s.calls[call := NextCall(s.calls[call], c)]) else s
    case OutputError(call, _) => if call in s.calls then s.(calls := s.calls[call := NextCall(s.calls[call], c)]) else s
    case _ => s
  }

  function SeenOf(chunks: seq<Chunk>): Seen {
    if chunks == [] then Nothing else Next(SeenOf(chunks[..|chunks| - 1]), chunks[|chunks| - 1])
  }

  /** Every chunk is one the protocol allows after those before it. */
  predicate WellFormed(chunks: seq<Chunk>) {
    chunks != [] ==> WellFormed(chunks[..|chunks| - 1]) && Allowed(SeenOf(chunks[..|chunks| - 1]), chunks[|chunks| - 1])
  }

  // What a reader sees of a part.

  function StateOf(phase: T.Phase): L.ToolState {
    match phase
    case InputStreaming(_) => L.IsStreaming
    case InputReady(_) => L.IsReady
    case ApprovalRequested(_, _) => L.IsAwaiting
    case Denied(_, _) => L.IsDenied
    case Failed(_, _, _) => L.IsFailed
    case Answered(_, _, _) => L.IsAnswered
  }

  function Approved(id: Option<string>): Option<L.Approval> {
    if id.None? then None else Some(L.Approval(id.value, Some(true)))
  }

  function ApprovalOf(phase: T.Phase): Option<L.Approval> {
    match phase
    case InputStreaming(_) => None
    case InputReady(_) => None
    case ApprovalRequested(_, id) => Some(L.Approval(id, None))
    case Denied(_, id) => Some(L.Approval(id, Some(false)))
    case Failed(_, _, id) => Approved(id)
    case Answered(_, _, id) => Approved(id)
  }

  function SummaryOf(line: Option<T.Line>): Option<(string, SummaryStatus)> {
    if line.None? then None else Some((line.value.summary, line.value.status))
  }

  /** The same call in the same state: its approval, its summary, and the error its state shows. */
  predicate ToolsAgree(t: T.Part, l: L.Part)
    requires t.Tool?
  {
    && l.Tool? && !l.dynamic && t.tool == l.tool && t.call == l.call
    && StateOf(t.phase) == l.state && ApprovalOf(t.phase) == l.approval && SummaryOf(t.line) == l.summary
    && (t.phase.Failed? ==> Some(t.phase.errorText) == l.errorText)
  }

  predicate Agree(t: T.Part, l: L.Part) {
    match t
    case Stream(kind, text, done) => l == L.Stream(kind, text, done)
    case StepStart => l == L.StepStart
    case File(url, mediaType, _) => l == L.File(url, mediaType)
    case Url(sourceId, url, title) => l == L.Url(sourceId, url, title)
    case Document(sourceId, mediaType, heading, filename) => l == L.Document(sourceId, mediaType, heading, filename)
    case DataPart(kind, id, data) => l == L.DataPart(kind, id, data)
    case Tool(_, _, _, _) => ToolsAgree(t, l)
  }

  predicate PartsAgree(t: seq<T.Part>, l: seq<L.Part>) {
    |t| == |l| && forall i | 0 <= i < |t| :: Agree(t[i], l[i])
  }

  /** Whole inputs are the same on both sides. */
  predicate InputsAgree(t: seq<T.Part>, l: seq<L.Part>, calls: map<string, CallSeen>)
    requires |t| == |l|
  {
    forall i | 0 <= i < |t| && t[i].Tool? && l[i].Tool? && t[i].call in calls && calls[t[i].call].settled ::
      t[i].phase.input == Some(l[i].input)
  }

  /** Answers are the same on both sides, but for an empty one that follows another. */
  predicate OutputsAgree(t: seq<T.Part>, l: seq<L.Part>, calls: map<string, CallSeen>)
    requires |t| == |l|
  {
    forall i | 0 <= i < |t| && t[i].Tool? && l[i].Tool? && t[i].call in calls && calls[t[i].call].told && t[i].phase.Answered? ::
      t[i].phase.output == l[i].output
  }

  /** Both reducers show the same message. */
  predicate SameMessage(t: T.Turn, l: L.Log, s: Seen) {
    && PartsAgree(t.parts, l.parts) && InputsAgree(t.parts, l.parts, s.calls) && OutputsAgree(t.parts, l.parts, s.calls)
    && t.metadata == l.metadata && t.finishReason == l.finishReason && (s.named ==> t.id == l.id)
  }

  // What ties the two states together.

  predicate StreamsTied(parts: seq<T.Part>, index: map<StreamKey, nat>, active: map<StreamKey, nat>, streams: map<StreamKey, bool>) {
    && index.Keys == streams.Keys
    && (forall key <- index :: index[key] < |parts| && parts[index[key]].Stream?)
    && (forall key <- streams :: key in active <==> streams[key])
    && (forall key <- active :: key in index && active[key] == index[key])
  }

  predicate DataTied(parts: seq<T.Part>, index: map<T.DataKey, nat>) {
    && (forall key <- index :: index[key] < |parts| && parts[index[key]].DataPart? &&
                               parts[index[key]].kind == key.kind && parts[index[key]].id == Some(key.id))
    && (forall i | 0 <= i < |parts| && parts[i].DataPart? && parts[i].id.Some? ::
          T.DataKey(parts[i].kind, parts[i].id.value) in index && index[T.DataKey(parts[i].kind, parts[i].id.value)] == i)
  }

  function Held<V>(m: map<string, V>, key: string): Option<V> { if key in m then Some(m[key]) else None }

  predicate CallTied(call: string, track: T.Track, t: T.Part, l: L.Part, approval: Option<string>,
                     partial: Option<L.PartialCall>, seen: CallSeen) {
    && t.Tool? && t.call == call && t.tool == track.tool && t.line == track.line && t.phase.input == track.input
    && l.Tool? && track.approval == approval && (seen.approved <==> approval.Some?)
    && (seen.streaming ==> partial.Some? && !partial.value.dynamic)
    && (seen.settled ==> track.input == Some(l.input)) && (seen.told && t.phase.Answered? ==> t.phase.output == l.output)
    && (!seen.touched ==> l.input == Null) && (!seen.answered ==> l.output == Null)
    && (!seen.approved ==> l.approval == None)
  }

  /** Each call's track stands for its part, on both sides. */
  predicate TracksTied(t: seq<T.Part>, tools: map<string, T.Track>, l: seq<L.Part>, partials: map<string, L.PartialCall>,
                       approvals: map<string, string>, calls: map<string, CallSeen>)
    requires |t| == |l| && tools.Keys == calls.Keys
  {
    forall call <- tools :: tools[call].index < |t| &&
      CallTied(call, tools[call], t[tools[call].index], l[tools[call].index], Held(approvals, call), Held(partials, call), calls[call])
  }

  /** And each call's part has its track. */
  predicate CallsTracked(t: seq<T.Part>, tools: map<string, T.Track>) {
    forall i | 0 <= i < |t| && t[i].Tool? :: t[i].call in tools && tools[t[i].call].index == i
  }

  predicate ToolsTied(t: seq<T.Part>, tools: map<string, T.Track>, l: seq<L.Part>, partials: map<string, L.PartialCall>,
                      approvals: map<string, string>, calls: map<string, CallSeen>)
    requires |t| == |l|
  {
    && tools.Keys == calls.Keys && approvals.Keys <= calls.Keys && partials.Keys <= calls.Keys
    && TracksTied(t, tools, l, partials, approvals, calls)
    && CallsTracked(t, tools)
  }

  predicate Tied(t: T.Turn, l: L.Log, s: Seen) {
    && PartsAgree(t.parts, l.parts)
    && t.metadata == l.metadata && t.finishReason == l.finishReason && (s.named ==> t.id == l.id)
    && StreamsTied(t.parts, t.streams, l.active, s.streams)
    && DataTied(t.parts, t.data)
    && ToolsTied(t.parts, t.tools, l.parts, l.partials, l.approvals, s.calls)
  }

  // Where the scans end up.

  lemma InvocationFound(t: T.Turn, l: L.Log, s: Seen, call: string)
    requires Tied(t, l, s)
    ensures L.Invocation(l.parts, call) == if call in t.tools then t.tools[call].index else |l.parts|
    ensures L.ToolPartById(l.parts, call, false) == L.Invocation(l.parts, call)
    ensures L.ToolPartById(l.parts, call, true) == |l.parts|
  {
    forall i | 0 <= i < |l.parts| && L.OfCall(l.parts[i], call) ensures call in t.tools && i == t.tools[call].index && !l.parts[i].dynamic {
      assert Agree(t.parts[i], l.parts[i]);
    }
    if call in t.tools {
      var at := t.tools[call].index;
      assert Agree(t.parts[at], l.parts[at]) && L.OfFlavour(l.parts[at], call, false);
    }
  }

  lemma DataPartFound(t: T.Turn, l: L.Log, s: Seen, kind: string, id: string)
    requires Tied(t, l, s)
    ensures var key := T.DataKey(kind, id);
            L.DataPartById(l.parts, kind, id) == if key in t.data then t.data[key] else |l.parts|
  {
    var key := T.DataKey(kind, id);
    forall i | 0 <= i < |l.parts| && L.HasData(l.parts[i], kind, id) ensures key in t.data && i == t.data[key] {
      assert Agree(t.parts[i], l.parts[i]);
    }
    if key in t.data {
      assert Agree(t.parts[t.data[key]], l.parts[t.data[key]]);
    }
  }

  // Parts no index points at come and go freely.

  /** `more` has the parts of `t` where `kept` holds, and after them none of that kind. */
  predicate Extends(t: seq<T.Part>, more: seq<T.Part>, kept: T.Part -> bool) {
    && |t| <= |more|
    && (forall i | 0 <= i < |t| && (kept(t[i]) || kept(more[i])) :: more[i] == t[i])
    && (forall i | |t| <= i < |more| :: !kept(more[i]))
  }

  lemma ToolsStay(t: T.Turn, l: L.Log, s: Seen, parts: seq<T.Part>, lparts: seq<L.Part>)
    requires Tied(t, l, s) && |parts| == |lparts| && Extends(t.parts, parts, (p: T.Part) => p.Tool?)
    requires forall i | 0 <= i < |t.parts| && t.parts[i].Tool? :: lparts[i] == l.parts[i]
    ensures ToolsTied(parts, t.tools, lparts, l.partials, l.approvals, s.calls)
  {
  }

  lemma StreamsStay(t: T.Turn, l: L.Log, s: Seen, parts: seq<T.Part>)
    requires Tied(t, l, s) && |t.parts| <= |parts|
    requires forall i | 0 <= i < |t.parts| && t.parts[i].Stream? :: parts[i].Stream?
    ensures StreamsTied(parts, t.streams, l.active, s.streams)
  {
  }

  lemma DataStays(t: T.Turn, l: L.Log, s: Seen, parts: seq<T.Part>)
    requires Tied(t, l, s) && Extends(t.parts, parts, (p: T.Part) => p.DataPart? && p.id.Some?)
    ensures DataTied(parts, t.data)
  {
  }

  /** A part of no kind an index points at. */
  predicate Plain(p: T.Part) { !p.Tool? && (p.DataPart? ==> p.id.None?) }

  lemma AppendedPlain(t: T.Turn, l: L.Log, s: Seen, p: T.Part, q: L.Part)
    requires Tied(t, l, s) && Plain(p) && Agree(p, q)
    ensures Tied(t.(parts := t.parts + [p]), l.(parts := l.parts + [q]), s)
  {
    ToolsStay(t, l, s, t.parts + [p], l.parts + [q]);
    StreamsStay(t, l, s, t.parts + [p]);
    DataStays(t, l, s, t.parts + [p]);
  }

  lemma ReplacedPlain(t: T.Turn, l: L.Log, s: Seen, at: nat, p: T.Part, q: L.Part)
    requires Tied(t, l, s) && at < |t.parts| && !t.parts[at].Tool? && !p.Tool? && Agree(p, q)
    requires t.parts[at].Stream? ==> p.Stream?
    requires t.parts[at].DataPart? || p.DataPart? ==>
               t.parts[at].DataPart? && p.DataPart? && p.kind == t.parts[at].kind && p.id == t.parts[at].id
    ensures Tied(t.(parts := t.parts[at := p]), l.(parts := l.parts[at := q]), s)
  {
    ToolsStay(t, l, s, t.parts[at := p], l.parts[at := q]);
    StreamsStay(t, l, s, t.parts[at := p]);
  }

  // One chunk at a time.

  lemma StreamAt(t: T.Turn, l: L.Log, s: Seen, key: StreamKey)
    requires Tied(t, l, s) && Open(s, key) && key in t.streams
    ensures var at := t.streams[key];
            at < |t.parts| && key in s.streams && t.parts[at].Stream? && key in l.active && l.active[key] == at &&
            l.parts[at] == L.Stream(t.parts[at].stream, t.parts[at].text, t.parts[at].done)
  {
    assert Agree(t.parts[t.streams[key]], l.parts[t.streams[key]]);
  }

  lemma StartedStreams(parts: seq<T.Part>, index: map<StreamKey, nat>, active: map<StreamKey, nat>, streams: map<StreamKey, bool>,
                       key: StreamKey, at: nat)
    requires StreamsTied(parts, index, active, streams) && at < |parts| && parts[at].Stream?
    ensures StreamsTied(parts, index[key := at], active[key := at], streams[key := true])
  {
  }

  lemma StartedTied(t: T.Turn, l: L.Log, s: Seen, key: StreamKey, at: nat)
    requires Tied(t, l, s) && at < |t.parts| && t.parts[at].Stream?
    ensures Tied(t.(streams := t.streams[key := at]), l.(active := l.active[key := at]), s.(streams := s.streams[key := true]))
  {
    StartedStreams(t.parts, t.streams, l.active, s.streams, key, at);
  }

  lemma StreamStartStep(t: T.Turn, l: L.Log, s: Seen, key: StreamKey)
    requires Tied(t, l, s)
    ensures Tied(T.AfterStream(t, StreamStart(key)), L.AfterStream(l, StreamStart(key)), Next(s, StreamStart(key)))
  {
    var p, q := T.Stream(key.kind, "", false), L.Stream(key.kind, "", false);
    AppendedPlain(t, l, s, p, q);
    StartedTied(t.(parts := t.parts + [p]), l.(parts := l.parts + [q]), s, key, |t.parts|);
  }

  lemma GrownStreams(t: T.Turn, l: L.Log, key: StreamKey, at: nat, delta: string)
    requires key in t.streams && t.streams[key] == at < |t.parts| && t.parts[at].Stream?
    requires key in l.active && l.active[key] == at < |l.parts| && l.parts[at].Stream?
    ensures T.AfterStream(t, StreamDelta(key, delta)) == t.(parts := t.parts[at := t.parts[at].(text := t.parts[at].text + delta)])
    ensures L.AfterStream(l, StreamDelta(key, delta)) == l.(parts := l.parts[at := l.parts[at].(text := l.parts[at].text + delta)])
  {
  }

  lemma StreamDeltaStep(t: T.Turn, l: L.Log, s: Seen, key: StreamKey, delta: string)
    requires Tied(t, l, s) && Open(s, key)
    ensures Tied(T.AfterStream(t, StreamDelta(key, delta)), L.AfterStream(l, StreamDelta(key, delta)), s)
  {
    if key in t.streams {
      StreamAt(t, l, s, key);
      var at := t.streams[key];
      var p := t.parts[at];
      ReplacedPlain(t, l, s, at, p.(text := p.text + delta), L.Stream(p.stream, p.text + delta, p.done));
      GrownStreams(t, l, key, at, delta);
    }
  }

  lemma StreamEndStep(t: T.Turn, l: L.Log, s: Seen, key: StreamKey)
    requires Tied(t, l, s) && Open(s, key)
    ensures Tied(T.AfterStream(t, StreamEnd(key)), L.AfterStream(l, StreamEnd(key)), Next(s, StreamEnd(key)))
  {
    if key in t.streams {
      StreamAt(t, l, s, key);
      var at := t.streams[key];
      var p, q := t.parts[at].(done := true), L.Stream(t.parts[at].stream, t.parts[at].text, true);
      ReplacedPlain(t, l, s, at, p, q);
      ClosedTied(t.(parts := t.parts[at := p]), l.(parts := l.parts[at := q]), s, key);
      EndedStreams(t, l, key, at);
    }
  }

  lemma EndedStreams(t: T.Turn, l: L.Log, key: StreamKey, at: nat)
    requires key in t.streams && t.streams[key] == at < |t.parts| && t.parts[at].Stream?
    requires key in l.active && l.active[key] == at < |l.parts| && l.parts[at].Stream?
    ensures T.AfterStream(t, StreamEnd(key)) == t.(parts := t.parts[at := t.parts[at].(done := true)])
    ensures L.AfterStream(l, StreamEnd(key)) ==
            l.(parts := l.parts[at := l.parts[at].(done := true)], active := l.active - {key})
  {
  }

  lemma ClosedTied(t: T.Turn, l: L.Log, s: Seen, key: StreamKey)
    requires Tied(t, l, s) && key in s.streams
    ensures Tied(t, l.(active := l.active - {key}), s.(streams := s.streams[key := false]))
  {
  }

  lemma DataAppended(t: T.Turn, l: L.Log, s: Seen, kind: string, id: string, data: Value)
    requires Tied(t, l, s) && T.DataKey(kind, id) !in t.data
    ensures Tied(t.(data := t.data[T.DataKey(kind, id) := |t.parts|], parts := t.parts + [T.DataPart(kind, Some(id), data)]),
                 l.(parts := l.parts + [L.DataPart(kind, Some(id), data)]), s)
  {
    var p, q := T.DataPart(kind, Some(id), data), L.DataPart(kind, Some(id), data);
    ToolsStay(t, l, s, t.parts + [p], l.parts + [q]);
    StreamsStay(t, l, s, t.parts + [p]);
    DataGrows(t.parts, t.data, kind, id, data);
  }

  lemma DataGrows(parts: seq<T.Part>, index: map<T.DataKey, nat>, kind: string, id: string, data: Value)
    requires DataTied(parts, index) && T.DataKey(kind, id) !in index
    ensures DataTied(parts + [T.DataPart(kind, Some(id), data)], index[T.DataKey(kind, id) := |parts|])
  {
  }

  lemma DataStep(t: T.Turn, l: L.Log, s: Seen, kind: string, id: Option<string>, data: Value)
    requires Tied(t, l, s)
    ensures Tied(T.AfterData(t, kind, id, data), L.AfterData(l, kind, id, data), s)
  {
    if id.None? {
      AppendedPlain(t, l, s, T.DataPart(kind, id, data), L.DataPart(kind, id, data));
    } else {
      IdentifiedStep(t, l, s, kind, id.value, data);
    }
  }

  lemma IdentifiedStep(t: T.Turn, l: L.Log, s: Seen, kind: string, id: string, data: Value)
    requires Tied(t, l, s)
    ensures Tied(T.AfterData(t, kind, Some(id), data), L.AfterData(l, kind, Some(id), data), s)
  {
    var key := T.DataKey(kind, id);
    DataPartFound(t, l, s, kind, id);
    if key in t.data {
      var at := t.data[key];
      assert Agree(t.parts[at], l.parts[at]);
      ReplacedPlain(t, l, s, at, T.DataPart(kind, Some(id), data), L.DataPart(kind, Some(id), data));
    } else {
      DataAppended(t, l, s, kind, id, data);
    }
  }

  /** At most `call`'s entry differs. */
  predicate Changes<V(==)>(before: map<string, V>, after: map<string, V>, call: string) {
    after == before || (call in after && after == before[call := after[call]])
  }

  lemma OthersStayTied(t: T.Turn, l: L.Log, s: Seen, call: string, approvals: map<string, string>,
                       partials: map<string, L.PartialCall>, other: string)
    requires Tied(t, l, s) && other in t.tools && other != call
    requires Changes(l.approvals, approvals, call) && Changes(l.partials, partials, call)
    ensures var at := t.tools[other].index;
            at < |t.parts| && t.parts[at].Tool? && t.parts[at].call == other &&
            CallTied(other, t.tools[other], t.parts[at], l.parts[at], Held(approvals, other), Held(partials, other), s.calls[other])
  {
    assert Held(approvals, other) == Held(l.approvals, other) && Held(partials, other) == Held(l.partials, other);
  }

  lemma ChangedTracksTied(t: T.Turn, l: L.Log, s: Seen, call: string, track: T.Track, p: T.Part, q: L.Part,
                          approvals: map<string, string>, partials: map<string, L.PartialCall>, seen: CallSeen)
    requires Tied(t, l, s) && call in t.tools && track.index == t.tools[call].index
    requires Changes(l.approvals, approvals, call) && Changes(l.partials, partials, call)
    requires CallTied(call, track, p, q, Held(approvals, call), Held(partials, call), seen)
    ensures TracksTied(t.parts[track.index := p], t.tools[call := track], l.parts[track.index := q], partials, approvals,
                       s.calls[call := seen])
  {
    forall other | other in t.tools && other != call
      ensures t.tools[other].index != track.index && t.tools[other].index < |t.parts| &&
              CallTied(other, t.tools[other], t.parts[t.tools[other].index], l.parts[t.tools[other].index],
                       Held(approvals, other), Held(partials, other), s.calls[other])
    {
      OthersStayTied(t, l, s, call, approvals, partials, other);
    }
  }

  lemma ChangedCallsTracked(parts: seq<T.Part>, tools: map<string, T.Track>, call: string, track: T.Track, p: T.Part)
    requires CallsTracked(parts, tools) && call in tools && track.index == tools[call].index < |parts|
    requires p.Tool? && p.call == call
    ensures CallsTracked(parts[track.index := p], tools[call := track])
  {
  }

  lemma ChangedToolsTied(t: T.Turn, l: L.Log, s: Seen, call: string, track: T.Track, p: T.Part, q: L.Part,
                         approvals: map<string, string>, partials: map<string, L.PartialCall>, seen: CallSeen)
    requires Tied(t, l, s) && call in t.tools && track.index == t.tools[call].index
    requires Changes(l.approvals, approvals, call) && Changes(l.partials, partials, call)
    requires CallTied(call, track, p, q, Held(approvals, call), Held(partials, call), seen)
    ensures ToolsTied(t.parts[track.index := p], t.tools[call := track], l.parts[track.index := q], partials, approvals,
                      s.calls[call := seen])
  {
    ChangedTracksTied(t, l, s, call, track, p, q, approvals, partials, seen);
    ChangedCallsTracked(t.parts, t.tools, call, track, p);
  }

  lemma ChangedOthersTied(t: T.Turn, l: L.Log, s: Seen, at: nat, p: T.Part, q: L.Part)
    requires Tied(t, l, s) && at < |t.parts| && t.parts[at].Tool? && p.Tool? && ToolsAgree(p, q)
    ensures PartsAgree(t.parts[at := p], l.parts[at := q])
    ensures StreamsTied(t.parts[at := p], t.streams, l.active, s.streams) && DataTied(t.parts[at := p], t.data)
  {
    StreamsStay(t, l, s, t.parts[at := p]);
    DataStays(t, l, s, t.parts[at := p]);
  }

  /** One call's part, track and record change together; nothing else does. */
  lemma CallMoves(t: T.Turn, l: L.Log, s: Seen, call: string, track: T.Track, p: T.Part, q: L.Part,
                  approvals: map<string, string>, partials: map<string, L.PartialCall>, seen: CallSeen)
    requires Tied(t, l, s) && call in t.tools && track.index == t.tools[call].index < |t.parts|
    requires Changes(l.approvals, approvals, call) && Changes(l.partials, partials, call)
    requires p.Tool? && ToolsAgree(p, q) && CallTied(call, track, p, q, Held(approvals, call), Held(partials, call), seen)
    ensures Tied(t.(parts := t.parts[track.index := p], tools := t.tools[call := track]),
                 l.(parts := l.parts[track.index := q], approvals := approvals, partials := partials),
                 s.(calls := s.calls[call := seen]))
  {
    assert t.parts[track.index].Tool?;
    ChangedOthersTied(t, l, s, track.index, p, q);
    ChangedToolsTied(t, l, s, call, track, p, q, approvals, partials, seen);
  }

  /** The same, where what the stream has said of the call stays as it was. */
  lemma CallMovesOn(t: T.Turn, l: L.Log, s: Seen, call: string, track: T.Track, p: T.Part, q: L.Part)
    requires Tied(t, l, s) && call in t.tools && track.index == t.tools[call].index < |t.parts| && call in s.calls
    requires p.Tool? && ToolsAgree(p, q)
    requires CallTied(call, track, p, q, Held(l.approvals, call), Held(l.partials, call), s.calls[call])
    ensures Tied(t.(parts := t.parts[track.index := p], tools := t.tools[call := track]), l.(parts := l.parts[track.index := q]), s)
  {
    CallMoves(t, l, s, call, track, p, q, l.approvals, l.partials, s.calls[call]);
    SameCalls(s, call);
  }

  lemma SameCalls(s: Seen, call: string)
    requires call in s.calls
    ensures s.(calls := s.calls[call := s.calls[call]]) == s
  {
    assert s.calls[call := s.calls[call]] == s.calls;
  }

  /** A call's track updated and its part written, on the one side, with its part replaced on the other. */
  lemma WroteMoves(t: T.Turn, l: L.Log, s: Seen, call: string, track: T.Track, phase: T.Phase, q: L.Part, seen: CallSeen)
    requires Tied(t, l, s) && call in t.tools && track.index == t.tools[call].index < |t.parts|
    requires var p := T.PartOf(track, call, phase);
             ToolsAgree(p, q) && CallTied(call, track, p, q, Held(l.approvals, call), Held(l.partials, call), seen)
    ensures Tied(T.Wrote(t, call, track, phase), l.(parts := l.parts[track.index := q]), s.(calls := s.calls[call := seen]))
  {
    CallMoves(t, l, s, call, track, T.PartOf(track, call, phase), q, l.approvals, l.partials, seen);
  }

  lemma OpenedTracksTied(t: T.Turn, l: L.Log, s: Seen, call: string, track: T.Track, p: T.Part, q: L.Part,
                         partials: map<string, L.PartialCall>, seen: CallSeen)
    requires Tied(t, l, s) && call !in t.tools && track.index == |t.parts|
    requires Changes(l.partials, partials, call)
    requires CallTied(call, track, p, q, None, Held(partials, call), seen)
    ensures TracksTied(t.parts + [p], t.tools[call := track], l.parts + [q], partials, l.approvals, s.calls[call := seen])
  {
    forall other | other in t.tools
      ensures t.tools[other].index < |t.parts| &&
              CallTied(other, t.tools[other], t.parts[t.tools[other].index], l.parts[t.tools[other].index],
                       Held(l.approvals, other), Held(partials, other), s.calls[other])
    {
      OthersStayTied(t, l, s, call, l.approvals, partials, other);
    }
  }

  lemma OpenedCallsTracked(parts: seq<T.Part>, tools: map<string, T.Track>, call: string, track: T.Track, p: T.Part)
    requires CallsTracked(parts, tools) && call !in tools && track.index == |parts| && p.Tool? && p.call == call
    ensures CallsTracked(parts + [p], tools[call := track])
  {
  }

  lemma OpenedToolsTied(t: T.Turn, l: L.Log, s: Seen, call: string, track: T.Track, p: T.Part, q: L.Part,
                        partials: map<string, L.PartialCall>, seen: CallSeen)
    requires Tied(t, l, s) && call !in t.tools && track.index == |t.parts|
    requires Changes(l.partials, partials, call)
    requires CallTied(call, track, p, q, None, Held(partials, call), seen)
    ensures ToolsTied(t.parts + [p], t.tools[call := track], l.parts + [q], partials, l.approvals, s.calls[call := seen])
  {
    OpenedTracksTied(t, l, s, call, track, p, q, partials, seen);
    OpenedCallsTracked(t.parts, t.tools, call, track, p);
  }

  lemma CallOpens(t: T.Turn, l: L.Log, s: Seen, call: string, track: T.Track, phase: T.Phase, q: L.Part,
                  partials: map<string, L.PartialCall>, seen: CallSeen)
    requires Tied(t, l, s) && call !in t.tools && track.index == |t.parts|
    requires Changes(l.partials, partials, call)
    requires var p := T.PartOf(track, call, phase);
             ToolsAgree(p, q) && CallTied(call, track, p, q, None, Held(partials, call), seen)
    ensures Tied(t.(tools := t.tools[call := track], parts := t.parts + [T.PartOf(track, call, phase)]),
                 l.(parts := l.parts + [q], partials := partials), s.(calls := s.calls[call := seen]))
  {
    var p := T.PartOf(track, call, phase);
    StreamsStay(t, l, s, t.parts + [p]);
    DataStays(t, l, s, t.parts + [p]);
    OpenedToolsTied(t, l, s, call, track, p, q, partials, seen);
  }

  lemma StartedStep(t: T.Turn, l: L.Log, s: Seen, call: string, tool: string)
    requires Tied(t, l, s) && call !in t.tools
    ensures Tied(T.AfterStart(t, call, tool), L.AfterInputStart(l, call, tool, false), s.(calls := s.calls[call := NewCall]))
  {
    InvocationFound(t, l, s, call);
    CallOpens(t, l, s, call, T.Track(|t.parts|, tool, None, "", None, None), T.InputStreaming(None),
              L.Built(L.ToolUpdate(call, tool, L.IsStreaming, false, Null, Null, Null, None)),
              l.partials[call := L.PartialCall("", tool, false)], NewCall);
  }

  lemma OpenedReady(t: T.Turn, call: string, tool: string, input: Value)
    requires call !in t.tools
    ensures var ready := T.Track(|t.parts|, tool, Some(input), "", None, None);
            T.AfterInput(T.AfterStart(t, call, tool), call, input) ==
            t.(tools := t.tools[call := ready], parts := t.parts + [T.PartOf(ready, call, T.InputReady(Some(input)))])
  {
    var ready := T.Track(|t.parts|, tool, Some(input), "", None, None);
    var begun := T.Opened(t, call, tool);
    assert begun.parts[|t.parts| := T.PartOf(ready, call, T.InputReady(Some(input)))] ==
           t.parts + [T.PartOf(ready, call, T.InputReady(Some(input)))];
    assert begun.tools[call := ready] == t.tools[call := ready];
  }

  lemma OpenedReadyStep(t: T.Turn, l: L.Log, s: Seen, call: string, tool: string, input: Value)
    requires Tied(t, l, s) && call !in t.tools
    ensures Tied(T.AfterInput(T.AfterStart(t, call, tool), call, input), L.AfterInput(l, call, tool, input, false),
                 s.(calls := s.calls[call := NextCall(NewCall, InputAvailable(call, tool, input, false))]))
  {
    InvocationFound(t, l, s, call);
    OpenedReady(t, call, tool, input);
    CallOpens(t, l, s, call, T.Track(|t.parts|, tool, Some(input), "", None, None), T.InputReady(Some(input)),
              L.Built(L.ToolUpdate(call, tool, L.IsReady, false, input, Null, Null, None)), l.partials,
              NextCall(NewCall, InputAvailable(call, tool, input, false)));
  }

  /** Where both of the server's scans find a call. */
  predicate StandsAt(l: L.Log, call: string, at: nat) {
    L.Invocation(l.parts, call) == L.ToolPartById(l.parts, call, false) == at < |l.parts| && !l.parts[at].dynamic
  }

  lemma TiedAt(t: T.Turn, l: L.Log, s: Seen, call: string)
    requires Tied(t, l, s) && call in t.tools
    ensures var at := t.tools[call].index;
            at < |t.parts| && t.parts[at].Tool? && ToolsAgree(t.parts[at], l.parts[at]) && call in s.calls &&
            CallTied(call, t.tools[call], t.parts[at], l.parts[at], Held(l.approvals, call), Held(l.partials, call), s.calls[call])
    ensures StandsAt(l, call, t.tools[call].index)
  {
    InvocationFound(t, l, s, call);
    assert Agree(t.parts[t.tools[call].index], l.parts[t.tools[call].index]);
  }

  /** Patching an open call's part and then settling its approval touches that part alone. */
  lemma SettledAfter(l: L.Log, at: nat, u: L.ToolUpdate, approved: Option<bool>)
    requires L.Invocation(l.parts, u.call) == L.ToolPartById(l.parts, u.call, u.dynamic) == at < |l.parts|
    ensures var p := L.Patched(l.parts[at], u);
            L.Settled(L.Upserted(l, u), u.call, approved) ==
            l.(parts := l.parts[at := if u.call !in l.approvals then p
                                      else p.(approval := if approved.None? then None else Some(L.Approval(l.approvals[u.call], approved)))])
  {
    InvocationAt(l.parts, L.Patched(l.parts[at], u), u.call);
  }

  lemma DeniedLog(l: L.Log, call: string, at: nat)
    requires StandsAt(l, call, at) && call in l.approvals
    ensures L.AfterDenial(l, call) ==
            l.(parts := l.parts[at := l.parts[at].(state := L.IsDenied, approval := Some(L.Approval(l.approvals[call], Some(false))))])
  {
    var p := l.parts[at].(state := L.IsDenied);
    var q := p.(approval := Some(L.Approval(l.approvals[call], Some(false))));
    InvocationAt(l.parts, p, call);
    assert l.parts[at := p][at := q] == l.parts[at := q];
  }

  lemma AvailableLog(l: L.Log, call: string, at: nat, tool: string, input: Value)
    requires StandsAt(l, call, at) && (call !in l.approvals ==> l.parts[at].approval == None)
    ensures L.AfterInput(l, call, tool, input, false) ==
            l.(parts := l.parts[at := l.parts[at].(state := L.IsReady, input := L.Kept(l.parts[at].input, input), approval := None)])
  {
    SettledAfter(l, at, L.ToolUpdate(call, tool, L.IsReady, false, input, Null, Null, None), None);
  }

  /** The approval a call's answer or failure leaves: granted, where one was asked for. */
  predicate ApprovalHeld(l: L.Log, call: string, at: nat, approval: Option<string>)
    requires StandsAt(l, call, at)
  {
    Held(l.approvals, call) == approval && (approval.None? ==> l.parts[at].approval == None)
  }

  lemma AnsweredLog(l: L.Log, call: string, at: nat, output: Value, approval: Option<string>)
    requires StandsAt(l, call, at) && ApprovalHeld(l, call, at, approval)
    ensures L.AfterOutput(l, call, output) ==
            l.(parts := l.parts[at := l.parts[at].(state := L.IsAnswered, output := L.Kept(l.parts[at].output, output), approval := Approved(approval))])
  {
    var q := l.parts[at];
    SettledAfter(l, at, L.ToolUpdate(call, q.tool, L.IsAnswered, q.dynamic, q.input, output, Null, None), Some(true));
  }

  lemma FailedLog(l: L.Log, call: string, at: nat, errorText: string, approval: Option<string>)
    requires StandsAt(l, call, at) && ApprovalHeld(l, call, at, approval)
    ensures L.AfterOutputError(l, call, errorText) ==
            l.(parts := l.parts[at := l.parts[at].(state := L.IsFailed, errorText := Some(errorText), approval := Approved(approval))])
  {
    var q := l.parts[at];
    SettledAfter(l, at, L.ToolUpdate(call, q.tool, L.IsFailed, q.dynamic, q.input, Null, q.rawInput, Some(errorText)), Some(true));
  }

  lemma InputErrorLog(l: L.Log, call: string, at: nat, tool: string, input: Value, errorText: string, dynamic: bool)
    requires StandsAt(l, call, at)
    ensures L.AfterInputError(l, call, tool, input, errorText, dynamic) ==
            l.(parts := l.parts[at := l.parts[at].(state := L.IsFailed, rawInput := L.Kept(l.parts[at].rawInput, input), errorText := Some(errorText))])
  {
  }

  lemma DeltaLog(l: L.Log, call: string, at: nat, delta: string, parse: string -> Value)
    requires StandsAt(l, call, at) && call in l.partials && !l.partials[call].dynamic
    ensures var more := l.partials[call].(text := l.partials[call].text + delta);
            L.AfterInputDelta(l, call, delta, parse) ==
            l.(partials := l.partials[call := more],
               parts := l.parts[at := l.parts[at].(state := L.IsStreaming, input := L.Kept(l.parts[at].input, parse(more.text)))])
  {
  }

  /** Replacing the part a scan finds by another of its call leaves the scan where it was. */
  lemma InvocationAt(parts: seq<L.Part>, p: L.Part, call: string)
    requires L.Invocation(parts, call) < |parts| && L.OfCall(p, call)
    ensures L.Invocation(parts[L.Invocation(parts, call) := p], call) == L.Invocation(parts, call)
  {
    var at := L.Invocation(parts, call);
    var after := parts[at := p];
    assert L.OfCall(after[at], call);
    forall i | 0 <= i < at ensures !L.OfCall(after[i], call) { assert after[i] == parts[i]; }
  }

  lemma DeltaStep(t: T.Turn, l: L.Log, s: Seen, call: string, delta: string, parse: string -> Value)
    requires Tied(t, l, s) && call in t.tools && call in s.calls && s.calls[call].streaming && !s.calls[call].approved
    ensures Tied(T.AfterInputDelta(t, call, delta), L.AfterInputDelta(l, call, delta, parse),
                 s.(calls := s.calls[call := s.calls[call].(touched := true, settled := false)]))
  {
    var at, track := t.tools[call].index, t.tools[call];
    TiedAt(t, l, s, call);
    DeltaLog(l, call, at, delta, parse);
    var more, text := l.partials[call].(text := l.partials[call].text + delta), Json(track.inputText + delta);
    var now := track.(inputText := track.inputText + delta, input := Some(text));
    CallMoves(t, l, s, call, now, T.PartOf(now, call, T.InputStreaming(Some(text))),
              l.parts[at].(state := L.IsStreaming, input := L.Kept(l.parts[at].input, parse(more.text))),
              l.approvals, l.partials[call := more], s.calls[call].(touched := true, settled := false));
  }

  /** The two parts of one call agree, and are tied to its track. */
  predicate CallAgrees(call: string, track: T.Track, p: T.Part, q: L.Part, approval: Option<string>,
                       partial: Option<L.PartialCall>, seen: CallSeen) {
    p.Tool? && ToolsAgree(p, q) && CallTied(call, track, p, q, approval, partial, seen)
  }

  lemma AvailableAgrees(call: string, track: T.Track, p: T.Part, q: L.Part, approval: Option<string>,
                        partial: Option<L.PartialCall>, seen: CallSeen, c: Chunk)
    requires CallAgrees(call, track, p, q, approval, partial, seen) && c.InputAvailable?
    ensures var now := track.(input := Some(c.input));
            CallAgrees(call, now, T.PartOf(now, call, T.InputReady(Some(c.input))),
                       q.(state := L.IsReady, input := L.Kept(q.input, c.input), approval := None), approval, partial, NextCall(seen, c))
  {
  }

  lemma AvailableStep(t: T.Turn, l: L.Log, s: Seen, call: string, tool: string, input: Value)
    requires Tied(t, l, s) && call in t.tools && call in s.calls
    ensures Tied(T.AfterInput(t, call, input), L.AfterInput(l, call, tool, input, false),
                 s.(calls := s.calls[call := NextCall(s.calls[call], InputAvailable(call, tool, input, false))]))
  {
    var at, track := t.tools[call].index, t.tools[call];
    TiedAt(t, l, s, call);
    AvailableLog(l, call, at, tool, input);
    AvailableAgrees(call, track, t.parts[at], l.parts[at], Held(l.approvals, call), Held(l.partials, call), s.calls[call],
                    InputAvailable(call, tool, input, false));
    WroteMoves(t, l, s, call, track.(input := Some(input)), T.InputReady(Some(input)),
               l.parts[at].(state := L.IsReady, input := L.Kept(l.parts[at].input, input), approval := None),
               NextCall(s.calls[call], InputAvailable(call, tool, input, false)));
  }

  lemma InputErrorStep(t: T.Turn, l: L.Log, s: Seen, call: string, tool: string, input: Value, errorText: string, dynamic: bool)
    requires Tied(t, l, s) && call in t.tools && call in s.calls && !s.calls[call].approved
    ensures Tied(T.AfterInputError(t, call, errorText), L.AfterInputError(l, call, tool, input, errorText, dynamic),
                 s.(calls := s.calls[call := s.calls[call].(streaming := false, settled := false)]))
  {
    var at := t.tools[call].index;
    TiedAt(t, l, s, call);
    InputErrorLog(l, call, at, tool, input, errorText, dynamic);
    WroteMoves(t, l, s, call, t.tools[call].(input := None), T.Failed(None, errorText, t.tools[call].approval),
               l.parts[at].(state := L.IsFailed, rawInput := L.Kept(l.parts[at].rawInput, input), errorText := Some(errorText)),
               s.calls[call].(streaming := false, settled := false));
  }

  lemma ApprovalAgrees(call: string, track: T.Track, p: T.Part, q: L.Part, approval: Option<string>,
                       partial: Option<L.PartialCall>, seen: CallSeen, approvalId: string)
    requires CallAgrees(call, track, p, q, approval, partial, seen)
    ensures var now := track.(approval := Some(approvalId));
            CallAgrees(call, now, T.PartOf(now, call, T.ApprovalRequested(track.input, approvalId)),
                       q.(state := L.IsAwaiting, approval := Some(L.Approval(approvalId, None))), Some(approvalId), partial,
                       seen.(approved := true))
  {
  }

  lemma ApprovalStep(t: T.Turn, l: L.Log, s: Seen, call: string, approvalId: string)
    requires Tied(t, l, s) && call in t.tools && call in s.calls
    ensures Tied(T.AfterApprovalRequest(t, call, approvalId), L.AfterApprovalRequest(l, call, approvalId),
                 s.(calls := s.calls[call := s.calls[call].(approved := true)]))
  {
    var at, track := t.tools[call].index, t.tools[call];
    TiedAt(t, l, s, call);
    var now := track.(approval := Some(approvalId));
    ApprovalAgrees(call, track, t.parts[at], l.parts[at], Held(l.approvals, call), Held(l.partials, call), s.calls[call], approvalId);
    CallMoves(t, l, s, call, now, T.PartOf(now, call, T.ApprovalRequested(track.input, approvalId)),
              l.parts[at].(state := L.IsAwaiting, approval := Some(L.Approval(approvalId, None))),
              l.approvals[call := approvalId], l.partials, s.calls[call].(approved := true));
  }

  lemma DeniedAgrees(call: string, track: T.Track, p: T.Part, q: L.Part, approval: Option<string>,
                     partial: Option<L.PartialCall>, seen: CallSeen)
    requires CallAgrees(call, track, p, q, approval, partial, seen) && track.approval.Some?
    ensures CallAgrees(call, track, T.PartOf(track, call, T.Denied(track.input, track.approval.value)),
                       q.(state := L.IsDenied, approval := Some(L.Approval(track.approval.value, Some(false)))), approval, partial, seen)
  {
  }

  lemma DeniedStep(t: T.Turn, l: L.Log, s: Seen, call: string)
    requires Tied(t, l, s) && call in t.tools && call in s.calls && s.calls[call].approved
    ensures Tied(T.AfterDenial(t, call), L.AfterDenial(l, call), s)
  {
    var at, track := t.tools[call].index, t.tools[call];
    TiedAt(t, l, s, call);
    DeniedLog(l, call, at);
    DeniedAgrees(call, track, t.parts[at], l.parts[at], Held(l.approvals, call), Held(l.partials, call), s.calls[call]);
    CallMovesOn(t, l, s, call, track, T.PartOf(track, call, T.Denied(track.input, track.approval.value)),
                l.parts[at].(state := L.IsDenied, approval := Some(L.Approval(track.approval.value, Some(false)))));
  }

  lemma AnsweredAgrees(call: string, track: T.Track, p: T.Part, q: L.Part, approval: Option<string>,
                       partial: Option<L.PartialCall>, seen: CallSeen, output: Value)
    requires CallAgrees(call, track, p, q, approval, partial, seen)
    ensures CallAgrees(call, track, T.PartOf(track, call, T.Answered(track.input, output, track.approval)),
                       q.(state := L.IsAnswered, output := L.Kept(q.output, output), approval := Approved(track.approval)),
                       approval, partial, NextCall(seen, OutputAvailable(call, output)))
  {
  }

  lemma AnsweredStep(t: T.Turn, l: L.Log, s: Seen, call: string, output: Value)
    requires Tied(t, l, s) && call in t.tools && call in s.calls
    ensures Tied(T.AfterOutput(t, call, output), L.AfterOutput(l, call, output),
                 s.(calls := s.calls[call := NextCall(s.calls[call], OutputAvailable(call, output))]))
  {
    var at, track := t.tools[call].index, t.tools[call];
    TiedAt(t, l, s, call);
    AnsweredLog(l, call, at, output, track.approval);
    AnsweredAgrees(call, track, t.parts[at], l.parts[at], Held(l.approvals, call), Held(l.partials, call), s.calls[call], output);
    WroteMoves(t, l, s, call, track, T.Answered(track.input, output, track.approval),
               l.parts[at].(state := L.IsAnswered, output := L.Kept(l.parts[at].output, output), approval := Approved(track.approval)),
               NextCall(s.calls[call], OutputAvailable(call, output)));
  }

  lemma FailedAgrees(call: string, track: T.Track, p: T.Part, q: L.Part, approval: Option<string>,
                     partial: Option<L.PartialCall>, seen: CallSeen, errorText: string)
    requires CallAgrees(call, track, p, q, approval, partial, seen)
    ensures CallAgrees(call, track, T.PartOf(track, call, T.Failed(track.input, errorText, track.approval)),
                       q.(state := L.IsFailed, errorText := Some(errorText), approval := Approved(track.approval)),
                       approval, partial, seen.(streaming := false))
  {
  }

  lemma FailedStep(t: T.Turn, l: L.Log, s: Seen, call: string, errorText: string)
    requires Tied(t, l, s) && call in t.tools && call in s.calls
    ensures Tied(T.AfterOutputError(t, call, errorText), L.AfterOutputError(l, call, errorText),
                 s.(calls := s.calls[call := s.calls[call].(streaming := false)]))
  {
    var at, track := t.tools[call].index, t.tools[call];
    TiedAt(t, l, s, call);
    FailedLog(l, call, at, errorText, track.approval);
    FailedAgrees(call, track, t.parts[at], l.parts[at], Held(l.approvals, call), Held(l.partials, call), s.calls[call], errorText);
    WroteMoves(t, l, s, call, track, T.Failed(track.input, errorText, track.approval),
               l.parts[at].(state := L.IsFailed, errorText := Some(errorText), approval := Approved(track.approval)),
               s.calls[call].(streaming := false));
  }

  lemma UnopenedStep(t: T.Turn, l: L.Log, s: Seen, c: Chunk, parse: string -> Value)
    requires Tied(t, l, s) && Allowed(s, c)
    requires c.InputDelta? || c.InputError? || c.ApprovalRequest? || c.OutputDenied? || c.OutputAvailable? || c.OutputError?
    requires c.call !in t.tools
    ensures T.AfterTool(t, c) == t && L.AfterTool(l, c, parse) == l && Next(s, c) == s
  {
    InvocationFound(t, l, s, c.call);
  }

  function LineOf(summary: string, status: Option<string>): T.Line
    requires PlainSummary(summary, status)
  {
    T.Line(summary, if status.None? then SummaryOk else KnownStatus(status.value).value)
  }

  lemma SummaryTurn(t: T.Turn, call: string, summary: string, status: Option<string>)
    requires call in t.tools && t.tools[call].index < |t.parts| && t.parts[t.tools[call].index].Tool? && PlainSummary(summary, status)
    ensures var at, line := t.tools[call].index, Some(LineOf(summary, status));
            T.AfterSummary(t, Some(SummaryFields(Some(call), Some(summary), status))) ==
            t.(tools := t.tools[call := t.tools[call].(line := line)], parts := t.parts[at := t.parts[at].(line := line)])
  {
  }

  lemma SummaryLog(l: L.Log, call: string, summary: string, status: Option<string>)
    requires PlainSummary(summary, status)
    ensures var at, line := L.ToolPartById(l.parts, call, false), LineOf(summary, status);
            at < |l.parts| ==>
              L.AfterSummary(l, Some(SummaryFields(Some(call), Some(summary), status))) ==
              l.(parts := l.parts[at := l.parts[at].(summary := Some((line.summary, line.status)))])
  {
    assert ReadSummary(Some(SummaryFields(Some(call), Some(summary), status))) ==
           Some(Summary(call, summary, LineOf(summary, status).status));
  }

  lemma SummaryStep(t: T.Turn, l: L.Log, s: Seen, call: string, summary: string, status: Option<string>)
    requires Tied(t, l, s) && call in t.tools && PlainSummary(summary, status)
    ensures var fields := Some(SummaryFields(Some(call), Some(summary), status));
            Tied(T.AfterSummary(t, fields), L.AfterSummary(l, fields), s)
  {
    var at, line := t.tools[call].index, LineOf(summary, status);
    TiedAt(t, l, s, call);
    SummaryTurn(t, call, summary, status);
    SummaryLog(l, call, summary, status);
    CallMovesOn(t, l, s, call, t.tools[call].(line := Some(line)), t.parts[at].(line := Some(line)),
                l.parts[at].(summary := Some((line.summary, line.status))));
  }

  lemma SummaryIgnored(t: T.Turn, l: L.Log, s: Seen, fields: Option<SummaryFields>)
    requires Tied(t, l, s)
    requires fields.Some? && fields.value.call.Some? && fields.value.summary.Some? ==> fields.value.call.value !in t.tools
    ensures T.AfterSummary(t, fields) == t && L.AfterSummary(l, fields) == l
  {
    if fields.Some? && fields.value.call.Some? && fields.value.summary.Some? {
      InvocationFound(t, l, s, fields.value.call.value);
    }
  }

  /** A chunk of a call leaves both sides tied. */
  predicate StaysTied(t: T.Turn, l: L.Log, s: Seen, c: Chunk, parse: string -> Value) {
    Tied(T.AfterTool(t, c), L.AfterTool(l, c, parse), Next(s, c))
  }

  lemma AfterChunk(t: T.Turn, l: L.Log, s: Seen, c: Chunk, parse: string -> Value, t2: T.Turn, l2: L.Log, s2: Seen)
    requires Tied(t2, l2, s2) && T.AfterTool(t, c) == t2 && L.AfterTool(l, c, parse) == l2 && Next(s, c) == s2
    ensures StaysTied(t, l, s, c, parse)
  {
  }

  lemma OpeningStep(t: T.Turn, l: L.Log, s: Seen, c: Chunk, parse: string -> Value)
    requires Tied(t, l, s) && Allowed(s, c) && (c.InputStart? || c.InputAvailable?) && c.call !in t.tools
    ensures StaysTied(t, l, s, c, parse)
  {
    if c.InputStart? {
      StartedStep(t, l, s, c.call, c.tool);
      AfterChunk(t, l, s, c, parse, T.AfterStart(t, c.call, c.tool), L.AfterInputStart(l, c.call, c.tool, false),
                 s.(calls := s.calls[c.call := NewCall]));
    } else {
      OpenedReadyStep(t, l, s, c.call, c.tool, c.input);
      AfterChunk(t, l, s, c, parse, T.AfterInput(T.AfterStart(t, c.call, c.tool), c.call, c.input),
                 L.AfterInput(l, c.call, c.tool, c.input, false), s.(calls := s.calls[c.call := NextCall(NewCall, c)]));
    }
  }

  lemma AvailableChunk(t: T.Turn, l: L.Log, s: Seen, c: Chunk, parse: string -> Value)
    requires Tied(t, l, s) && Allowed(s, c) && c.InputAvailable? && c.call in t.tools
    ensures StaysTied(t, l, s, c, parse)
  {
    AvailableStep(t, l, s, c.call, c.tool, c.input);
    AfterChunk(t, l, s, c, parse, T.AfterInput(t, c.call, c.input), L.AfterInput(l, c.call, c.tool, c.input, false),
               s.(calls := s.calls[c.call := NextCall(s.calls[c.call], c)]));
  }

  lemma DeltaChunk(t: T.Turn, l: L.Log, s: Seen, c: Chunk, parse: string -> Value)
    requires Tied(t, l, s) && Allowed(s, c) && c.InputDelta? && c.call in t.tools
    ensures StaysTied(t, l, s, c, parse)
  {
    DeltaStep(t, l, s, c.call, c.delta, parse);
    AfterChunk(t, l, s, c, parse, T.AfterInputDelta(t, c.call, c.delta), L.AfterInputDelta(l, c.call, c.delta, parse),
               s.(calls := s.calls[c.call := NextCall(s.calls[c.call], c)]));
  }

  lemma InputErrorChunk(t: T.Turn, l: L.Log, s: Seen, c: Chunk, parse: string -> Value)
    requires Tied(t, l, s) && Allowed(s, c) && c.InputError? && c.call in t.tools
    ensures StaysTied(t, l, s, c, parse)
  {
    InputErrorStep(t, l, s, c.call, c.tool, c.input, c.errorText, c.dynamic);
    AfterChunk(t, l, s, c, parse, T.AfterInputError(t, c.call, c.errorText), L.AfterInputError(l, c.call, c.tool, c.input, c.errorText, c.dynamic),
               s.(calls := s.calls[c.call := NextCall(s.calls[c.call], c)]));
  }

  lemma ApprovalChunk(t: T.Turn, l: L.Log, s: Seen, c: Chunk, parse: string -> Value)
    requires Tied(t, l, s) && Allowed(s, c) && c.ApprovalRequest? && c.call in t.tools
    ensures StaysTied(t, l, s, c, parse)
  {
    ApprovalStep(t, l, s, c.call, c.approvalId);
    AfterChunk(t, l, s, c, parse, T.AfterApprovalRequest(t, c.call, c.approvalId), L.AfterApprovalRequest(l, c.call, c.approvalId),
               s.(calls := s.calls[c.call := NextCall(s.calls[c.call], c)]));
  }

  lemma DeniedChunk(t: T.Turn, l: L.Log, s: Seen, c: Chunk, parse: string -> Value)
    requires Tied(t, l, s) && Allowed(s, c) && c.OutputDenied? && c.call in t.tools
    ensures StaysTied(t, l, s, c, parse)
  {
    DeniedStep(t, l, s, c.call);
    SameCalls(s, c.call);
    AfterChunk(t, l, s, c, parse, T.AfterDenial(t, c.call), L.AfterDenial(l, c.call),
               s);
  }

  lemma AnsweredChunk(t: T.Turn, l: L.Log, s: Seen, c: Chunk, parse: string -> Value)
    requires Tied(t, l, s) && Allowed(s, c) && c.OutputAvailable? && c.call in t.tools
    ensures StaysTied(t, l, s, c, parse)
  {
    AnsweredStep(t, l, s, c.call, c.output);
    AfterChunk(t, l, s, c, parse, T.AfterOutput(t, c.call, c.output), L.AfterOutput(l, c.call, c.output),
               s.(calls := s.calls[c.call := NextCall(s.calls[c.call], c)]));
  }

  lemma FailedChunk(t: T.Turn, l: L.Log, s: Seen, c: Chunk, parse: string -> Value)
    requires Tied(t, l, s) && Allowed(s, c) && c.OutputError? && c.call in t.tools
    ensures StaysTied(t, l, s, c, parse)
  {
    FailedStep(t, l, s, c.call, c.errorText);
    AfterChunk(t, l, s, c, parse, T.AfterOutputError(t, c.call, c.errorText), L.AfterOutputError(l, c.call, c.errorText),
               s.(calls := s.calls[c.call := NextCall(s.calls[c.call], c)]));
  }

  lemma InputStep(t: T.Turn, l: L.Log, s: Seen, c: Chunk, parse: string -> Value)
    requires Tied(t, l, s) && Allowed(s, c) && (c.InputAvailable? || c.InputDelta? || c.InputError?) && c.call in t.tools
    ensures StaysTied(t, l, s, c, parse)
  {
    if c.InputAvailable? {
      AvailableChunk(t, l, s, c, parse);
    } else if c.InputDelta? {
      DeltaChunk(t, l, s, c, parse);
    } else {
      InputErrorChunk(t, l, s, c, parse);
    }
  }

  lemma OutputStep(t: T.Turn, l: L.Log, s: Seen, c: Chunk, parse: string -> Value)
    requires c.ApprovalRequest? || c.OutputDenied? || c.OutputAvailable? || c.OutputError?
    requires Tied(t, l, s) && Allowed(s, c) && c.call in t.tools
    ensures StaysTied(t, l, s, c, parse)
  {
    if c.ApprovalRequest? {
      ApprovalChunk(t, l, s, c, parse);
    } else if c.OutputDenied? {
      DeniedChunk(t, l, s, c, parse);
    } else if c.OutputAvailable? {
      AnsweredChunk(t, l, s, c, parse);
    } else {
      FailedChunk(t, l, s, c, parse);
    }
  }

  lemma ToolStep(t: T.Turn, l: L.Log, s: Seen, c: Chunk, parse: string -> Value)
    requires Tied(t, l, s) && Allowed(s, c) && FamilyOf(c).OfTool?
    ensures StaysTied(t, l, s, c, parse)
  {
    if c.call in t.tools {
      if c.InputAvailable? || c.InputDelta? || c.InputError? {
        InputStep(t, l, s, c, parse);
      } else {
        OutputStep(t, l, s, c, parse);
      }
    } else if c.InputStart? || c.InputAvailable? {
      OpeningStep(t, l, s, c, parse);
    } else {
      UnopenedStep(t, l, s, c, parse);
    }
  }

  lemma PartStep(t: T.Turn, l: L.Log, s: Seen, c: Chunk)
    requires Tied(t, l, s) && FamilyOf(c).OfPart?
    ensures Tied(T.AfterPart(t, c), L.AfterPart(l, c), s)
  {
    match c
    case StartStep => AppendedPlain(t, l, s, T.StepStart, L.StepStart);
    case FileChunk(url, mediaType, filename) => AppendedPlain(t, l, s, T.File(url, mediaType, filename), L.File(url, mediaType));
    case SourceUrl(sourceId, url, title) => AppendedPlain(t, l, s, T.Url(sourceId, url, title), L.Url(sourceId, url, title));
    case SourceDocument(sourceId, mediaType, heading, filename) =>
      AppendedPlain(t, l, s, T.Document(sourceId, mediaType, heading, filename), L.Document(sourceId, mediaType, heading, filename));
  }

  lemma MessageStep(t: T.Turn, l: L.Log, s: Seen, c: Chunk)
    requires Tied(t, l, s) && FamilyOf(c).OfMessage?
    ensures Tied(T.AfterMessage(t, c), L.AfterMessage(l, c), Next(s, c))
  {
  }

  lemma StreamStep(t: T.Turn, l: L.Log, s: Seen, c: Chunk)
    requires Tied(t, l, s) && FamilyOf(c).OfStream? && Allowed(s, c)
    ensures Tied(T.AfterStream(t, c), L.AfterStream(l, c), Next(s, c))
  {
    match c
    case StreamStart(key) => StreamStartStep(t, l, s, key);
    case StreamDelta(key, delta) => StreamDeltaStep(t, l, s, key, delta);
    case StreamEnd(key) => StreamEndStep(t, l, s, key);
    case FinishStep =>
  }

  lemma Step(t: T.Turn, l: L.Log, s: Seen, c: Chunk, parse: string -> Value)
    requires Tied(t, l, s) && Allowed(s, c)
    ensures Tied(T.After(t, c), L.After(l, c, parse), Next(s, c))
  {
    match FamilyOf(c)
    case OfStream => StreamStep(t, l, s, c);
    case OfTool => ToolStep(t, l, s, c, parse);
    case OfPart => PartStep(t, l, s, c);
    case OfMessage => MessageStep(t, l, s, c);
    case OfData => if !c.transient { DataStep(t, l, s, c.kind, c.dataId, c.data); }
    case OfSummary =>
      var fields := c.fields;
      if fields.Some? && fields.value.call.Some? && fields.value.summary.Some? && fields.value.call.value in t.tools {
        SummaryStep(t, l, s, fields.value.call.value, fields.value.summary.value, fields.value.status);
      } else {
        SummaryIgnored(t, l, s, fields);
      }
  }

  lemma TiedCallShowsTheSame(t: T.Turn, l: L.Log, s: Seen, i: nat)
    requires Tied(t, l, s) && i < |t.parts| && t.parts[i].Tool? && t.parts[i].call in s.calls
    ensures l.parts[i].Tool?
    ensures s.calls[t.parts[i].call].settled ==> t.parts[i].phase.input == Some(l.parts[i].input)
    ensures s.calls[t.parts[i].call].told && t.parts[i].phase.Answered? ==> t.parts[i].phase.output == l.parts[i].output
  {
    var call := t.parts[i].call;
    assert CallTied(call, t.tools[call], t.parts[i], l.parts[i], Held(l.approvals, call), Held(l.partials, call), s.calls[call]);
  }

  lemma TiedShowTheSame(t: T.Turn, l: L.Log, s: Seen)
    requires Tied(t, l, s)
    ensures SameMessage(t, l, s)
  {
    forall i | 0 <= i < |t.parts| && t.parts[i].Tool? && t.parts[i].call in s.calls
      ensures l.parts[i].Tool?
      ensures s.calls[t.parts[i].call].settled ==> t.parts[i].phase.input == Some(l.parts[i].input)
      ensures s.calls[t.parts[i].call].told && t.parts[i].phase.Answered? ==> t.parts[i].phase.output == l.parts[i].output
    {
      TiedCallShowsTheSame(t, l, s, i);
    }
  }

  lemma {:induction false} RunsStayTied(id: string, chunks: seq<Chunk>, parse: string -> Value)
    requires WellFormed(chunks)
    ensures Tied(T.TurnOf(chunks), L.LogOf(id, chunks, parse), SeenOf(chunks))
  {
    if chunks != [] {
      var front, c := chunks[..|chunks| - 1], chunks[|chunks| - 1];
      RunsStayTied(id, front, parse);
      Step(T.TurnOf(front), L.LogOf(id, front, parse), SeenOf(front), c, parse);
    }
  }

  /** On every well-formed stream both reducers show the same parts in the same order: texts, data, call
      states, approvals, summaries, answers and whole inputs. */
  lemma {:induction false} ReducersAgree(id: string, chunks: seq<Chunk>, parse: string -> Value)
    requires WellFormed(chunks)
    ensures SameMessage(T.TurnOf(chunks), L.LogOf(id, chunks, parse), SeenOf(chunks))
  {
    RunsStayTied(id, chunks, parse);
    TiedShowTheSame(T.TurnOf(chunks), L.LogOf(id, chunks, parse), SeenOf(chunks));
  }

  // What the protocol leaves out does part them.

  lemma DenialShows(l: L.Log, call: string)
    requires L.Invocation(l.parts, call) < |l.parts|
    ensures var at, after := L.Invocation(l.parts, call), L.AfterDenial(l, call).parts;
            |after| == |l.parts| && after[at].Tool? && after[at].state == L.IsDenied
  {
    var at := L.Invocation(l.parts, call);
    InvocationAt(l.parts, l.parts[at].(state := L.IsDenied), call);
  }

  lemma NotTheSame(t: seq<T.Part>, l: seq<L.Part>, at: nat)
    requires at < |t| && at < |l| && !Agree(t[at], l[at])
    ensures !PartsAgree(t, l)
  {
  }

  lemma DeniedAlone(t: T.Turn, l: L.Log, call: string, parse: string -> Value)
    requires call in t.tools && t.tools[call].approval.None?
    ensures T.After(t, OutputDenied(call)) == t && L.After(l, OutputDenied(call), parse) == L.AfterDenial(l, call)
  {
  }

  lemma DeniedAloneShows(t: T.Turn, l: L.Log, call: string, at: nat, parse: string -> Value)
    requires call in t.tools && t.tools[call].approval.None? && at == L.Invocation(l.parts, call) < |t.parts| == |l.parts|
    requires t.parts[at].Tool? && !t.parts[at].phase.Denied?
    ensures !PartsAgree(T.After(t, OutputDenied(call)).parts, L.After(l, OutputDenied(call), parse).parts)
  {
    DenialShows(l, call);
    DeniedAlone(t, l, call, parse);
    NotTheSame(t.parts, L.AfterDenial(l, call).parts, at);
  }

  /** A denial nobody asked about shows on one side only. */
  lemma DenialNeedsARequest(t: T.Turn, l: L.Log, s: Seen, call: string, parse: string -> Value)
    requires Tied(t, l, s) && call in s.calls && !s.calls[call].approved
    ensures !PartsAgree(T.After(t, OutputDenied(call)).parts, L.After(l, OutputDenied(call), parse).parts)
  {
    TiedAt(t, l, s, call);
    DeniedAloneShows(t, l, call, t.tools[call].index, parse);
  }

  /** An input error on a call never opened opens it on one side only. */
  lemma ErrorNeedsAnOpenCall(t: T.Turn, l: L.Log, s: Seen, c: Chunk, parse: string -> Value)
    requires Tied(t, l, s) && c.InputError? && c.call !in s.calls
    ensures !PartsAgree(T.After(t, c).parts, L.After(l, c, parse).parts)
  {
    InvocationFound(t, l, s, c.call);
  }

  /** A delta after its part was closed is read on one side only. */
  lemma DeltaNeedsAnOpenPart(t: T.Turn, l: L.Log, s: Seen, key: StreamKey, delta: string, parse: string -> Value)
    requires Tied(t, l, s) && !Open(s, key) && delta != ""
    ensures !PartsAgree(T.After(t, StreamDelta(key, delta)).parts, L.After(l, StreamDelta(key, delta), parse).parts)
  {
    var at := t.streams[key];
    assert Agree(t.parts[at], l.parts[at]);
    assert T.After(t, StreamDelta(key, delta)) == T.AfterStream(t, StreamDelta(key, delta));
    assert L.After(l, StreamDelta(key, delta), parse) == l;
    var p := t.parts[at];
    var more := T.AfterStream(t, StreamDelta(key, delta)).parts[at];
    assert more == p.(text := p.text + delta) && |more.text| > |p.text|;
    assert !Agree(more, l.parts[at]);
  }

  lemma StartAgainLog(l: L.Log, call: string, at: nat, tool: string)
    requires StandsAt(l, call, at)
    ensures var after := L.AfterInputStart(l, call, tool, false).parts;
            |after| == |l.parts| && after[at].Tool? && after[at].state == L.IsStreaming
  {
  }

  lemma StartedAgain(t: T.Turn, l: L.Log, call: string, tool: string, parse: string -> Value)
    requires call in t.tools
    ensures T.After(t, InputStart(call, tool, false)) == t
    ensures L.After(l, InputStart(call, tool, false), parse) == L.AfterInputStart(l, call, tool, false)
  {
  }

  lemma StartedAgainShows(t: T.Turn, l: L.Log, call: string, at: nat, tool: string, parse: string -> Value)
    requires call in t.tools && StandsAt(l, call, at) && at < |t.parts| && t.parts[at].Tool? && !t.parts[at].phase.InputStreaming?
    ensures !PartsAgree(T.After(t, InputStart(call, tool, false)).parts, L.After(l, InputStart(call, tool, false), parse).parts)
  {
    StartAgainLog(l, call, at, tool);
    StartedAgain(t, l, call, tool, parse);
    NotTheSame(t.parts, L.AfterInputStart(l, call, tool, false).parts, at);
  }

  /** A call opened again goes back to streaming on one side only. */
  lemma CallsOpenOnce(t: T.Turn, l: L.Log, s: Seen, call: string, tool: string, parse: string -> Value)
    requires Tied(t, l, s) && call in t.tools && !t.parts[t.tools[call].index].phase.InputStreaming?
    ensures !PartsAgree(T.After(t, InputStart(call, tool, false)).parts, L.After(l, InputStart(call, tool, false), parse).parts)
  {
    TiedAt(t, l, s, call);
    StartedAgainShows(t, l, call, t.tools[call].index, tool, parse);
  }
}
