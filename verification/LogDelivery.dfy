/** Delivering a thread's log to its readers: replay, subscribe, sweep and drain, over one shared
    LISTEN connection that drops and is armed again. */
module LogDelivery {
  import opened Wrappers

  type Channel = nat
  type ReaderId = nat
  type ConnId = nat

  /** What a reader's generator does next, once the rows it fetched are yielded. */
  datatype Pc = Replay | Subscribing | Sweep | Wait | Fetch | Left

  /** `after` is the reader's cursor and `rest` the fetched rows it has not yielded. `late` is
      history: rows that became visible below what the reader had already fetched. */
  datatype Reader = Reader(
    channel: Channel, after: nat, yielded: seq<nat>, rest: seq<nat>, pc: Pc, tokens: nat, late: set<nat>)

  /** A LISTEN connection: its armed channels, and the notifications on their way through it.
      `callbackDue` marks a dropped connection whose termination callback has not run. */
  datatype Connection = Connection(live: bool, armed: set<Channel>, inFlight: seq<Channel>, callbackDue: bool)

  datatype World = World(
    log: Log,
    connections: map<ConnId, Connection>,
    current: Option<ConnId>,
    queues: map<Channel, set<ReaderId>>,
    relistening: bool,
    readers: map<ReaderId, Reader>)

  datatype Step =
    | Commit(channel: Channel, id: nat)
    | Deliver(conn: ConnId)
    | Drop(conn: ConnId)
    | Callback(conn: ConnId)
    | RelistenArms(newConn: ConnId)
    | RelistenEnds
    | Join(reader: ReaderId, channel: Channel, after: nat)
    | FetchRows(reader: ReaderId)
    | Yield(reader: ReaderId)
    | Subscribe(reader: ReaderId, newConn: ConnId)
    | Wake(reader: ReaderId)
    | Leave(reader: ReaderId)

  ghost predicate Initial(w: World) {
    w.log == map[] && w.connections == map[] && w.current == None && w.queues == map[] && !w.relistening && w.readers == map[]
  }

  type Log = map<Channel, set<nat>>

  function Rows(log: Log, channel: Channel): set<nat> {
    if channel in log then log[channel] else {}
  }

  // SELECT ... WHERE id > after ORDER BY id.

  function Above(rows: set<nat>, after: nat): set<nat> {
    set id | id in rows && id > after
  }

  ghost function Selected(rows: set<nat>, after: nat): seq<nat>
    decreases |Above(rows, after)|
  {
    if Above(rows, after) == {} then []
    else
      var least := Least(Above(rows, after));
      AboveLeast(rows, after);
      [least] + Selected(rows, least)
  }

  lemma Shrinks(a: set<nat>, b: set<nat>)
    requires a < b
    ensures |a| < |b|
  {
    var x :| x in b && x !in a;
    assert a <= b - {x};
    Contained(a, b - {x});
  }

  lemma {:induction false} Contained(a: set<nat>, b: set<nat>)
    requires a <= b
    ensures |a| <= |b|
    decreases a
  {
    if a != {} {
      var x :| x in a;
      Contained(a - {x}, b - {x});
    }
  }

  ghost function Least(s: set<nat>): (least: nat)
    requires s != {}
    ensures least in s && forall id <- s :: least <= id
    decreases |s|
  {
    var x :| x in s;
    if s == {x} then x
    else
      assert s == {x} + (s - {x});
      var m := Least(s - {x});
      if x < m then x else m
  }

  ghost predicate Ascending(ids: seq<nat>) {
    forall i, j | 0 <= i < j < |ids| :: ids[i] < ids[j]
  }

  lemma AboveLeast(rows: set<nat>, after: nat)
    requires Above(rows, after) != {}
    ensures var least := Least(Above(rows, after)); |Above(rows, least)| < |Above(rows, after)|
  {
    var least := Least(Above(rows, after));
    assert least in Above(rows, after) && least !in Above(rows, least);
    Shrinks(Above(rows, least), Above(rows, after));
  }

  lemma {:induction false} SelectedHas(rows: set<nat>, after: nat, id: nat)
    ensures id in Selected(rows, after) <==> id in Above(rows, after)
    decreases |Above(rows, after)|
  {
    if Above(rows, after) != {} {
      var least := Least(Above(rows, after));
      AboveLeast(rows, after);
      SelectedHas(rows, least, id);
    }
  }

  lemma {:induction false} SelectedAscends(rows: set<nat>, after: nat)
    ensures Ascending(Selected(rows, after))
    decreases |Above(rows, after)|
  {
    if Above(rows, after) != {} {
      var least := Least(Above(rows, after));
      AboveLeast(rows, after);
      SelectedAscends(rows, least);
      var tail := Selected(rows, least);
      forall i | 0 <= i < |tail| ensures tail[i] > least {
        assert tail[i] in tail;
        SelectedHas(rows, least, tail[i]);
      }
    }
  }

  /** A fetch returns the visible rows after the cursor, each once, in id order. */
  lemma SelectedRows(rows: set<nat>, after: nat)
    ensures Ascending(Selected(rows, after))
    ensures forall id: nat :: id in Selected(rows, after) <==> id in rows && id > after
  {
    SelectedAscends(rows, after);
    forall id: nat ensures id in Selected(rows, after) <==> id in rows && id > after {
      SelectedHas(rows, after, id);
    }
  }

  /** The id the next fetch starts after, once `rest` is yielded. */
  function Frontier(r: Reader): nat {
    if r.rest != [] then r.rest[|r.rest| - 1]
    else if r.yielded != [] then r.yielded[|r.yielded| - 1]
    else r.after
  }

  predicate Subscribed(r: Reader) { r.pc in {Sweep, Wait, Fetch} }

  predicate Queued(w: World, id: ReaderId) {
    id in w.readers && w.readers[id].channel in w.queues && id in w.queues[w.readers[id].channel]
  }

  predicate Live(w: World, conn: Option<ConnId>) {
    conn.Some? && conn.value in w.connections && w.connections[conn.value].live
  }

  /** `_open`: the live connection in hand, else a new one armed for every subscribed channel. */
  function Opened(w: World, newConn: ConnId): World {
    if Live(w, w.current) then w
    else w.(connections := w.connections[newConn := Connection(true, w.queues.Keys, [], false)], current := Some(newConn))
  }

  function Armed(w: World, channel: Channel): World
    requires Live(w, w.current)
  {
    var c := w.connections[w.current.value];
    w.(connections := w.connections[w.current.value := c.(armed := c.armed + {channel})])
  }

  function Unsubscribed(w: World, id: ReaderId): World
    requires Queued(w, id)
  {
    var channel := w.readers[id].channel;
    var waiting := w.queues[channel] - {id};
    if waiting != {} then w.(queues := w.queues[channel := waiting])
    else
      var v := w.(queues := w.queues - {channel});
      if !Live(w, w.current) then v
      else
        var c := w.connections[w.current.value];
        v.(connections := w.connections[w.current.value := c.(armed := c.armed - {channel})])
  }

  /** One token on the queue of every reader in `waiting`. */
  function Woken(readers: map<ReaderId, Reader>, waiting: set<ReaderId>): map<ReaderId, Reader> {
    map id <- readers :: if id in waiting then readers[id].(tokens := readers[id].tokens + 1) else readers[id]
  }

  function AllWaiting(w: World): set<ReaderId> {
    set id | id in w.readers && Queued(w, id)
  }

  /** The row and its notification become visible together, at the commit. */
  function Committed(w: World, channel: Channel, id: nat): World {
    w.(log := w.log[channel := Rows(w.log, channel) + {id}],
       connections := map c <- w.connections ::
         if w.connections[c].live && channel in w.connections[c].armed
         then w.connections[c].(inFlight := w.connections[c].inFlight + [channel]) else w.connections[c],
       readers := map r <- w.readers ::
         if w.readers[r].channel == channel && w.readers[r].after < id <= Frontier(w.readers[r])
         then w.readers[r].(late := w.readers[r].late + {id}) else w.readers[r])
  }

  predicate Idle(w: World, id: ReaderId, pc: Pc) {
    id in w.readers && w.readers[id].pc == pc && w.readers[id].rest == []
  }

  predicate Enabled(w: World, s: Step) {
    match s
    case Commit(channel, id) => id !in Rows(w.log, channel)
    case Deliver(c) => c in w.connections && w.connections[c].live && w.connections[c].inFlight != []
    case Drop(c) => c in w.connections && w.connections[c].live
    case Callback(c) => c in w.connections && w.connections[c].callbackDue
    case RelistenArms(newConn) => w.relistening && w.queues != map[] && newConn !in w.connections
    case RelistenEnds => w.relistening && w.queues == map[]
    case Join(r, _, _) => r !in w.readers
    case FetchRows(r) => Idle(w, r, Replay) || Idle(w, r, Sweep) || Idle(w, r, Fetch)
    case Yield(r) => r in w.readers && w.readers[r].pc != Left && w.readers[r].rest != []
    case Subscribe(r, newConn) => Idle(w, r, Subscribing) && newConn !in w.connections
    case Wake(r) => Idle(w, r, Wait) && w.readers[r].tokens > 0
    case Leave(r) => r in w.readers && w.readers[r].pc != Left && (Subscribed(w.readers[r]) ==> Queued(w, r))
  }

  ghost function Apply(w: World, s: Step): World
    requires Enabled(w, s)
  {
    match s
    case Commit(channel, id) => Committed(w, channel, id)
    case Deliver(c) =>
      var conn := w.connections[c];
      var channel := conn.inFlight[0];
      w.(connections := w.connections[c := conn.(inFlight := conn.inFlight[1..])],
         readers := if channel in w.queues then Woken(w.readers, w.queues[channel]) else w.readers)
    case Drop(c) =>
      w.(connections := w.connections[c := w.connections[c].(live := false, inFlight := [], callbackDue := true)])
    case Callback(c) =>
      w.(connections := w.connections[c := w.connections[c].(callbackDue := false)],
         current := None,
         relistening := w.relistening || w.queues != map[])
    case RelistenArms(newConn) =>
      Opened(w, newConn).(relistening := false, readers := Woken(w.readers, AllWaiting(w)))
    case RelistenEnds => w.(relistening := false)
    case Join(r, channel, after) =>
      w.(readers := w.readers[r := Reader(channel, after, [], [], Replay, 0, {})])
    case FetchRows(r) =>
      var reader := w.readers[r];
      w.(readers := w.readers[r := reader.(
        rest := Selected(Rows(w.log, reader.channel), Frontier(reader)),
        pc := if reader.pc.Replay? then Subscribing else Wait)])
    case Yield(r) =>
      var reader := w.readers[r];
      w.(readers := w.readers[r := reader.(yielded := reader.yielded + [reader.rest[0]], rest := reader.rest[1..])])
    case Subscribe(r, newConn) =>
      var channel := w.readers[r].channel;
      var v := Armed(Opened(w, newConn), channel);
      v.(queues := w.queues[channel := (if channel in w.queues then w.queues[channel] else {}) + {r}],
         readers := w.readers[r := w.readers[r].(tokens := 0, pc := Sweep)])
    case Wake(r) => w.(readers := w.readers[r := w.readers[r].(tokens := 0, pc := Fetch)])
    case Leave(r) =>
      var v := if Subscribed(w.readers[r]) then Unsubscribed(w, r) else w;
      v.(readers := w.readers[r := w.readers[r].(pc := Left)])
  }

  ghost function Run(start: World, steps: seq<Step>): Option<World> {
    if steps == [] then Some(start)
    else
      var last := steps[|steps| - 1];
      match Run(start, steps[..|steps| - 1])
      case None => None
      case Some(w) => if Enabled(w, last) then Some(Apply(w, last)) else None
  }

  // The invariant.

  /** The hub's registry agrees with its readers. */
  ghost predicate Registry(w: World) {
    && (forall id <- w.readers :: Subscribed(w.readers[id]) <==> Queued(w, id))
    && (forall c <- w.queues :: w.queues[c] != {} && forall id <- w.queues[c] :: id in w.readers && w.readers[id].channel == c)
  }

  /** A live connection is armed for every subscribed channel; otherwise a re-listen is coming. */
  ghost predicate Coverage(w: World) {
    match w.current
    case None => w.queues != map[] ==> w.relistening
    case Some(c) =>
      && c in w.connections
      && (w.connections[c].live ==> w.queues.Keys <= w.connections[c].armed)
      && (!w.connections[c].live ==> w.connections[c].callbackDue)
  }

  /** Something that will wake the reader is on its way. */
  ghost predicate WakePending(w: World, r: Reader) {
    || r.tokens > 0
    || w.relistening
    || (exists c <- w.connections :: w.connections[c].callbackDue)
    || (Live(w, w.current) && r.channel in w.connections[w.current.value].inFlight)
  }

  ghost predicate Undelivered(log: Log, r: Reader) {
    exists id <- Rows(log, r.channel) :: id > Frontier(r)
  }

  ghost predicate NoLostWakeUp(w: World) {
    forall id <- w.readers :: w.readers[id].pc.Wait? && Undelivered(w.log, w.readers[id]) ==> WakePending(w, w.readers[id])
  }

  /** The reader holds, in order, the visible rows up to its frontier that did not come late. */
  ghost predicate Delivery(log: Log, r: Reader) {
    && Ascending(r.yielded + r.rest)
    && (forall id: nat :: id in r.yielded + r.rest || id in r.late <==> id in Rows(log, r.channel) && r.after < id <= Frontier(r))
    && (forall id <- r.late :: id !in r.yielded + r.rest)
  }

  ghost predicate Deliveries(w: World) {
    forall id <- w.readers :: Delivery(w.log, w.readers[id])
  }

  ghost predicate Inv(w: World) {
    Registry(w) && Coverage(w) && NoLostWakeUp(w) && Deliveries(w)
  }


  lemma CallbacksStillDue(w: World, v: World)
    requires forall c <- w.connections | w.connections[c].callbackDue :: c in v.connections && v.connections[c].callbackDue
    ensures (exists c <- w.connections :: w.connections[c].callbackDue) ==> exists c <- v.connections :: v.connections[c].callbackDue
  {
    if exists c <- w.connections :: w.connections[c].callbackDue {
      var c :| c in w.connections && w.connections[c].callbackDue;
      assert c in v.connections;
    }
  }

  lemma CommitWakeUp(w: World, s: Step)
    requires Registry(w) && Coverage(w) && NoLostWakeUp(w) && Enabled(w, s) && s.Commit?
    ensures NoLostWakeUp(Apply(w, s))
  {
    var v := Apply(w, s);
    CallbacksStillDue(w, v);
    forall id <- v.readers | v.readers[id].pc.Wait? && Undelivered(v.log, v.readers[id])
      ensures WakePending(v, v.readers[id])
    {
      assert Queued(w, id);
      var channel := w.readers[id].channel;
      if w.current.Some? {
        var before, after := w.connections[w.current.value], v.connections[w.current.value];
        if !before.live {
          assert after.callbackDue;
        } else if channel == s.channel {
          assert after.inFlight[|before.inFlight|] == channel;
        } else {
          var row :| row in Rows(v.log, channel) && row > Frontier(v.readers[id]);
          assert row in Rows(w.log, channel);
          assert channel in before.inFlight ==> channel in after.inFlight;
        }
      }
    }
  }

  predicate HubStep(s: Step) { s.Deliver? || s.Drop? || s.Callback? || s.RelistenArms? || s.RelistenEnds? }

  lemma HubWakeUp(w: World, s: Step)
    requires Registry(w) && Coverage(w) && NoLostWakeUp(w) && Enabled(w, s) && HubStep(s)
    ensures NoLostWakeUp(Apply(w, s))
  {
    var v := Apply(w, s);
    if s.Drop? {
      assert v.connections[s.conn].callbackDue;
    }
    if !s.Callback? {
      CallbacksStillDue(w, v);
    }
  }

  lemma FetchWakeUp(w: World, s: Step)
    requires Registry(w) && Coverage(w) && NoLostWakeUp(w) && Enabled(w, s) && s.FetchRows?
    ensures NoLostWakeUp(Apply(w, s))
  {
    SelectedRows(Rows(w.log, w.readers[s.reader].channel), Frontier(w.readers[s.reader]));
    CallbacksStillDue(w, Apply(w, s));
  }

  lemma SubscribeWakeUp(w: World, s: Step)
    requires Registry(w) && Coverage(w) && NoLostWakeUp(w) && Enabled(w, s) && s.Subscribe?
    ensures NoLostWakeUp(Apply(w, s))
  {
    CallbacksStillDue(w, Apply(w, s));
  }

  lemma YieldWakeUp(w: World, s: Step)
    requires NoLostWakeUp(w) && Enabled(w, s) && s.Yield?
    ensures NoLostWakeUp(Apply(w, s))
  {
    CallbacksStillDue(w, Apply(w, s));
  }

  lemma JoinOrWakeWakeUp(w: World, s: Step)
    requires NoLostWakeUp(w) && Enabled(w, s) && (s.Join? || s.Wake?)
    ensures NoLostWakeUp(Apply(w, s))
  {
    CallbacksStillDue(w, Apply(w, s));
  }

  lemma ReaderWakeUp(w: World, s: Step)
    requires Registry(w) && Coverage(w) && NoLostWakeUp(w) && Enabled(w, s) && !HubStep(s) && !s.Commit? && !s.Leave?
    ensures NoLostWakeUp(Apply(w, s))
  {
    match s
    case FetchRows(_) => FetchWakeUp(w, s);
    case Subscribe(_, _) => SubscribeWakeUp(w, s);
    case Yield(_) => YieldWakeUp(w, s);
    case _ => JoinOrWakeWakeUp(w, s);
  }

  /** Unsubscribing drops no notification and no callback. */
  lemma UnsubscribedConnections(w: World, id: ReaderId)
    requires Queued(w, id)
    ensures var v := Unsubscribed(w, id);
            && v.log == w.log && v.readers == w.readers && v.current == w.current && v.relistening == w.relistening
            && v.connections.Keys == w.connections.Keys
            && forall c <- w.connections :: v.connections[c] == w.connections[c].(armed := v.connections[c].armed)
  {
  }

  lemma LeaveWakeUp(w: World, s: Step)
    requires Registry(w) && NoLostWakeUp(w) && Enabled(w, s) && s.Leave?
    ensures NoLostWakeUp(Apply(w, s))
  {
    if Subscribed(w.readers[s.reader]) { UnsubscribedConnections(w, s.reader); }
    var v := Apply(w, s);
    CallbacksStillDue(w, v);
    forall id <- v.readers | v.readers[id].pc.Wait? && Undelivered(v.log, v.readers[id])
      ensures WakePending(v, v.readers[id])
    {
      assert v.readers[id] == w.readers[id] && WakePending(w, w.readers[id]);
    }
  }

  lemma HubRegistry(w: World, s: Step)
    requires Registry(w) && Enabled(w, s) && (HubStep(s) || s.Commit?)
    ensures Registry(Apply(w, s))
  {
  }

  lemma ReaderRegistry(w: World, s: Step)
    requires Registry(w) && Enabled(w, s) && !HubStep(s) && !s.Commit? && !s.Leave? && !s.Subscribe?
    ensures Registry(Apply(w, s))
  {
  }

  lemma SubscribeRegistry(w: World, s: Step)
    requires Registry(w) && Enabled(w, s) && s.Subscribe?
    ensures Registry(Apply(w, s))
  {
  }

  lemma UnsubscribedQueues(w: World, id: ReaderId)
    requires Registry(w) && Queued(w, id)
    ensures var v, channel := Unsubscribed(w, id), w.readers[id].channel;
            && v.readers == w.readers
            && (forall c :: c in v.queues <==> c in w.queues && !(c == channel && w.queues[c] == {id}))
            && (forall c <- v.queues :: v.queues[c] == w.queues[c] - {id} && v.queues[c] != {})
  {
    var channel := w.readers[id].channel;
    assert w.queues[channel] - {id} == {} <==> w.queues[channel] == {id};
    assert forall c <- w.queues | c != channel :: id !in w.queues[c];
    assert forall c <- w.queues | c != channel :: w.queues[c] - {id} == w.queues[c];
  }

  lemma LeaveRegistry(w: World, s: Step)
    requires Registry(w) && Enabled(w, s) && s.Leave?
    ensures Registry(Apply(w, s))
  {
    if Subscribed(w.readers[s.reader]) {
      UnsubscribedQueues(w, s.reader);
    }
  }

  lemma HubCoverage(w: World, s: Step)
    requires Registry(w) && Coverage(w) && Enabled(w, s) && (HubStep(s) || s.Commit?)
    ensures Coverage(Apply(w, s))
  {
  }

  lemma ReaderCoverage(w: World, s: Step)
    requires Registry(w) && Coverage(w) && Enabled(w, s) && !HubStep(s) && !s.Commit?
    ensures Coverage(Apply(w, s))
  {
  }

  lemma FrontierBounds(log: Log, r: Reader)
    requires Delivery(log, r)
    ensures r.after <= Frontier(r)
    ensures forall id <- r.yielded + r.rest :: id <= Frontier(r)
    ensures forall id <- r.late :: id <= Frontier(r)
  {
    var all := r.yielded + r.rest;
    if all != [] {
      assert all[|all| - 1] == Frontier(r) && all[|all| - 1] in all;
    }
  }

  lemma FetchedContents(log: Log, r: Reader, rest: seq<nat>, id: nat)
    requires Delivery(log, r) && r.rest == [] && Ascending(rest)
    requires forall row: nat :: row in rest <==> row in Rows(log, r.channel) && row > Frontier(r)
    ensures var r' := r.(rest := rest);
            id in r'.yielded + rest || id in r'.late <==> id in Rows(log, r.channel) && r.after < id <= Frontier(r')
    ensures id in r.late ==> id !in r.yielded + rest
  {
    FrontierBounds(log, r);
    assert r.yielded + r.rest == r.yielded;
    assert id in r.yielded + rest <==> id in r.yielded || id in rest;
    if id in rest {
      var k :| 0 <= k < |rest| && rest[k] == id;
    }
    assert rest != [] ==> rest[|rest| - 1] in rest;
  }

  lemma FetchedDelivery(log: Log, r: Reader)
    requires Delivery(log, r) && r.rest == []
    ensures Delivery(log, r.(rest := Selected(Rows(log, r.channel), Frontier(r))))
  {
    var rest := Selected(Rows(log, r.channel), Frontier(r));
    SelectedRows(Rows(log, r.channel), Frontier(r));
    forall id: nat
      ensures var r' := r.(rest := rest);
              id in r'.yielded + rest || id in r'.late <==> id in Rows(log, r.channel) && r.after < id <= Frontier(r')
      ensures id in r.late ==> id !in r.yielded + rest
    {
      FetchedContents(log, r, rest, id);
    }
    assert Ascending(r.yielded + rest) by { FetchedAscends(log, r, rest); }
  }

  lemma FetchedAscends(log: Log, r: Reader, rest: seq<nat>)
    requires Delivery(log, r) && r.rest == [] && Ascending(rest)
    requires forall row <- rest :: row > Frontier(r)
    ensures Ascending(r.yielded + rest)
  {
    FrontierBounds(log, r);
    assert r.yielded + r.rest == r.yielded;
    assert forall i | 0 <= i < |r.yielded| :: r.yielded[i] in r.yielded;
    assert forall i | 0 <= i < |rest| :: rest[i] in rest;
  }

  /** Most steps leave what a reader holds, and the log, as they were. */
  lemma SameDelivery(log: Log, r: Reader, r': Reader)
    requires Delivery(log, r) && r' == r.(pc := r'.pc, tokens := r'.tokens)
    ensures Delivery(log, r')
  {
  }

  lemma ReaderDelivery(w: World, s: Step, id: ReaderId)
    requires Enabled(w, s) && id in w.readers && Delivery(w.log, w.readers[id])
    ensures id in Apply(w, s).readers && Delivery(Apply(w, s).log, Apply(w, s).readers[id])
  {
    var r, v := w.readers[id], Apply(w, s);
    if s == FetchRows(id) {
      FetchedDelivery(w.log, r);
      SameDelivery(w.log, r.(rest := v.readers[id].rest), v.readers[id]);
    } else if s == Yield(id) {
      assert (r.yielded + [r.rest[0]]) + r.rest[1..] == r.yielded + r.rest;
    } else if s.Commit? {
      CommitDelivery(w, s, id);
    } else {
      SameDelivery(w.log, r, v.readers[id]);
    }
  }

  lemma CommitDelivery(w: World, s: Step, id: ReaderId)
    requires Enabled(w, s) && s.Commit? && id in w.readers && Delivery(w.log, w.readers[id])
    ensures Delivery(Apply(w, s).log, Apply(w, s).readers[id])
  {
  }

  lemma StepKeeps(w: World, s: Step)
    requires Inv(w) && Enabled(w, s)
    ensures Inv(Apply(w, s))
  {
    var v := Apply(w, s);
    if HubStep(s) || s.Commit? {
      HubRegistry(w, s);
      HubCoverage(w, s);
      if s.Commit? { CommitWakeUp(w, s); } else { HubWakeUp(w, s); }
    } else {
      ReaderCoverage(w, s);
      if s.Leave? {
        LeaveRegistry(w, s);
        LeaveWakeUp(w, s);
      } else {
        if s.Subscribe? { SubscribeRegistry(w, s); } else { ReaderRegistry(w, s); }
        ReaderWakeUp(w, s);
      }
    }
    ReadersOnlyJoin(w, s);
    forall id <- v.readers ensures Delivery(v.log, v.readers[id]) {
      if id in w.readers { ReaderDelivery(w, s, id); }
    }
  }

  lemma ReadersOnlyJoin(w: World, s: Step)
    requires Enabled(w, s)
    ensures forall id <- Apply(w, s).readers :: id in w.readers || Delivery(Apply(w, s).log, Apply(w, s).readers[id])
  {
  }

  lemma {:induction false} RunKeeps(start: World, steps: seq<Step>)
    requires Initial(start) && Run(start, steps).Some?
    ensures Inv(Run(start, steps).value)
  {
    if steps != [] {
      RunKeeps(start, steps[..|steps| - 1]);
      StepKeeps(Run(start, steps[..|steps| - 1]).value, steps[|steps| - 1]);
    }
  }

  // What every run promises.

  /** A reader that waits on its queue while a row it has not fetched is visible will be woken:
      a token is queued, a notification is on its way, or the connection is being armed again. */
  lemma {:induction false} WaitingReadersAreWoken(start: World, steps: seq<Step>, w: World, id: ReaderId)
    requires Initial(start) && Run(start, steps) == Some(w)
    requires id in w.readers && w.readers[id].pc.Wait? && Undelivered(w.log, w.readers[id])
    ensures WakePending(w, w.readers[id])
  {
    RunKeeps(start, steps);
  }

  /** An ascending list that holds every row up to its last is the start of the full selection. */
  lemma {:induction false} PrefixOfSelection(ids: seq<nat>, rows: set<nat>, after: nat)
    requires Ascending(ids)
    requires forall id <- ids :: id in rows && id > after
    requires forall id <- rows | id > after && ids != [] && id <= ids[|ids| - 1] :: id in ids
    ensures ids <= Selected(rows, after)
  {
    if ids != [] {
      assert ids[0] in ids && ids[|ids| - 1] in ids;
      assert ids[0] in Above(rows, after);
      var least, tail := Least(Above(rows, after)), ids[1..];
      assert least in Above(rows, after) && least <= ids[0] <= ids[|ids| - 1];
      assert least in ids;
      var k :| 0 <= k < |ids| && ids[k] == least;
      assert ids[0] == least;
      assert ids == [least] + tail;
      forall j | 0 <= j < |tail| ensures tail[j] in rows && tail[j] > least {
        assert tail[j] == ids[j + 1] && ids[j + 1] in ids;
      }
      forall id <- rows | id > least && tail != [] && id <= tail[|tail| - 1] ensures id in tail {
        assert id in ids;
      }
      PrefixOfSelection(tail, rows, least);
    }
  }

  lemma YieldedUpToItsLast(log: Log, r: Reader, row: nat)
    requires Delivery(log, r) && r.yielded != []
    requires row in Rows(log, r.channel) && row !in r.late && r.after < row <= r.yielded[|r.yielded| - 1]
    ensures row in r.yielded
  {
    var all, n := r.yielded + r.rest, |r.yielded|;
    assert all[n - 1] == r.yielded[n - 1];
    assert r.rest != [] ==> all[n - 1] < all[|all| - 1];
    assert row in all;
    var k :| 0 <= k < |all| && all[k] == row;
    assert k < n && r.yielded[k] == row;
  }

  lemma DeliveryIsAPrefix(log: Log, r: Reader)
    requires Delivery(log, r)
    ensures r.yielded <= Selected(Rows(log, r.channel) - r.late, r.after)
  {
    var rows, all := Rows(log, r.channel) - r.late, r.yielded + r.rest;
    forall i | 0 <= i < |r.yielded| ensures r.yielded[i] in rows && r.yielded[i] > r.after {
      assert all[i] == r.yielded[i] && all[i] in all;
    }
    assert Ascending(r.yielded) by {
      assert forall i | 0 <= i < |r.yielded| :: all[i] == r.yielded[i];
    }
    forall row <- rows | row > r.after && r.yielded != [] && row <= r.yielded[|r.yielded| - 1] ensures row in r.yielded {
      YieldedUpToItsLast(log, r, row);
    }
    PrefixOfSelection(r.yielded, rows, r.after);
  }

  /** Whatever drops and re-arms come between, a reader's rows are at every moment a prefix of the
      visible rows after its cursor, in id order with no gap and no repeat, once the rows that
      became visible too late are set aside; and none of those is ever yielded. */
  lemma YieldedIsAPrefix(start: World, steps: seq<Step>, w: World, id: ReaderId)
    requires Initial(start) && Run(start, steps) == Some(w) && id in w.readers
    ensures var r := w.readers[id]; r.yielded <= Selected(Rows(w.log, r.channel) - r.late, r.after)
    ensures forall row <- w.readers[id].late :: row !in w.readers[id].yielded
  {
    RunKeeps(start, steps);
    var r := w.readers[id];
    DeliveryIsAPrefix(w.log, r);
    forall row <- r.late ensures row !in r.yielded {
      assert row !in r.yielded + r.rest;
    }
  }

  /** A reader with nothing left to fetch or yield and no wake-up pending has yielded everything. */
  lemma QuietReadersAreCaughtUp(start: World, steps: seq<Step>, w: World, id: ReaderId)
    requires Initial(start) && Run(start, steps) == Some(w) && Idle(w, id, Wait)
    requires !WakePending(w, w.readers[id])
    ensures var r := w.readers[id]; r.yielded == Selected(Rows(w.log, r.channel) - r.late, r.after)
  {
    RunKeeps(start, steps);
    YieldedIsAPrefix(start, steps, w, id);
    var r := w.readers[id];
    var all := Selected(Rows(w.log, r.channel) - r.late, r.after);
    SelectedRows(Rows(w.log, r.channel) - r.late, r.after);
    assert !Undelivered(w.log, r);
    forall row <- all ensures row in r.yielded {
      assert row <= Frontier(r);
      assert row in r.yielded + r.rest;
    }
    if |r.yielded| < |all| {
      NextIsNew(r.yielded, all);
    }
  }

  lemma NextIsNew(yielded: seq<nat>, all: seq<nat>)
    requires Ascending(all) && yielded <= all && |yielded| < |all|
    ensures all[|yielded|] in all && all[|yielded|] !in yielded
  {
    forall k | 0 <= k < |yielded| ensures yielded[k] != all[|yielded|] { }
  }

  /** Every commit of the run is above the rows its thread already shows. */
  ghost predicate CommitsInOrder(start: World, steps: seq<Step>) {
    forall k | 0 <= k < |steps| && steps[k].Commit? && Run(start, steps[..k]).Some? ::
      forall row <- Rows(Run(start, steps[..k]).value.log, steps[k].channel) :: row < steps[k].id
  }

  /** When rows become visible in id order, none is late, so nothing is ever skipped. */
  lemma {:induction false} InOrderNothingIsLate(start: World, steps: seq<Step>)
    requires Initial(start) && Run(start, steps).Some? && CommitsInOrder(start, steps)
    ensures forall r <- Run(start, steps).value.readers.Values :: r.late == {}
  {
    if steps != [] {
      var front, s := steps[..|steps| - 1], steps[|steps| - 1];
      var w, v := Run(start, front).value, Run(start, steps).value;
      assert CommitsInOrder(start, front) by {
        assert forall k | 0 <= k <= |front| :: front[..k] == steps[..k];
      }
      RunKeeps(start, front);
      InOrderNothingIsLate(start, front);
      forall id <- v.readers ensures v.readers[id].late == {} {
        if id in w.readers { InOrderStep(w, s, id); }
      }
    }
  }

  lemma FrontierIsARow(log: Log, r: Reader)
    requires Delivery(log, r)
    ensures Frontier(r) == r.after || Frontier(r) in Rows(log, r.channel)
  {
    var all := r.yielded + r.rest;
    if all != [] {
      assert all[|all| - 1] == Frontier(r) && all[|all| - 1] in all;
    }
  }

  lemma OnlyCommitsComeLate(w: World, s: Step, id: ReaderId)
    requires Enabled(w, s) && !s.Commit? && id in w.readers
    ensures id in Apply(w, s).readers && Apply(w, s).readers[id].late == w.readers[id].late
  {
  }

  lemma InOrderStep(w: World, s: Step, id: ReaderId)
    requires Inv(w) && Enabled(w, s) && id in w.readers && w.readers[id].late == {}
    requires s.Commit? ==> forall row <- Rows(w.log, s.channel) :: row < s.id
    ensures id in Apply(w, s).readers && Apply(w, s).readers[id].late == {}
  {
    if s.Commit? {
      FrontierIsARow(w.log, w.readers[id]);
    } else {
      OnlyCommitsComeLate(w, s, id);
    }
  }

  lemma InOrderReadersSeeEveryRow(start: World, steps: seq<Step>, w: World, id: ReaderId)
    requires Initial(start) && Run(start, steps) == Some(w) && CommitsInOrder(start, steps) && id in w.readers
    ensures var r := w.readers[id]; r.yielded <= Selected(Rows(w.log, r.channel), r.after)
    ensures var r := w.readers[id];
            Idle(w, id, Wait) && !WakePending(w, r) ==> r.yielded == Selected(Rows(w.log, r.channel), r.after)
  {
    InOrderNothingIsLate(start, steps);
    var r := w.readers[id];
    assert r in w.readers.Values;
    assert Rows(w.log, r.channel) - r.late == Rows(w.log, r.channel);
    YieldedIsAPrefix(start, steps, w, id);
    if Idle(w, id, Wait) && !WakePending(w, r) {
      QuietReadersAreCaughtUp(start, steps, w, id);
    }
  }
}
