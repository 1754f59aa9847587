/** One sfu process: MediaRoomsService, the MediaRoom and MediaPeer objects and
    the load counters. The process runs one stretch of code at a time and is
    interrupted only where it awaits the router, the transport, a creation or
    the stop of a recording; each stretch between two awaits is one event.

    Objects are told apart by their reference, not by their id, so a peer that
    is removed and created again is another peer. `madeFor` and `creator` only
    remember; no transition reads them. */
module SfuRooms {
  import opened Wrappers

  type RoomId = int
  type PeerId = int
  type Worker = int
  type Ref = int          // a MediaRoom with its Router
  type PeerRef = int      // a MediaPeer
  type Transport = int
  type Call = int         // one running call of a service method

  datatype Creation = CreatingRouter(worker: Worker) | Resolved(room: Ref) | Rejected

  datatype Caller = Waiting(creation: Call) | Got(via: Option<Call>, room: Ref) | Threw

  datatype Direction = Send | Recv

  datatype Slots = Slots(send: Option<Transport>, recv: Option<Transport>) {
    function In(d: Direction): Option<Transport> {
      if d.Send? then send else recv
    }

    function With(d: Direction, t: Transport): Slots {
      if d.Send? then this.(send := Some(t)) else this.(recv := Some(t))
    }
  }

  /** A createTransport call that awaits its WebRtcTransport. */
  datatype Pending = Pending(room: Ref, peerId: PeerId, peer: PeerRef, existed: bool, direction: Direction)

  datatype Sfu = Sfu(
    // WorkerPoolService
    routersPerWorker: map<Worker, int>,
    // MediaRoomsService
    rooms: map<RoomId, Ref>,
    pendingRooms: map<RoomId, Call>,
    creations: map<Call, Creation>,
    wanted: map<Call, RoomId>,           // the room id of a creation
    callers: map<Call, Caller>,
    // MediaRoom objects
    idOf: map<Ref, RoomId>,
    workerOf: map<Ref, Worker>,
    peersOf: map<Ref, map<PeerId, PeerRef>>,
    recording: set<Ref>,
    closed: set<Ref>,
    // MediaPeer objects and their transports
    slots: map<PeerRef, Slots>,
    open: map<Transport, Ref>,
    // calls in flight
    transports: map<Call, Pending>,
    closes: map<Call, Ref>,
    // the next unused reference
    next: int,
    madeFor: map<Transport, Pending>,
    creator: map<PeerRef, Call>)

  datatype Event =
    | GetOrCreateRoom(call: Call, id: RoomId, worker: Worker)
    | RouterCreated(call: Call)
    | RouterFailed(call: Call)
    | Settle(call: Call)
    | CreateTransport(call: Call, id: RoomId, peerId: PeerId, direction: Direction)
    | TransportCreated(call: Call)
    | TransportFailed(call: Call)
    | RemovePeer(id: RoomId, peerId: PeerId)
    | SetRecording(id: RoomId, on: bool)
    | CloseRoom(call: Call, id: RoomId)
    | RecordingStopped(call: Call)
    | RecordingStopFailed(call: Call)

  function Init(workers: set<Worker>): Sfu {
    Sfu(map w | w in workers :: 0, map[], map[], map[], map[], map[], map[], map[], map[], {}, {}, map[], map[],
        map[], map[], 0, map[], map[])
  }

  predicate LeastLoaded(load: map<Worker, int>, w: Worker) {
    w in load && forall v | v in load :: load[w] <= load[v]
  }

  function Book(load: map<Worker, int>, w: Worker): map<Worker, int> {
    if w in load then load[w := load[w] + 1] else load
  }

  /** trackRouterClosed, clamp included */
  function Release(load: map<Worker, int>, w: Worker): map<Worker, int> {
    if w in load then load[w := if load[w] - 1 > 0 then load[w] - 1 else 0] else load
  }

  // ----- Rooms -----

  function StartCreation(s: Sfu, k: Call, id: RoomId, w: Worker): Sfu {
    s.(routersPerWorker := Book(s.routersPerWorker, w),
       creations := s.creations[k := if w in s.routersPerWorker then CreatingRouter(w) else Rejected],
       wanted := s.wanted[k := id], pendingRooms := s.pendingRooms[id := k], callers := s.callers[k := Waiting(k)])
  }

  /** `worker` is the allocator's choice; with no workers at all it throws. */
  function BeginGetOrCreate(s: Sfu, k: Call, id: RoomId, w: Worker): Sfu {
    if id in s.rooms then s.(callers := s.callers[k := Got(None, s.rooms[id])])
    else if id in s.pendingRooms then s.(callers := s.callers[k := Waiting(s.pendingRooms[id])])
    else if LeastLoaded(s.routersPerWorker, w) || s.routersPerWorker == map[] then StartCreation(s, k, id, w)
    else s
  }

  /** new MediaRoom, rooms.set */
  function RegisterRoom(s: Sfu, k: Call, id: RoomId, w: Worker): Sfu {
    s.(creations := s.creations[k := Resolved(s.next)], rooms := s.rooms[id := s.next],
       idOf := s.idOf[s.next := id], workerOf := s.workerOf[s.next := w], peersOf := s.peersOf[s.next := map[]],
       next := s.next + 1)
  }

  function AbandonCreation(s: Sfu, k: Call, w: Worker): Sfu {
    s.(creations := s.creations[k := Rejected], routersPerWorker := Release(s.routersPerWorker, w))
  }

  function Forget(pending: map<RoomId, Call>, wanted: map<Call, RoomId>, k: Call, c: Call): map<RoomId, Call> {
    if c == k && k in wanted then pending - {wanted[k]} else pending
  }

  function Outcome(c: Call, creation: Creation): Caller {
    if creation.Resolved? then Got(Some(c), creation.room) else Threw
  }

  /** A caller of getOrCreateRoom resumes; the creator forgets the pending entry. */
  function ResumeCaller(s: Sfu, k: Call, c: Call, creation: Creation): Sfu {
    if creation.CreatingRouter? then s
    else s.(pendingRooms := Forget(s.pendingRooms, s.wanted, k, c), callers := s.callers[k := Outcome(c, creation)])
  }

  /** Closing a router closes its transports. */
  function TakeDown(open: map<Transport, Ref>, r: Ref): map<Transport, Ref> {
    map t | t in open && open[t] != r :: open[t]
  }

  /** router.close, trackRouterClosed, rooms.delete */
  function CloseNow(s: Sfu, r: Ref, id: RoomId, w: Worker, closes: map<Call, Ref>): Sfu {
    s.(closed := s.closed + {r}, open := TakeDown(s.open, r), closes := closes,
       routersPerWorker := Release(s.routersPerWorker, w), rooms := s.rooms - {id})
  }

  function BeginClose(s: Sfu, k: Call, r: Ref): Sfu {
    if r !in s.peersOf || r !in s.idOf || r !in s.workerOf || s.peersOf[r] != map[] then s
    else if r in s.recording then s.(recording := s.recording - {r}, closes := s.closes[k := r])
    else CloseNow(s, r, s.idOf[r], s.workerOf[r], s.closes)
  }

  function EndClose(s: Sfu, k: Call, r: Ref): Sfu {
    if r !in s.idOf || r !in s.workerOf then s
    else CloseNow(s, r, s.idOf[r], s.workerOf[r], s.closes - {k})
  }

  // ----- Peers and transports -----

  function Close(open: map<Transport, Ref>, t: Option<Transport>): map<Transport, Ref> {
    if t.Some? then open - {t.value} else open
  }

  function SlotsOf(s: Sfu, x: PeerRef): Slots {
    if x in s.slots then s.slots[x] else Slots(None, None)
  }

  function PeersIn(s: Sfu, r: Ref): map<PeerId, PeerRef> {
    if r in s.peersOf then s.peersOf[r] else map[]
  }

  /** MediaRoom.removePeer */
  function Evict(s: Sfu, r: Ref, p: PeerId): Sfu {
    var peers := PeersIn(s, r);
    if p !in peers then s
    else s.(open := Close(Close(s.open, SlotsOf(s, peers[p]).send), SlotsOf(s, peers[p]).recv),
            peersOf := s.peersOf[r := peers - {p}])
  }

  /** MediaRoom.getOrCreatePeer, when there is no such peer yet */
  function AddPeer(s: Sfu, k: Call, r: Ref, p: PeerId, d: Direction): Sfu {
    s.(peersOf := s.peersOf[r := PeersIn(s, r)[p := s.next]], slots := s.slots[s.next := Slots(None, None)],
       creator := s.creator[s.next := k], transports := s.transports[k := Pending(r, p, s.next, false, d)],
       next := s.next + 1)
  }

  function BeginTransport(s: Sfu, k: Call, r: Ref, p: PeerId, d: Direction): Sfu {
    var peers := PeersIn(s, r);
    if p in peers then s.(transports := s.transports[k := Pending(r, p, peers[p], true, d)])
    else AddPeer(s, k, r, p, d)
  }

  predicate Current(s: Sfu, q: Pending) {
    var peers := PeersIn(s, q.room);
    q.peerId in peers && peers[q.peerId] == q.peer
  }

  /** The slot's previous transport is closed and the new one takes its place. */
  function Install(s: Sfu, q: Pending, t: Transport): Sfu {
    s.(open := Close(s.open, SlotsOf(s, q.peer).In(q.direction))[t := q.room],
       slots := s.slots[q.peer := SlotsOf(s, q.peer).With(q.direction, t)],
       madeFor := s.madeFor[t := q], next := t + 1)
  }

  /** A transport whose peer is gone, or is another one by now, is closed at once. */
  function EndTransport(s: Sfu, k: Call, q: Pending): Sfu {
    var s' := s.(transports := s.transports - {k});
    if Current(s, q) then Install(s', q, s.next) else s'
  }

  function FailTransport(s: Sfu, k: Call, q: Pending): Sfu {
    var s' := if q.existed then s else Evict(s, q.room, q.peerId);
    s'.(transports := s'.transports - {k})
  }

  function Step(s: Sfu, e: Event): Sfu {
    match e
    case GetOrCreateRoom(k, id, w) => if k in s.callers || k in s.creations then s else BeginGetOrCreate(s, k, id, w)
    case RouterCreated(k) =>
      if k in s.creations && k in s.wanted && s.creations[k].CreatingRouter?
      then RegisterRoom(s, k, s.wanted[k], s.creations[k].worker) else s
    case RouterFailed(k) =>
      if k in s.creations && s.creations[k].CreatingRouter? then AbandonCreation(s, k, s.creations[k].worker) else s
    case Settle(k) =>
      if k in s.callers && s.callers[k].Waiting? && s.callers[k].creation in s.creations
      then ResumeCaller(s, k, s.callers[k].creation, s.creations[s.callers[k].creation]) else s
    case CreateTransport(k, id, p, d) =>
      if k !in s.transports && k !in s.creator.Values && id in s.rooms
      then BeginTransport(s, k, s.rooms[id], p, d) else s
    case TransportCreated(k) => if k in s.transports then EndTransport(s, k, s.transports[k]) else s
    case TransportFailed(k) => if k in s.transports then FailTransport(s, k, s.transports[k]) else s
    case RemovePeer(id, p) => if id in s.rooms then Evict(s, s.rooms[id], p) else s
    case SetRecording(id, on) =>
      if id !in s.rooms then s
      else s.(recording := if on then s.recording + {s.rooms[id]} else s.recording - {s.rooms[id]})
    case CloseRoom(k, id) => if k !in s.closes && id in s.rooms then BeginClose(s, k, s.rooms[id]) else s
    case RecordingStopped(k) => if k in s.closes then EndClose(s, k, s.closes[k]) else s
    case RecordingStopFailed(k) => s.(closes := s.closes - {k})
  }

  function After(s: Sfu, es: seq<Event>): Sfu {
    if es == [] then s else Step(After(s, es[..|es| - 1]), es[|es| - 1])
  }

  /** closeRoom awaits while a recording stops, and then closes the room without
      looking at it again. What a run may be asked to leave out: two things that
      callers may do meanwhile, and what the second look would have found. */
  datatype Proviso =
    | AnyRun
    | OneClose      // no closeRoom for a room whose close awaits
    | NoLateJoin    // no createTransport for a room whose close awaits
    | OpenAtClose   // no close resumes on a room that is closed already
    | EmptyAtClose  // no close resumes on a room with somebody in it

  predicate Awaited(s: Sfu, id: RoomId) {
    id in s.rooms && s.rooms[id] in s.closes.Values
  }

  predicate Breaks(s: Sfu, e: Event, v: Proviso) {
    match v
    case AnyRun => false
    case OneClose => e.CloseRoom? && Awaited(s, e.id)
    case NoLateJoin => e.CreateTransport? && Awaited(s, e.id)
    case OpenAtClose => e.RecordingStopped? && e.call in s.closes && s.closes[e.call] in s.closed
    case EmptyAtClose => e.RecordingStopped? && e.call in s.closes && PeersIn(s, s.closes[e.call]) != map[]
  }

  predicate Follows(s: Sfu, es: seq<Event>, v: Proviso) {
    es == []
    || (Follows(s, es[..|es| - 1], v) && !Breaks(After(s, es[..|es| - 1]), es[|es| - 1], v))
  }

  /** A run with that proviso leads to `s`. */
  ghost predicate Leads(workers: set<Worker>, es: seq<Event>, s: Sfu, v: Proviso) {
    Follows(Init(workers), es, v) && s == After(Init(workers), es)
  }

  ghost predicate Reachable(s: Sfu, v: Proviso) {
    exists workers, es :: Leads(workers, es, s, v)
  }
}
