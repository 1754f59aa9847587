/** The life of one room id as the realtime instances, Redis and the sfu nodes
    drive it. Every Redis command, every sfu request and every piece of local
    bookkeeping between two awaits is one event; any sequence of events is a
    run, because an event whose turn has not come changes nothing.

    `h` and `cameFrom` only remember; no transition reads them. */
module RoomProtocol {
  import opened Wrappers

  type PeerId = int
  type Node = int
  type Instance = int

  /** Producer ids are unique across peers, so an id determines its owner. */
  datatype ProducerId = ProducerId(owner: PeerId, serial: int)

  /** One joiner's read of one other peer's producers. */
  datatype Look = Look(reader: PeerId, owner: PeerId)

  /** Where a socket's handlers are: `join`, then the session, then `leave`. */
  datatype Pc =
    // join: getOrCreateRoom
    | GetRoom
    | RefreshRoom
    | MissedRoom
    | AwaitRoom(creator: PeerId)
    // join: addPeer, getOtherPeers, getProducers
    | AddPeer
    | ExpirePeers
    | ReadPeers
    | FetchProducers(others: set<PeerId>, done: set<PeerId>)
    // join: the catch block
    | UndoPeer
    | UndoProducers
    | Rejected
    // the gateway's share of join
    | JoinSocket
    | Announce
    | Joined
    // leave
    | LeaveGet
    | LeavePeer(node: Node)
    | LeaveProducers(node: Node)
    | LeaveSfu(node: Node)
    | LeaveCheck(node: Node)
    | LeaveKeys(node: Node)
    | LeaveScript(node: Node, keys: set<PeerId>)
    | LeaveClean(node: Node, keys: set<PeerId>)
    | SfuClose(node: Node)
    | Left

  datatype Client = Client(instance: Instance, pc: Pc)

  datatype Creation = Picking | Creating(node: Node) | Recording(node: Node) | Created | Failed

  datatype Kind = Transport | Producer

  datatype RequestPc = CheckPeer | ResolveNode | CallSfu(node: Node) | Record | Broadcast | Answered | Refused

  datatype Request = Request(kind: Kind, pc: RequestPc)

  /** A fire-and-forget close of the MediaRoom: the peers whose removal had been
      tried when it was sent, and whether it arrived. */
  datatype SentClose = SentClose(tried: set<PeerId>, arrived: bool)

  datatype History = History(
    clock: int,
    added: map<PeerId, int>,             // when the peer's HSET ran
    removed: map<PeerId, int>,           // when the peer's HDEL ran
    read: map<PeerId, int>,              // when the joiner read the peers hash
    fetched: map<Look, int>,             // when a joiner read another peer's producers
    socket: map<PeerId, int>,            // when the joiner's socket entered the room
    announced: map<PeerId, int>,         // when newPeer was emitted for the joiner
    recorded: map<ProducerId, int>,      // when addProducer ran
    cast: map<ProducerId, int>,          // when newProducer was broadcast
    tried: set<PeerId>,                  // whose sfu removal was sent and answered, or lost
    lost: set<PeerId>,                   // whose sfu removal never arrived
    closes: map<PeerId, SentClose>)      // whose leave sent a close to the sfu

  datatype State = State(
    // Redis
    room: Option<Node>,
    peers: set<PeerId>,
    producers: map<PeerId, set<ProducerId>>,
    // the sfu nodes: the peers of this room's MediaRoom, where there is one
    mediaRooms: map<Node, set<PeerId>>,
    // the realtime instances
    pendingRooms: map<Instance, PeerId>,
    creations: map<PeerId, Creation>,
    clients: map<PeerId, Client>,
    requests: map<ProducerId, Request>,
    stray: map<PeerId, set<PeerId>>,     // deletions of a leave that has thrown, still on their way
    existingPeers: map<PeerId, set<PeerId>>,
    existingProducers: map<Look, set<ProducerId>>,
    // socket.io
    sockets: set<PeerId>,
    producerNews: map<PeerId, set<ProducerId>>,
    peerNews: map<PeerId, set<PeerId>>,
    h: History,
    cameFrom: map<PeerId, Pc>)           // where each handler was before its last move

  const NOTHING := History(0, map[], map[], map[], map[], map[], map[], map[], map[], {}, {}, map[])

  const INIT := State(None, {}, map[], map[], map[], map[], map[], map[], map[], map[], map[], {}, map[], map[],
                      NOTHING, map[])

  datatype Event =
    | Connect(p: PeerId, instance: Instance)
    | Exec(p: PeerId)
    | Fail(p: PeerId)
    | Fetch(p: PeerId, other: PeerId)
    | Clean(p: PeerId, other: PeerId)
    | FailClean(p: PeerId, other: PeerId)
    | Disconnect(p: PeerId)
    | PickNode(p: PeerId, node: Node)
    | ExecCreation(p: PeerId)
    | FailCreation(p: PeerId)
    | Ask(r: ProducerId, kind: Kind)
    | Serve(r: ProducerId)
    | FailRequest(r: ProducerId)

  // ----- Redis commands and the other shared effects -----

  function Goto(s: State, p: PeerId, c: Client, pc: Pc): State {
    s.(clients := s.clients[p := Client(c.instance, pc)], cameFrom := s.cameFrom[p := c.pc])
  }

  /** HSET room:<id>:peers */
  function AddToPeers(s: State, p: PeerId): State {
    s.(peers := s.peers + {p},
       h := s.h.(added := s.h.added[p := s.h.clock], clock := s.h.clock + 1))
  }

  /** HDEL room:<id>:peers */
  function RemoveFromPeers(s: State, p: PeerId): State {
    s.(peers := s.peers - {p},
       h := s.h.(removed := s.h.removed[p := s.h.clock], clock := s.h.clock + 1))
  }

  /** HGETALL room:<id>:peers, minus the caller */
  function ReadOthers(s: State, p: PeerId): State {
    s.(existingPeers := s.existingPeers[p := s.peers - {p}],
       h := s.h.(read := s.h.read[p := s.h.clock], clock := s.h.clock + 1))
  }

  function ProducersOf(s: State, o: PeerId): set<ProducerId> {
    if o in s.producers then s.producers[o] else {}
  }

  /** HGETALL peer:<id>:<other>:producers */
  function FetchFrom(s: State, p: PeerId, o: PeerId): State {
    s.(existingProducers := s.existingProducers[Look(p, o) := ProducersOf(s, o)],
       h := s.h.(fetched := s.h.fetched[Look(p, o) := s.h.clock], clock := s.h.clock + 1))
  }

  /** DEL peer:<id>:<peer>:producers */
  function DropProducers(s: State, o: PeerId): State {
    s.(producers := s.producers - {o})
  }

  /** HSET peer:<id>:<peer>:producers */
  function AddProducer(s: State, r: ProducerId): State {
    s.(producers := s.producers[r.owner := ProducersOf(s, r.owner) + {r}],
       h := s.h.(recorded := s.h.recorded[r := s.h.clock], clock := s.h.clock + 1))
  }

  /** The Lua script: DEL both keys if HLEN is 0. It answers 1 exactly when the
      hash was empty, also when there was nothing left to delete. */
  function CloseIfEmpty(s: State): State {
    if s.peers == {} then s.(peers := {}, room := None) else s
  }

  /** client.join(roomId) */
  function EnterSocketRoom(s: State, p: PeerId): State {
    s.(sockets := s.sockets + {p}, producerNews := s.producerNews[p := {}], peerNews := s.peerNews[p := {}],
       h := s.h.(socket := s.h.socket[p := s.h.clock], clock := s.h.clock + 1))
  }

  /** The producers the joiner was handed by its own reads. */
  function Backfill(s: State, p: PeerId): set<ProducerId> {
    if p !in s.existingPeers then {} else
    set o, r | o in s.existingPeers[p] && Look(p, o) in s.existingProducers && r in s.existingProducers[Look(p, o)] :: r
  }

  /** client.to(roomId).emit: everybody in the socket room but the sender. */
  function Tell<T>(news: map<PeerId, set<T>>, sockets: set<PeerId>, sender: PeerId, item: T): (r: map<PeerId, set<T>>)
    ensures r.Keys == news.Keys
  {
    map q | q in news :: if q in sockets && q != sender then news[q] + {item} else news[q]
  }

  function NewsOf(s: State, p: PeerId): set<ProducerId> {
    if p in s.producerNews then s.producerNews[p] else {}
  }

  /** newPeer to everybody else in the socket room, the backfill to the joiner */
  function AnnouncePeer(s: State, p: PeerId): State {
    s.(peerNews := Tell(s.peerNews, s.sockets, p, p),
       producerNews := s.producerNews[p := NewsOf(s, p) + Backfill(s, p)],
       h := s.h.(announced := s.h.announced[p := s.h.clock], clock := s.h.clock + 1))
  }

  /** newProducer to everybody else in the socket room */
  function BroadcastProducer(s: State, r: ProducerId): State {
    s.(producerNews := Tell(s.producerNews, s.sockets, r.owner, r),
       h := s.h.(cast := s.h.cast[r := s.h.clock], clock := s.h.clock + 1))
  }

  /** DELETE /media-rooms/<id>/peers/<peer> */
  function SfuRemovePeer(s: State, n: Node, p: PeerId): State {
    s.(mediaRooms := if n in s.mediaRooms then s.mediaRooms[n := s.mediaRooms[n] - {p}] else s.mediaRooms,
       h := s.h.(tried := s.h.tried + {p}))
  }

  function NoteClose(h: History, p: PeerId, arrived: bool): History {
    h.(closes := h.closes[p := SentClose(h.tried, arrived)])
  }

  /** DELETE /media-rooms/<id>: only an empty MediaRoom closes */
  function SfuCloseRoom(s: State, n: Node, p: PeerId): State {
    s.(mediaRooms := if n in s.mediaRooms && s.mediaRooms[n] == {} then s.mediaRooms - {n} else s.mediaRooms,
       h := NoteClose(s.h, p, true))
  }

  /** PUT /media-rooms/<id> */
  function SfuCreateOrGet(s: State, n: Node): State {
    if n in s.mediaRooms then s else s.(mediaRooms := s.mediaRooms[n := {}])
  }

  /** POST /media-rooms/<id>/peers/<peer>/transports */
  function SfuCreateTransport(s: State, n: Node, p: PeerId): State {
    if n in s.mediaRooms then s.(mediaRooms := s.mediaRooms[n := s.mediaRooms[n] + {p}]) else s
  }

  // ----- The handlers, one command at a time -----

  /** join: getOrCreateRoom. A missing room is created once per instance; the
      sockets of that instance that miss it meanwhile wait for the same creation. */
  function ExecLookup(s: State, p: PeerId, c: Client): State {
    match c.pc
    case GetRoom => Goto(s, p, c, if s.room.Some? then RefreshRoom else MissedRoom)
    case RefreshRoom => Goto(s, p, c, AddPeer)
    case MissedRoom =>
      if c.instance in s.pendingRooms then Goto(s, p, c, AwaitRoom(s.pendingRooms[c.instance]))
      else Goto(StartCreation(s, p, c.instance), p, c, AwaitRoom(p))
    case AwaitRoom(creator) => if creator in s.creations then Resume(s, p, c, s.creations[creator]) else s
    case _ => s
  }

  function StartCreation(s: State, p: PeerId, i: Instance): State {
    s.(creations := s.creations[p := Picking], pendingRooms := s.pendingRooms[i := p])
  }

  /** The awaited creation settled; its own caller forgets the pending entry. */
  function Resume(s: State, p: PeerId, c: Client, creation: Creation): State {
    var s' := if c.pc == AwaitRoom(p) then s.(pendingRooms := s.pendingRooms - {c.instance}) else s;
    match creation
    case Created => Goto(s', p, c, AddPeer)
    case Failed => Goto(s', p, c, Rejected)
    case _ => s
  }

  /** join: addPeer, getOtherPeers, and the rollback */
  function ExecEnter(s: State, p: PeerId, c: Client): State {
    match c.pc
    case AddPeer => Goto(AddToPeers(s, p), p, c, ExpirePeers)
    case ExpirePeers => Goto(s, p, c, ReadPeers)
    case ReadPeers => Goto(ReadOthers(s, p), p, c, FetchProducers(s.peers - {p}, {}))
    case FetchProducers(others, done) => if done == others then Goto(s, p, c, JoinSocket) else s
    case UndoPeer => Goto(RemoveFromPeers(s, p), p, c, UndoProducers)
    case UndoProducers => Goto(DropProducers(s, p), p, c, Rejected)
    case _ => s
  }

  /** the gateway once join has resolved */
  function ExecGateway(s: State, p: PeerId, c: Client): State {
    match c.pc
    case JoinSocket => Goto(EnterSocketRoom(s, p), p, c, Announce)
    case Announce => Goto(AnnouncePeer(s, p), p, c, Joined)
    case _ => s
  }

  /** leave, up to the sfu removal */
  function ExecDepart(s: State, p: PeerId, c: Client): State {
    match c.pc
    case LeaveGet => Goto(s, p, c, if s.room.Some? then LeavePeer(s.room.value) else Left)
    case LeavePeer(n) => Goto(RemoveFromPeers(s, p), p, c, LeaveProducers(n))
    case LeaveProducers(n) => Goto(DropProducers(s, p), p, c, LeaveSfu(n))
    case LeaveSfu(n) => Goto(SfuRemovePeer(s, n, p), p, c, LeaveCheck(n))
    case _ => s
  }

  /** leave: isEmpty, closeRoom and the fire-and-forget sfu close */
  function ExecClose(s: State, p: PeerId, c: Client): State {
    match c.pc
    case LeaveCheck(n) => Goto(s, p, c, if s.peers == {} then LeaveKeys(n) else Left)
    case LeaveKeys(n) => Goto(s, p, c, LeaveScript(n, s.peers))
    case LeaveScript(n, keys) =>
      Goto(CloseIfEmpty(s), p, c, if s.peers == {} then LeaveClean(n, keys) else Left)
    case LeaveClean(n, keys) => if keys == {} then Goto(s, p, c, SfuClose(n)) else s
    case SfuClose(n) => Goto(SfuCloseRoom(s, n, p), p, c, Left)
    case _ => s
  }

  predicate LookingUp(pc: Pc) {
    pc.GetRoom? || pc.RefreshRoom? || pc.MissedRoom? || pc.AwaitRoom?
  }

  predicate Departing(pc: Pc) {
    pc.LeaveGet? || pc.LeavePeer? || pc.LeaveProducers? || pc.LeaveSfu?
  }

  predicate Closing(pc: Pc) {
    pc.LeaveCheck? || pc.LeaveKeys? || pc.LeaveScript? || pc.LeaveClean? || pc.SfuClose?
  }

  predicate InGateway(pc: Pc) {
    pc.JoinSocket? || pc.Announce?
  }

  function ExecClient(s: State, p: PeerId, c: Client): State {
    if LookingUp(c.pc) then ExecLookup(s, p, c)
    else if Departing(c.pc) then ExecDepart(s, p, c)
    else if Closing(c.pc) then ExecClose(s, p, c)
    else if InGateway(c.pc) then ExecGateway(s, p, c)
    else ExecEnter(s, p, c)
  }

  /** Where a handler goes when its pending command is rejected unexecuted; which of
      several deletions is rejected, FailClean says. */
  function AfterFailure(pc: Pc): Pc {
    match pc
    case GetRoom => Rejected
    case RefreshRoom => Rejected
    case AddPeer => Rejected
    case ExpirePeers => Rejected
    case ReadPeers => UndoPeer
    case FetchProducers(_, _) => UndoPeer
    case UndoPeer => Rejected
    case UndoProducers => Rejected
    case LeaveSfu(n) => LeaveCheck(n)
    case LeaveClean(_, _) => pc
    case _ => if Departing(pc) || Closing(pc) then Left else pc
  }

  /** What is remembered of a request to the sfu that got lost. */
  function NoteFailure(h: History, p: PeerId, pc: Pc): History {
    match pc
    case LeaveSfu(_) => h.(tried := h.tried + {p}, lost := h.lost + {p})
    case SfuClose(_) => NoteClose(h, p, false)
    case _ => h
  }

  function FailClient(s: State, p: PeerId, c: Client): State {
    if AfterFailure(c.pc) == c.pc then s else Goto(s.(h := NoteFailure(s.h, p, c.pc)), p, c, AfterFailure(c.pc))
  }

  function FetchOne(s: State, p: PeerId, c: Client, o: PeerId): State {
    match c.pc
    case FetchProducers(others, done) =>
      if o in others - done then Goto(FetchFrom(s, p, o), p, c, FetchProducers(others, done + {o})) else s
    case _ => s
  }

  function CleanOne(s: State, p: PeerId, c: Client, o: PeerId): State {
    match c.pc
    case LeaveClean(n, keys) =>
      if o in keys then Goto(DropProducers(s, o), p, c, LeaveClean(n, keys - {o})) else s
    case Left => if o in StrayOf(s, p) then LandStray(s, p, o) else s
    case _ => s
  }

  function StrayOf(s: State, p: PeerId): set<PeerId> {
    if p in s.stray then s.stray[p] else {}
  }

  /** A deletion lands that nobody waits for any more. */
  function LandStray(s: State, p: PeerId, o: PeerId): State {
    DropProducers(s, o).(stray := s.stray[p := StrayOf(s, p) - {o}])
  }

  /** The deletions went out together: the first that is rejected ends the leave, and
      the others are still on their way. */
  function FailCleanOne(s: State, p: PeerId, c: Client, o: PeerId): State {
    match c.pc
    case LeaveClean(n, keys) => if o in keys then Goto(s.(stray := s.stray[p := keys - {o}]), p, c, Left) else s
    case _ => s
  }

  function StepCreation(s: State, e: Event, p: PeerId, creation: Creation): State {
    match creation
    case Picking => if e.PickNode? then s.(creations := s.creations[p := Creating(e.node)]) else s
    case Creating(n) =>
      if e.ExecCreation? then SfuCreateOrGet(s, n).(creations := s.creations[p := Recording(n)]) else s
    case Recording(n) =>
      if e.ExecCreation? then s.(room := Some(n), creations := s.creations[p := Created]) else s
    case _ => s
  }

  function Advance(s: State, r: ProducerId, q: Request, pc: RequestPc): State {
    s.(requests := s.requests[r := Request(q.kind, pc)])
  }

  /** createWebRtcTransport and produce: getPeer, resolveSfuNodeUrl, the sfu call,
      then for a producer its record and its broadcast */
  function ExecRequest(s: State, r: ProducerId, q: Request): State {
    match q.pc
    case CheckPeer => Advance(s, r, q, if r.owner in s.peers then ResolveNode else Refused)
    case ResolveNode => Advance(s, r, q, if s.room.Some? then CallSfu(s.room.value) else Refused)
    case CallSfu(n) =>
      if n !in s.mediaRooms then Advance(s, r, q, Refused)
      else if q.kind.Transport? then Advance(SfuCreateTransport(s, n, r.owner), r, q, Answered)
      else Advance(s, r, q, Record)
    case Record => Advance(AddProducer(s, r), r, q, Broadcast)
    case Broadcast => Advance(BroadcastProducer(s, r), r, q, Answered)
    case _ => s
  }

  function StepClient(s: State, e: Event, p: PeerId, c: Client): State {
    match e
    case Exec(_) => ExecClient(s, p, c)
    case Fail(_) => FailClient(s, p, c)
    case Fetch(_, o) => FetchOne(s, p, c, o)
    case Clean(_, o) => CleanOne(s, p, c, o)
    case FailClean(_, o) => FailCleanOne(s, p, c, o)
    case Disconnect(_) => if c.pc.Joined? then Goto(s.(sockets := s.sockets - {p}), p, c, LeaveGet) else s
    case _ => s
  }

  function StepRequest(s: State, e: Event, r: ProducerId, q: Request): State {
    match e
    case Serve(_) => ExecRequest(s, r, q)
    case FailRequest(_) => if q.pc.Answered? then s else Advance(s, r, q, Refused)
    case _ => s
  }

  function Step(s: State, e: Event): State {
    match e
    case Connect(p, instance) => if p in s.clients then s else Goto(s, p, Client(instance, GetRoom), GetRoom)
    case Ask(r, kind) =>
      if r !in s.requests && r.owner in s.clients && s.clients[r.owner].pc.Joined?
      then Advance(s, r, Request(kind, CheckPeer), CheckPeer) else s
    case Serve(r) => if r in s.requests then StepRequest(s, e, r, s.requests[r]) else s
    case FailRequest(r) => if r in s.requests then StepRequest(s, e, r, s.requests[r]) else s
    case PickNode(p, _) => if p in s.creations then StepCreation(s, e, p, s.creations[p]) else s
    case ExecCreation(p) => if p in s.creations then StepCreation(s, e, p, s.creations[p]) else s
    case FailCreation(p) =>
      if p in s.creations && !s.creations[p].Created? then s.(creations := s.creations[p := Failed]) else s
    case _ => if e.p in s.clients then StepClient(s, e, e.p, s.clients[e.p]) else s
  }

  function After(s: State, es: seq<Event>): State {
    if es == [] then s else Step(After(s, es[..|es| - 1]), es[|es| - 1])
  }

  /** `t` is what the run `es` makes of `s`. */
  ghost predicate Leads(s: State, es: seq<Event>, t: State) {
    t == After(s, es)
  }

  /** Some run of the protocol ends in `s`. */
  ghost predicate Reachable(s: State) {
    exists es :: Leads(INIT, es, s)
  }

  lemma SomeMember(peers: set<PeerId>)
    ensures peers == {} || exists p :: p in peers
  {
    if forall p :: p !in peers {
      assert peers == {};
    }
  }
}
