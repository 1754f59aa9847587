/** How a handler ended and what that says about its peer; who is in the socket room. */
module RoomEnds {
  import opened Wrappers
  import opened RoomProtocol
  import opened RoomInvariants
  import opened RoomTheorems
  import opened RoomFrames

  predicate End(pc: Pc) {
    pc.Rejected? || pc.Left?
  }

  /** Ending right here leaves the peer in the peers hash: the EXPIRE behind its
      HSET, which the rollback does not cover, the HDEL of the rollback, the GET
      of leave, which was rejected or found no record, or the HDEL of leave. */
  predicate Strands(pc: Pc) {
    pc.ExpirePeers? || pc.UndoPeer? || pc.LeaveGet? || pc.LeavePeer?
  }

  /** A join throws before its HSET, at its EXPIRE or in its rollback; a leave ends
      at any of its commands. */
  predicate EndsFrom(from: Pc, to: Pc) {
    if to.Rejected? then Outside(from) || from.ExpirePeers? || from.UndoPeer? || from.UndoProducers?
    else Departing(from) || Closing(from)
  }

  ghost predicate Ended(s: State, p: PeerId) {
    p in s.clients.Keys && End(s.clients[p].pc)
  }

  predicate InRoom(pc: Pc) {
    pc.Announce? || pc.Joined?
  }

  /** The socket is in the socket room exactly between its client.join and its disconnect. */
  ghost predicate Seated(s: State, p: PeerId) {
    p in s.sockets <==> p in s.clients.Keys && InRoom(s.clients[p].pc)
  }

  /** A handler that ended in this very step came from where it can end, and a step
      changes nothing about one that has ended. */
  ghost predicate Outcome(s: State, t: State, p: PeerId) {
    && (Seated(s, p) ==> Seated(t, p))
    && (p in t.clients.Keys ==> p in t.cameFrom.Keys)
    && (Ended(t, p) ==>
      && (p in s.peers <==> p in t.peers) && p in s.clients.Keys
      && (|| (s.clients[p].pc == t.clients[p].pc && p in s.cameFrom.Keys && t.cameFrom[p] == s.cameFrom[p])
          || (t.cameFrom[p] == s.clients[p].pc && EndsFrom(s.clients[p].pc, t.clients[p].pc))))
  }

  // ----- Whose membership a step changes -----

  ghost predicate OnlyOwnPeer(s: State, t: State, p: PeerId) {
    && (t.peers == s.peers || t.peers == s.peers + {p} || t.peers == s.peers - {p})
    && (t.sockets == s.sockets || t.sockets == s.sockets + {p} || t.sockets == s.sockets - {p})
  }

  ghost predicate SamePeers(s: State, t: State) {
    t.peers == s.peers && t.sockets == s.sockets
  }

  lemma GotoPeers(s: State, p: PeerId, c: Client, pc: Pc)
    ensures SamePeers(s, Goto(s, p, c, pc))
  {
  }

  lemma RedisPeers(s: State, p: PeerId)
    ensures AddToPeers(s, p).peers == s.peers + {p} && RemoveFromPeers(s, p).peers == s.peers - {p}
    ensures AddToPeers(s, p).sockets == s.sockets && RemoveFromPeers(s, p).sockets == s.sockets
    ensures SamePeers(s, ReadOthers(s, p)) && SamePeers(s, DropProducers(s, p))
  {
  }

  lemma ScriptPeers(s: State)
    ensures SamePeers(s, CloseIfEmpty(s))
  {
    if s.peers == {} {
    }
  }

  lemma SfuPeers(s: State, n: Node, p: PeerId)
    ensures SamePeers(s, SfuRemovePeer(s, n, p)) && SamePeers(s, SfuCloseRoom(s, n, p))
  {
    hide NoteClose;
  }

  lemma SocketPeers(s: State, p: PeerId)
    ensures EnterSocketRoom(s, p).peers == s.peers && EnterSocketRoom(s, p).sockets == s.sockets + {p}
    ensures SamePeers(s, AnnouncePeer(s, p))
  {
    hide Tell, Backfill, NewsOf;
  }

  lemma LookupPeers(s: State, p: PeerId, c: Client)
    ensures SamePeers(s, ExecLookup(s, p, c))
  {
    hide Goto;
    match c.pc
    case GetRoom => GotoPeers(s, p, c, if s.room.Some? then RefreshRoom else MissedRoom);
    case RefreshRoom => GotoPeers(s, p, c, AddPeer);
    case MissedRoom =>
      if c.instance in s.pendingRooms {
        GotoPeers(s, p, c, AwaitRoom(s.pendingRooms[c.instance]));
      } else {
        GotoPeers(StartCreation(s, p, c.instance), p, c, AwaitRoom(p));
      }
    case AwaitRoom(creator) =>
      if creator in s.creations {
        ResumePeers(s, p, c, s.creations[creator]);
      }
    case _ =>
  }

  lemma ResumePeers(s: State, p: PeerId, c: Client, creation: Creation)
    ensures SamePeers(s, Resume(s, p, c, creation))
  {
    hide Goto;
    var t := if c.pc == AwaitRoom(p) then s.(pendingRooms := s.pendingRooms - {c.instance}) else s;
    GotoPeers(t, p, c, AddPeer);
    GotoPeers(t, p, c, Rejected);
  }

  lemma EnterPeers(s: State, p: PeerId, c: Client)
    ensures OnlyOwnPeer(s, ExecEnter(s, p, c), p)
      {
    hide Goto, AddToPeers, RemoveFromPeers, ReadOthers, DropProducers;
    RedisPeers(s, p);
    match c.pc
    case AddPeer => GotoPeers(AddToPeers(s, p), p, c, ExpirePeers);
    case ExpirePeers => GotoPeers(s, p, c, ReadPeers);
    case ReadPeers => GotoPeers(ReadOthers(s, p), p, c, FetchProducers(s.peers - {p}, {}));
    case FetchProducers(_, _) => GotoPeers(s, p, c, JoinSocket);
    case UndoPeer => GotoPeers(RemoveFromPeers(s, p), p, c, UndoProducers);
    case UndoProducers => GotoPeers(DropProducers(s, p), p, c, Rejected);
    case _ =>
  }

  lemma DepartPeers(s: State, p: PeerId, c: Client)
    ensures OnlyOwnPeer(s, ExecDepart(s, p, c), p)
  {
    hide Goto, RemoveFromPeers, DropProducers, SfuRemovePeer;
    RedisPeers(s, p);
    match c.pc
    case LeaveGet => GotoPeers(s, p, c, if s.room.Some? then LeavePeer(s.room.value) else Left);
    case LeavePeer(n) => GotoPeers(RemoveFromPeers(s, p), p, c, LeaveProducers(n));
    case LeaveProducers(n) => GotoPeers(DropProducers(s, p), p, c, LeaveSfu(n));
    case LeaveSfu(n) => SfuPeers(s, n, p); GotoPeers(SfuRemovePeer(s, n, p), p, c, LeaveCheck(n));
    case _ =>
  }

  lemma ClosePeers(s: State, p: PeerId, c: Client)
    ensures SamePeers(s, ExecClose(s, p, c))
  {
    hide Goto, CloseIfEmpty, SfuCloseRoom;
    ScriptPeers(s);
    match c.pc
    case LeaveCheck(n) => GotoPeers(s, p, c, if s.peers == {} then LeaveKeys(n) else Left);
    case LeaveKeys(n) => GotoPeers(s, p, c, LeaveScript(n, s.peers));
    case LeaveScript(n, keys) =>
      GotoPeers(CloseIfEmpty(s), p, c, if s.peers == {} then LeaveClean(n, keys) else Left);
    case LeaveClean(n, _) => GotoPeers(s, p, c, SfuClose(n));
    case SfuClose(n) => SfuPeers(s, n, p); GotoPeers(SfuCloseRoom(s, n, p), p, c, Left);
    case _ =>
  }

  lemma GatewayPeers(s: State, p: PeerId, c: Client)
    ensures OnlyOwnPeer(s, ExecGateway(s, p, c), p)
  {
    hide Goto, EnterSocketRoom, AnnouncePeer;
    SocketPeers(s, p);
    match c.pc
    case JoinSocket => GotoPeers(EnterSocketRoom(s, p), p, c, Announce);
    case Announce => GotoPeers(AnnouncePeer(s, p), p, c, Joined);
    case _ =>
  }

  // ----- Steps of its own -----

  lemma NoMove(s: State, p: PeerId)
    requires p in s.cameFrom
    ensures Outcome(s, s, p)
  {
  }

  /** What the command did leaves all handlers' own state and the socket room alone. */
  ghost predicate Beside(s: State, t: State) {
    Aside(s, t) && t.sockets == s.sockets
  }

  ghost predicate SameMember(s: State, t: State, p: PeerId) {
    p in s.peers <==> p in t.peers
  }

  lemma RedisBeside(s: State, p: PeerId, o: PeerId)
    ensures Beside(s, s) && SameMember(s, s, p)
    ensures Beside(s, AddToPeers(s, p)) && Beside(s, RemoveFromPeers(s, p))
    ensures Beside(s, DropProducers(s, o)) && SameMember(s, DropProducers(s, o), p)
    ensures Beside(s, CloseIfEmpty(s)) && SameMember(s, CloseIfEmpty(s), p)
  {
    hide Aside, AddToPeers, RemoveFromPeers, DropProducers, CloseIfEmpty;
    SelfAside(s);
    RedisAside(s, p, ProducerId(p, 0));
    RedisAside(s, o, ProducerId(p, 0));
    RedisPeers(s, p);
    RedisPeers(s, o);
    ScriptPeers(s);
  }

  lemma SfuBeside(s: State, n: Node, p: PeerId)
    ensures Beside(s, SfuRemovePeer(s, n, p)) && Beside(s, SfuCloseRoom(s, n, p))
    ensures SameMember(s, SfuCloseRoom(s, n, p), p)
  {
    hide Aside, SfuRemovePeer, SfuCloseRoom;
    SfuAside(s, n, p);
    SfuPeers(s, n, p);
  }

  lemma PendingBeside(s: State, p: PeerId, pending: map<Instance, PeerId>)
    ensures Beside(s, s.(pendingRooms := pending)) && SameMember(s, s.(pendingRooms := pending), p)
  {
  }

  lemma HistoryBeside(s: State, p: PeerId, h: History)
    ensures Beside(s, s.(h := h)) && SameMember(s, s.(h := h), p)
  {
  }

  lemma SentBeside(s: State, p: PeerId, stray: map<PeerId, set<PeerId>>)
    ensures Beside(s, s.(stray := stray)) && SameMember(s, s.(stray := stray), p)
  {
  }

  lemma AnnounceBeside(s: State, p: PeerId)
    ensures Beside(s, AnnouncePeer(s, p))
  {
    hide Tell, Backfill, NewsOf;
  }

  /** Before the move, `t` is `s` but for what the command did. */
  lemma Move(s: State, t: State, p: PeerId, c: Client, pc: Pc)
    requires Beside(s, t) && p in s.clients && s.clients[p] == c && (InRoom(pc) <==> InRoom(c.pc))
    requires End(pc) ==> EndsFrom(c.pc, pc) && SameMember(s, t, p)
    ensures Outcome(s, Goto(t, p, c, pc), p)
  {
  }

  lemma LookupOutcome(s: State, p: PeerId, c: Client)
    requires p in s.clients && s.clients[p] == c && p in s.cameFrom
    ensures Outcome(s, ExecLookup(s, p, c), p)
  {
    hide Goto, Beside, SameMember, Outcome, StartCreation, Resume;
    RedisBeside(s, p, p);
    NoMove(s, p);
    match c.pc
    case GetRoom => Move(s, s, p, c, if s.room.Some? then RefreshRoom else MissedRoom);
    case RefreshRoom => Move(s, s, p, c, AddPeer);
    case MissedRoom =>
      if c.instance in s.pendingRooms {
        Move(s, s, p, c, AwaitRoom(s.pendingRooms[c.instance]));
      } else {
        NewCreation(s, p, c);
      }
    case AwaitRoom(creator) =>
      if creator in s.creations {
        ResumeOutcome(s, p, c, s.creations[creator]);
      }
    case _ =>
  }

  lemma NewCreation(s: State, p: PeerId, c: Client)
    requires p in s.clients && s.clients[p] == c && c.pc.MissedRoom?
    ensures Outcome(s, Goto(StartCreation(s, p, c.instance), p, c, AwaitRoom(p)), p)
  {
  }

  lemma ResumeOutcome(s: State, p: PeerId, c: Client, creation: Creation)
    requires p in s.clients && s.clients[p] == c && c.pc.AwaitRoom? && p in s.cameFrom
    ensures Outcome(s, Resume(s, p, c, creation), p)
  {
    hide Goto, Beside, SameMember, Outcome;
    var t := if c.pc == AwaitRoom(p) then s.(pendingRooms := s.pendingRooms - {c.instance}) else s;
    PendingBeside(s, p, s.pendingRooms - {c.instance});
    RedisBeside(s, p, p);
    NoMove(s, p);
    Move(s, t, p, c, AddPeer);
    Move(s, t, p, c, Rejected);
  }

  lemma EnterOutcome(s: State, p: PeerId, c: Client)
    requires p in s.clients && s.clients[p] == c && p in s.cameFrom
    ensures Outcome(s, ExecEnter(s, p, c), p)
  {
    hide Goto, Beside, SameMember, Outcome, AddToPeers, RemoveFromPeers, ReadOthers, DropProducers;
    RedisBeside(s, p, p);
    NoMove(s, p);
    match c.pc
    case AddPeer => Move(s, AddToPeers(s, p), p, c, ExpirePeers);
    case ExpirePeers => Move(s, s, p, c, ReadPeers);
    case ReadPeers => ReadMove(s, p, c, FetchProducers(s.peers - {p}, {}));
    case FetchProducers(others, done) =>
      if done == others {
        Move(s, s, p, c, JoinSocket);
      }
    case UndoPeer => Move(s, RemoveFromPeers(s, p), p, c, UndoProducers);
    case UndoProducers => Move(s, DropProducers(s, p), p, c, Rejected);
    case _ =>
  }

  lemma ReadMove(s: State, p: PeerId, c: Client, pc: Pc)
    requires p in s.clients && s.clients[p] == c && c.pc.ReadPeers? && pc.FetchProducers?
    ensures Outcome(s, Goto(ReadOthers(s, p), p, c, pc), p)
  {
  }

  lemma DepartOutcome(s: State, p: PeerId, c: Client)
    requires p in s.clients && s.clients[p] == c && p in s.cameFrom
    ensures Outcome(s, ExecDepart(s, p, c), p)
  {
    hide Goto, Beside, SameMember, Outcome, RemoveFromPeers, DropProducers, SfuRemovePeer;
    RedisBeside(s, p, p);
    NoMove(s, p);
    match c.pc
    case LeaveGet => Move(s, s, p, c, if s.room.Some? then LeavePeer(s.room.value) else Left);
    case LeavePeer(n) => Move(s, RemoveFromPeers(s, p), p, c, LeaveProducers(n));
    case LeaveProducers(n) => Move(s, DropProducers(s, p), p, c, LeaveSfu(n));
    case LeaveSfu(n) =>
      SfuBeside(s, n, p);
      Move(s, SfuRemovePeer(s, n, p), p, c, LeaveCheck(n));
    case _ =>
  }

  lemma CloseOutcome(s: State, p: PeerId, c: Client)
    requires p in s.clients && s.clients[p] == c && p in s.cameFrom
    ensures Outcome(s, ExecClose(s, p, c), p)
  {
    hide Goto, Beside, SameMember, Outcome, CloseIfEmpty, SfuCloseRoom;
    RedisBeside(s, p, p);
    NoMove(s, p);
    match c.pc
    case LeaveCheck(n) => Move(s, s, p, c, if s.peers == {} then LeaveKeys(n) else Left);
    case LeaveKeys(n) => Move(s, s, p, c, LeaveScript(n, s.peers));
    case LeaveScript(n, keys) => Move(s, CloseIfEmpty(s), p, c, if s.peers == {} then LeaveClean(n, keys) else Left);
    case LeaveClean(n, _) => Move(s, s, p, c, SfuClose(n));
    case SfuClose(n) =>
      SfuBeside(s, n, p);
      Move(s, SfuCloseRoom(s, n, p), p, c, Left);
    case _ =>
  }

  lemma Enters(s: State, p: PeerId, c: Client)
    requires p in s.clients && s.clients[p] == c
    ensures Outcome(s, Goto(EnterSocketRoom(s, p), p, c, Announce), p)
  {
  }

  lemma Exits(s: State, p: PeerId, c: Client)
    requires p in s.clients && s.clients[p] == c
    ensures Outcome(s, Goto(s.(sockets := s.sockets - {p}), p, c, LeaveGet), p)
  {
  }

  lemma GatewayOutcome(s: State, p: PeerId, c: Client)
    requires p in s.clients && s.clients[p] == c && p in s.cameFrom
    ensures Outcome(s, ExecGateway(s, p, c), p)
  {
    hide Goto, Beside, SameMember, Outcome, EnterSocketRoom, AnnouncePeer;
    AnnounceBeside(s, p);
    NoMove(s, p);
    match c.pc
    case JoinSocket => Enters(s, p, c);
    case Announce => Move(s, AnnouncePeer(s, p), p, c, Joined);
    case _ =>
  }

  lemma FailureEnds(pc: Pc)
    ensures End(AfterFailure(pc)) && AfterFailure(pc) != pc ==> EndsFrom(pc, AfterFailure(pc))
    ensures InRoom(AfterFailure(pc)) <==> InRoom(pc)
  {
  }

  lemma FailureOutcome(s: State, p: PeerId, c: Client)
    requires p in s.clients && s.clients[p] == c && p in s.cameFrom
    ensures Outcome(s, FailClient(s, p, c), p)
  {
    hide Goto, Beside, SameMember, Outcome, AfterFailure, NoteFailure, EndsFrom, End, InRoom;
    FailureEnds(c.pc);
    NoMove(s, p);
    HistoryBeside(s, p, NoteFailure(s.h, p, c.pc));
    if AfterFailure(c.pc) != c.pc {
      Move(s, s.(h := NoteFailure(s.h, p, c.pc)), p, c, AfterFailure(c.pc));
    }
  }

  lemma LoopOutcome(s: State, p: PeerId, c: Client, o: PeerId)
    requires p in s.clients && s.clients[p] == c && p in s.cameFrom
    ensures Outcome(s, FetchOne(s, p, c, o), p) && Outcome(s, CleanOne(s, p, c, o), p)
  {
    hide Goto, Beside, SameMember, Outcome, FetchFrom, DropProducers, LandStray, StrayOf;
    RedisBeside(s, p, o);
    NoMove(s, p);
    match c.pc
    case FetchProducers(others, done) => FetchMove(s, p, c, o, FetchProducers(others, done + {o}));
    case LeaveClean(n, keys) => Move(s, DropProducers(s, o), p, c, LeaveClean(n, keys - {o}));
    case Left => StrayOutcome(s, p, o);
    case _ =>
  }

  lemma StrayOutcome(s: State, p: PeerId, o: PeerId)
    requires p in s.cameFrom
    ensures Outcome(s, LandStray(s, p, o), p)
  {
    hide StrayOf;
  }

  lemma FailCleanOutcome(s: State, p: PeerId, c: Client, o: PeerId)
    requires p in s.clients && s.clients[p] == c && p in s.cameFrom
    ensures Outcome(s, FailCleanOne(s, p, c, o), p)
  {
    hide Goto, Beside, SameMember, Outcome;
    NoMove(s, p);
    match c.pc
    case LeaveClean(n, keys) =>
      SentBeside(s, p, s.stray[p := keys - {o}]);
      Move(s, s.(stray := s.stray[p := keys - {o}]), p, c, Left);
    case _ =>
  }

  lemma FetchMove(s: State, p: PeerId, c: Client, o: PeerId, pc: Pc)
    requires p in s.clients && s.clients[p] == c && c.pc.FetchProducers? && pc.FetchProducers?
    ensures Outcome(s, Goto(FetchFrom(s, p, o), p, c, pc), p)
  {
    hide ProducersOf;
  }

  lemma ExecOutcome(s: State, p: PeerId, c: Client)
    requires p in s.clients && s.clients[p] == c && p in s.cameFrom
    ensures Outcome(s, ExecClient(s, p, c), p)
  {
    hide Outcome, ExecLookup, ExecEnter, ExecDepart, ExecClose, ExecGateway;
    LookupOutcome(s, p, c);
    EnterOutcome(s, p, c);
    DepartOutcome(s, p, c);
    CloseOutcome(s, p, c);
    GatewayOutcome(s, p, c);
  }

  lemma ClientOutcome(s: State, e: Event, p: PeerId, c: Client)
    requires p in s.clients && s.clients[p] == c && p in s.cameFrom
    ensures Outcome(s, StepClient(s, e, p, c), p)
  {
    hide Outcome, ExecClient, FailClient, FetchOne, CleanOne, FailCleanOne, Goto;
    NoMove(s, p);
    match e
    case Exec(_) => ExecOutcome(s, p, c);
    case Fail(_) => FailureOutcome(s, p, c);
    case Fetch(_, o) => LoopOutcome(s, p, c, o);
    case Clean(_, o) => LoopOutcome(s, p, c, o);
    case FailClean(_, o) => FailCleanOutcome(s, p, c, o);
    case Disconnect(_) =>
      Exits(s, p, c);
    case _ =>
  }

  lemma ConnectOutcome(s: State, p: PeerId, i: Instance)
    requires p !in s.clients
    ensures Outcome(s, Goto(s, p, Client(i, GetRoom), GetRoom), p)
  {
  }

  // ----- Steps of creations and requests -----

  ghost predicate SameHandlers(s: State, t: State) {
    s.clients == t.clients && s.cameFrom == t.cameFrom && SamePeers(s, t)
  }

  lemma MediaRoomMade(s: State, n: Node, creations: map<PeerId, Creation>)
    ensures SameHandlers(s, SfuCreateOrGet(s, n).(creations := creations))
  {
    if n in s.mediaRooms {
    }
  }

  lemma Recorded(s: State, room: Option<Node>, creations: map<PeerId, Creation>)
    ensures SameHandlers(s, s.(creations := creations)) && SameHandlers(s, s.(room := room, creations := creations))
  {
  }

  /** Creations and requests move no handler. */
  lemma CreationUnmoved(s: State, e: Event, q: PeerId, creation: Creation)
    ensures SameHandlers(s, StepCreation(s, e, q, creation))
  {
    hide SfuCreateOrGet, SameHandlers;
    Recorded(s, s.room, s.creations);
    match creation
    case Picking =>
      if e.PickNode? {
        Recorded(s, s.room, s.creations[q := Creating(e.node)]);
      }
    case Creating(n) => MediaRoomMade(s, n, s.creations[q := Creation.Recording(n)]);
    case Recording(n) => Recorded(s, Some(n), s.creations[q := Created]);
    case _ =>
  }

  lemma AdvancePeers(s: State, r: ProducerId, q: Request, pc: RequestPc)
    ensures SamePeers(s, Advance(s, r, q, pc))
  {
  }

  lemma ServedPeers(s: State, r: ProducerId, n: Node)
    ensures SamePeers(s, SfuCreateTransport(s, n, r.owner))
    ensures SamePeers(s, AddProducer(s, r)) && SamePeers(s, BroadcastProducer(s, r))
  {
    hide ProducersOf, Tell;
    if n in s.mediaRooms {
    }
  }

  lemma RequestPeers(s: State, r: ProducerId, q: Request)
    ensures SamePeers(s, ExecRequest(s, r, q))
  {
    hide Advance, SfuCreateTransport, AddProducer, BroadcastProducer;
    match q.pc
    case CheckPeer => AdvancePeers(s, r, q, if r.owner in s.peers then ResolveNode else Refused);
    case ResolveNode => AdvancePeers(s, r, q, if s.room.Some? then CallSfu(s.room.value) else Refused);
    case CallSfu(n) =>
      ServedPeers(s, r, n);
      AdvancePeers(s, r, q, Refused);
      AdvancePeers(s, r, q, Record);
      AdvancePeers(SfuCreateTransport(s, n, r.owner), r, q, Answered);
    case Record =>
      ServedPeers(s, r, 0);
      AdvancePeers(AddProducer(s, r), r, q, Broadcast);
    case Broadcast =>
      ServedPeers(s, r, 0);
      AdvancePeers(BroadcastProducer(s, r), r, q, Answered);
    case _ =>
  }

  lemma FailurePeers(s: State, p: PeerId, c: Client)
    ensures SamePeers(s, FailClient(s, p, c))
  {
    hide Goto, NoteFailure, AfterFailure;
    GotoPeers(s.(h := NoteFailure(s.h, p, c.pc)), p, c, AfterFailure(c.pc));
  }

  lemma OnePeers(s: State, p: PeerId, o: PeerId)
    ensures SamePeers(s, FetchFrom(s, p, o)) && SamePeers(s, DropProducers(s, o))
  {
    hide ProducersOf;
  }

  lemma LoopPeers(s: State, p: PeerId, c: Client, o: PeerId)
    ensures SamePeers(s, FetchOne(s, p, c, o)) && SamePeers(s, CleanOne(s, p, c, o))
  {
    hide Goto, FetchFrom, DropProducers, LandStray, StrayOf;
    OnePeers(s, p, o);
    match c.pc
    case FetchProducers(others, done) => GotoPeers(FetchFrom(s, p, o), p, c, FetchProducers(others, done + {o}));
    case LeaveClean(n, keys) => GotoPeers(DropProducers(s, o), p, c, LeaveClean(n, keys - {o}));
    case Left => StrayPeers(s, p, o);
    case _ =>
  }

  lemma StrayPeers(s: State, p: PeerId, o: PeerId)
    ensures SamePeers(s, LandStray(s, p, o))
  {
    hide StrayOf;
  }

  lemma FailCleanPeers(s: State, p: PeerId, c: Client, o: PeerId)
    ensures SamePeers(s, FailCleanOne(s, p, c, o))
  {
    hide Goto;
    match c.pc
    case LeaveClean(n, keys) => GotoPeers(s.(stray := s.stray[p := keys - {o}]), p, c, Left);
    case _ =>
  }

  lemma ClientPeers(s: State, e: Event, p: PeerId, c: Client)
    ensures OnlyOwnPeer(s, StepClient(s, e, p, c), p)
  {
    hide ExecLookup, ExecEnter, ExecDepart, ExecClose, ExecGateway, FailClient, FetchOne, CleanOne, FailCleanOne, Goto;
    match e
    case Exec(_) =>
      LookupPeers(s, p, c);
      EnterPeers(s, p, c);
      DepartPeers(s, p, c);
      ClosePeers(s, p, c);
      GatewayPeers(s, p, c);
    case Fail(_) => FailurePeers(s, p, c);
    case Fetch(_, o) => LoopPeers(s, p, c, o);
    case Clean(_, o) => LoopPeers(s, p, c, o);
    case FailClean(_, o) => FailCleanPeers(s, p, c, o);
    case Disconnect(_) => GotoPeers(s.(sockets := s.sockets - {p}), p, c, LeaveGet);
    case _ =>
  }

  predicate ByHandler(e: Event) {
    e.Connect? || e.Exec? || e.Fail? || e.Fetch? || e.Clean? || e.FailClean? || e.Disconnect?
  }

  lemma HandlerPeers(s: State, e: Event)
    requires ByHandler(e)
    ensures OnlyOwnPeer(s, Step(s, e), e.p)
  {
    hide StepClient, Goto;
    if e.Connect? {
      GotoPeers(s, e.p, Client(e.instance, GetRoom), GetRoom);
    } else if e.p in s.clients {
      ClientPeers(s, e, e.p, s.clients[e.p]);
    }
  }

  lemma OtherPeers(s: State, e: Event)
    requires !ByHandler(e)
    ensures SamePeers(s, Step(s, e))
  {
    hide StepCreation, ExecRequest, Advance, SamePeers, SameHandlers;
    SelfPeers(s);
    match e
    case Ask(r, kind) => AdvancePeers(s, r, Request(kind, CheckPeer), CheckPeer);
    case Serve(r) =>
      if r in s.requests {
        RequestPeers(s, r, s.requests[r]);
      }
    case FailRequest(r) =>
      if r in s.requests {
        AdvancePeers(s, r, s.requests[r], Refused);
      }
    case PickNode(q, _) =>
      if q in s.creations {
        CreationPeers(s, e, q, s.creations[q]);
      }
    case ExecCreation(q) =>
      if q in s.creations {
        CreationPeers(s, e, q, s.creations[q]);
      }
    case FailCreation(q) => FailedPeers(s, s.creations[q := Failed]);
  }

  lemma SelfPeers(s: State)
    ensures SamePeers(s, s)
  {
  }

  lemma FailedPeers(s: State, creations: map<PeerId, Creation>)
    ensures SamePeers(s, s.(creations := creations))
  {
  }

  lemma CreationPeers(s: State, e: Event, q: PeerId, creation: Creation)
    ensures SamePeers(s, StepCreation(s, e, q, creation))
  {
    hide StepCreation;
    CreationUnmoved(s, e, q, creation);
  }

  /** Nobody but a peer's own handler changes whether it is in the peers hash, or its
      socket in the socket room. */
  lemma OthersKeepMembership(s: State, e: Event, p: PeerId)
    requires !By(e, p)
    ensures p in s.peers <==> p in Step(s, e).peers
    ensures p in s.sockets <==> p in Step(s, e).sockets
  {
    hide Step;
    if ByHandler(e) {
      HandlerPeers(s, e);
    } else {
      OtherPeers(s, e);
    }
  }

  // ----- Every step -----

  lemma OthersOutcome(s: State, e: Event, p: PeerId)
    requires !By(e, p) && (p in s.clients ==> p in s.cameFrom)
    ensures Outcome(s, Step(s, e), p)
  {
    hide Step;
    StepOfOthers(s, e, p);
    OthersKeepMembership(s, e, p);
  }

  lemma Unmoved(s: State, t: State, p: PeerId)
    requires SameHandlers(s, t) && (p in s.clients ==> p in s.cameFrom)
    ensures Outcome(s, t, p)
  {
  }

  lemma OwnOutcome(s: State, e: Event, p: PeerId)
    requires By(e, p) && (p in s.clients ==> p in s.cameFrom)
    ensures Outcome(s, Step(s, e), p)
  {
    hide StepClient, StepCreation, Outcome, Goto;
    Unmoved(s, s, p);
    match e
    case Connect(_, i) =>
      if p !in s.clients {
        ConnectOutcome(s, p, i);
      }
    case PickNode(_, _) =>
      if p in s.creations {
        CreationUnmoved(s, e, p, s.creations[p]);
        Unmoved(s, StepCreation(s, e, p, s.creations[p]), p);
      }
    case ExecCreation(_) =>
      if p in s.creations {
        CreationUnmoved(s, e, p, s.creations[p]);
        Unmoved(s, StepCreation(s, e, p, s.creations[p]), p);
      }
    case FailCreation(_) => Unmoved(s, s.(creations := s.creations[p := Failed]), p);
    case Ask(_, _) =>
    case Serve(_) =>
    case FailRequest(_) =>
    case _ =>
      if p in s.clients {
        ClientOutcome(s, e, p, s.clients[p]);
      }
  }

  /** What the place a handler came from says about how it ended. */
  ghost predicate EndTold(s: State, p: PeerId) {
    && Seated(s, p) && (p in s.clients.Keys ==> p in s.cameFrom.Keys)
    && (Ended(s, p) ==> EndsFrom(s.cameFrom[p], s.clients[p].pc) && (p in s.peers <==> Strands(s.cameFrom[p])))
  }

  lemma EndsAsPlaced(from: Pc, to: Pc, member: bool)
    requires EndsFrom(from, to) && Placed(from, member) && End(to)
    ensures member <==> Strands(from)
  {
  }

  lemma EndKept(s: State, t: State, p: PeerId)
    requires EndTold(s, p) && Outcome(s, t, p)
    requires p in s.clients ==> Placed(s.clients[p].pc, p in s.peers)
    ensures EndTold(t, p)
  {
    hide EndsFrom, Strands, Placed, End, Seated;
    if Ended(t, p) && EndsFrom(s.clients[p].pc, t.clients[p].pc) && t.cameFrom[p] == s.clients[p].pc {
      EndsAsPlaced(s.clients[p].pc, t.clients[p].pc, p in s.peers);
    }
  }

  lemma StepOutcome(s: State, e: Event, p: PeerId)
    requires p in s.clients ==> p in s.cameFrom
    ensures Outcome(s, Step(s, e), p)
  {
    hide Outcome, Step;
    if By(e, p) {
      OwnOutcome(s, e, p);
    } else {
      OthersOutcome(s, e, p);
    }
  }

  lemma ReachableStep(s: State, e: Event)
    requires Reachable(s)
    ensures Reachable(Step(s, e))
  {
    hide Step, After;
    var es :| Leads(INIT, es, s);
    AfterSnoc(INIT, es, e);
    assert Leads(INIT, es + [e], Step(s, e));
  }

  lemma StepTold(s: State, e: Event, p: PeerId)
    requires Reachable(s) && EndTold(s, p)
    ensures EndTold(Step(s, e), p)
  {
    hide Step, Outcome, Placed, Reachable;
    if p in s.clients {
      HandlerMembership(s, p);
    }
    StepOutcome(s, e, p);
    EndKept(s, Step(s, e), p);
  }

  lemma {:induction false} EndsTold(es: seq<Event>, p: PeerId)
    ensures EndTold(After(INIT, es), p)
  {
    hide Step, EndTold;
    if es == [] {
      NobodyEnded(p);
    } else {
      var before := After(INIT, es[..|es| - 1]);
      EndsTold(es[..|es| - 1], p);
      assert Leads(INIT, es[..|es| - 1], before);
      StepTold(before, es[|es| - 1], p);
    }
  }

  lemma NobodyEnded(p: PeerId)
    ensures EndTold(INIT, p)
  {
  }

  lemma ReachableTold(s: State, p: PeerId)
    requires Reachable(s)
    ensures EndTold(s, p)
  {
    hide After, EndTold;
    var es :| Leads(INIT, es, s);
    EndsTold(es, p);
  }

  // ----- Who is in the socket room -----

  /** In every run the socket room is the sockets that have passed their client.join
      and not disconnected. */
  lemma SocketsInRoom(s: State, p: PeerId)
    requires Reachable(s)
    ensures p in s.sockets <==> p in s.clients && InRoom(s.clients[p].pc)
  {
    hide After, InRoom;
    ReachableTold(s, p);
  }

  // ----- The two ways to be left behind -----

  /** A join that threw has left its peer behind in the peers hash if and only if
      its last command was the EXPIRE behind its HSET or the HDEL of its rollback. */
  lemma ThrownJoinLeavesGhost(s: State, p: PeerId)
    requires Reachable(s) && p in s.clients && s.clients[p].pc.Rejected?
    ensures p in s.cameFrom
    ensures p in s.peers <==> s.cameFrom[p].ExpirePeers? || s.cameFrom[p].UndoPeer?
  {
    hide After;
    ReachableTold(s, p);
  }

  /** A leave that is over has left its peer behind in the peers hash if and only
      if it ended at its GET, which found no record or was rejected, or at its
      HDEL. */
  lemma EndedLeaveLeavesGhost(s: State, p: PeerId)
    requires Reachable(s) && p in s.clients && s.clients[p].pc.Left?
    ensures p in s.cameFrom
    ensures p in s.peers <==> s.cameFrom[p].LeaveGet? || s.cameFrom[p].LeavePeer?
  {
    hide After;
    ReachableTold(s, p);
  }
}
