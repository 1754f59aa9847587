/** What the events of others cannot change: a socket's own handler state, and
    the state of a request in flight. */
module RoomFrames {
  import opened Wrappers
  import opened RoomProtocol

  predicate By(e: Event, p: PeerId) {
    !e.Ask? && !e.Serve? && !e.FailRequest? && e.p == p
  }

  predicate NoneBy(es: seq<Event>, p: PeerId) {
    forall i | 0 <= i < |es| :: !By(es[i], p)
  }

  ghost predicate SameAt<K, V>(m: map<K, V>, n: map<K, V>, k: K) {
    (k in m.Keys <==> k in n.Keys) && (k in m.Keys ==> m[k] == n[k])
  }

  ghost predicate SameLooks(m: map<Look, set<ProducerId>>, n: map<Look, set<ProducerId>>, p: PeerId) {
    && (forall o :: Look(p, o) in m.Keys <==> Look(p, o) in n.Keys)
    && (forall o :: Look(p, o) in m.Keys ==> m[Look(p, o)] == n[Look(p, o)])
  }

  /** A socket's own handler state, where it came from, and what it has read so far. */
  ghost predicate SameOwn(s: State, t: State, p: PeerId) {
    && SameAt(s.clients, t.clients, p) && SameAt(s.creations, t.creations, p) && SameAt(s.cameFrom, t.cameFrom, p)
    && SameAt(s.existingPeers, t.existingPeers, p) && SameLooks(s.existingProducers, t.existingProducers, p)
  }

  /** ... and the requests are as they were. */
  ghost predicate Stays(s: State, t: State, p: PeerId) {
    SameOwn(s, t, p) && s.requests == t.requests
  }

  lemma Unchanged(s: State, p: PeerId)
    ensures Stays(s, s, p)
  {
  }

  // Most commands leave all handlers' own state alone.

  ghost predicate Aside(s: State, t: State) {
    && s.clients == t.clients && s.creations == t.creations && s.cameFrom == t.cameFrom
    && s.existingPeers == t.existingPeers && s.existingProducers == t.existingProducers
    && s.requests == t.requests
  }

  lemma AsideIsSame(s: State, t: State, p: PeerId)
    requires Aside(s, t)
    ensures Stays(s, t, p)
  {
  }

  lemma RedisAside(s: State, q: PeerId, r: ProducerId)
    ensures Aside(s, AddToPeers(s, q)) && Aside(s, RemoveFromPeers(s, q)) && Aside(s, DropProducers(s, q))
    ensures Aside(s, AddProducer(s, r)) && Aside(s, CloseIfEmpty(s))
  {
    hide ProducersOf;
    if s.peers == {} {
    }
  }

  lemma SfuAside(s: State, n: Node, q: PeerId)
    ensures Aside(s, SfuRemovePeer(s, n, q)) && Aside(s, SfuCloseRoom(s, n, q))
    ensures Aside(s, SfuCreateOrGet(s, n)) && Aside(s, SfuCreateTransport(s, n, q))
  {
    hide Aside;
    SelfAside(s);
    hide NoteClose;
    var removed := if n in s.mediaRooms then s.mediaRooms[n := s.mediaRooms[n] - {q}] else s.mediaRooms;
    MediaRoomsAside(s, removed, s.h.(tried := s.h.tried + {q}));
    var closed := if n in s.mediaRooms && s.mediaRooms[n] == {} then s.mediaRooms - {n} else s.mediaRooms;
    MediaRoomsAside(s, closed, NoteClose(s.h, q, true));
    MediaRoomsAside(s, s.mediaRooms[n := {}], s.h);
    if n in s.mediaRooms {
      MediaRoomsAside(s, s.mediaRooms[n := s.mediaRooms[n] + {q}], s.h);
    }
  }

  lemma MediaRoomsAside(s: State, mediaRooms: map<Node, set<PeerId>>, h: History)
    ensures Aside(s, s.(mediaRooms := mediaRooms, h := h))
  {
  }

  lemma SocketsAside(s: State, q: PeerId, r: ProducerId)
    ensures Aside(s, EnterSocketRoom(s, q)) && Aside(s, AnnouncePeer(s, q)) && Aside(s, BroadcastProducer(s, r))
    ensures Aside(s, s.(sockets := s.sockets - {q}))
  {
    hide Tell, Backfill, NewsOf;
  }

  /** A step of another socket's handler that only moves it on. */
  lemma GotoOfOthers(s: State, t: State, q: PeerId, c: Client, pc: Pc, p: PeerId)
    requires q != p && Aside(s, t)
    ensures Stays(s, Goto(t, q, c, pc), p)
  {
  }

  lemma SelfAside(s: State)
    ensures Aside(s, s)
  {
  }

  lemma LookupOfOthers(s: State, q: PeerId, p: PeerId)
    requires q != p && q in s.clients
    ensures Stays(s, ExecLookup(s, q, s.clients[q]), p)
  {
    hide Stays, Goto, Resume, Aside;
    var c := s.clients[q];
    SelfAside(s);
    Unchanged(s, p);
    match c.pc
    case GetRoom => GotoOfOthers(s, s, q, c, if s.room.Some? then RefreshRoom else MissedRoom, p);
    case RefreshRoom => GotoOfOthers(s, s, q, c, AddPeer, p);
    case MissedRoom =>
      if c.instance in s.pendingRooms {
        GotoOfOthers(s, s, q, c, AwaitRoom(s.pendingRooms[c.instance]), p);
      } else {
        CreationOfOthers(s, q, c, p);
      }
    case AwaitRoom(creator) =>
      if creator in s.creations {
        ResumeOfOthers(s, q, c, s.creations[creator], p);
      }
    case _ =>
  }

  lemma CreationOfOthers(s: State, q: PeerId, c: Client, p: PeerId)
    requires q != p
    ensures Stays(s, Goto(StartCreation(s, q, c.instance), q, c, AwaitRoom(q)), p)
  {
  }

  lemma ResumeOfOthers(s: State, q: PeerId, c: Client, creation: Creation, p: PeerId)
    requires q != p
    ensures Stays(s, Resume(s, q, c, creation), p)
  {
    hide Stays, Goto, Aside;
    var t := if c.pc == AwaitRoom(q) then s.(pendingRooms := s.pendingRooms - {c.instance}) else s;
    PendingAside(s, s.pendingRooms - {c.instance});
    SelfAside(s);
    Unchanged(s, p);
    GotoOfOthers(s, t, q, c, AddPeer, p);
    GotoOfOthers(s, t, q, c, Rejected, p);
  }

  lemma PendingAside(s: State, pending: map<Instance, PeerId>)
    ensures Aside(s, s.(pendingRooms := pending))
  {
  }

  lemma EnterOfOthers(s: State, q: PeerId, p: PeerId)
    requires q != p && q in s.clients
    ensures Stays(s, ExecEnter(s, q, s.clients[q]), p)
  {
    hide Stays, Goto, Aside, AddToPeers, ReadOthers, RemoveFromPeers, DropProducers;
    var c := s.clients[q];
    RedisAside(s, q, ProducerId(q, 0));
    SelfAside(s);
    Unchanged(s, p);
    match c.pc
    case AddPeer => GotoOfOthers(s, AddToPeers(s, q), q, c, ExpirePeers, p);
    case ExpirePeers => GotoOfOthers(s, s, q, c, ReadPeers, p);
    case ReadPeers => ReadOfOthers(s, q, c, FetchProducers(s.peers - {q}, {}), p);
    case FetchProducers(_, _) => GotoOfOthers(s, s, q, c, JoinSocket, p);
    case UndoPeer => GotoOfOthers(s, RemoveFromPeers(s, q), q, c, UndoProducers, p);
    case UndoProducers => GotoOfOthers(s, DropProducers(s, q), q, c, Rejected, p);
    case _ =>
  }

  lemma ReadOfOthers(s: State, q: PeerId, c: Client, pc: Pc, p: PeerId)
    requires q != p
    ensures Stays(s, Goto(ReadOthers(s, q), q, c, pc), p)
  {
  }

  lemma FetchOfOthers(s: State, q: PeerId, o: PeerId, c: Client, pc: Pc, p: PeerId)
    requires q != p
    ensures Stays(s, Goto(FetchFrom(s, q, o), q, c, pc), p)
  {
    hide ProducersOf;
  }

  lemma DepartOfOthers(s: State, q: PeerId, p: PeerId)
    requires q != p && q in s.clients
    ensures Stays(s, ExecDepart(s, q, s.clients[q]), p)
  {
    hide Stays, Goto, Aside, RemoveFromPeers, DropProducers, SfuRemovePeer;
    var c := s.clients[q];
    RedisAside(s, q, ProducerId(q, 0));
    SelfAside(s);
    Unchanged(s, p);
    match c.pc
    case LeaveGet => GotoOfOthers(s, s, q, c, if s.room.Some? then LeavePeer(s.room.value) else Left, p);
    case LeavePeer(n) => GotoOfOthers(s, RemoveFromPeers(s, q), q, c, LeaveProducers(n), p);
    case LeaveProducers(n) => GotoOfOthers(s, DropProducers(s, q), q, c, LeaveSfu(n), p);
    case LeaveSfu(n) =>
      SfuAside(s, n, q);
      GotoOfOthers(s, SfuRemovePeer(s, n, q), q, c, LeaveCheck(n), p);
    case _ =>
  }

  lemma CloseOfOthers(s: State, q: PeerId, p: PeerId)
    requires q != p && q in s.clients
    ensures Stays(s, ExecClose(s, q, s.clients[q]), p)
  {
    hide Stays, Goto, Aside, CloseIfEmpty, SfuCloseRoom;
    var c := s.clients[q];
    RedisAside(s, q, ProducerId(q, 0));
    SelfAside(s);
    Unchanged(s, p);
    match c.pc
    case LeaveCheck(n) => GotoOfOthers(s, s, q, c, if s.peers == {} then LeaveKeys(n) else Left, p);
    case LeaveKeys(n) => GotoOfOthers(s, s, q, c, LeaveScript(n, s.peers), p);
    case LeaveScript(n, keys) =>
      GotoOfOthers(s, CloseIfEmpty(s), q, c, if s.peers == {} then LeaveClean(n, keys) else Left, p);
    case LeaveClean(n, _) => GotoOfOthers(s, s, q, c, SfuClose(n), p);
    case SfuClose(n) =>
      SfuAside(s, n, q);
      GotoOfOthers(s, SfuCloseRoom(s, n, q), q, c, Left, p);
    case _ =>
  }

  lemma GatewayOfOthers(s: State, q: PeerId, p: PeerId)
    requires q != p && q in s.clients
    ensures Stays(s, ExecGateway(s, q, s.clients[q]), p)
  {
    hide Stays, Goto, Aside, EnterSocketRoom, AnnouncePeer;
    var c := s.clients[q];
    SocketsAside(s, q, ProducerId(q, 0));
    Unchanged(s, p);
    match c.pc
    case JoinSocket => GotoOfOthers(s, EnterSocketRoom(s, q), q, c, Announce, p);
    case Announce => GotoOfOthers(s, AnnouncePeer(s, q), q, c, Joined, p);
    case _ =>
  }

  lemma FailureOfOthers(s: State, q: PeerId, p: PeerId)
    requires q != p && q in s.clients
    ensures Stays(s, FailClient(s, q, s.clients[q]), p)
  {
    hide Stays, Goto, Aside, AfterFailure, NoteFailure;
    var c := s.clients[q];
    Unchanged(s, p);
    SelfAside(s);
    HistoryAside(s, NoteFailure(s.h, q, c.pc));
    GotoOfOthers(s, s.(h := NoteFailure(s.h, q, c.pc)), q, c, AfterFailure(c.pc), p);
  }

  lemma HistoryAside(s: State, h: History)
    ensures Aside(s, s.(h := h))
  {
  }

  lemma LoopOfOthers(s: State, q: PeerId, o: PeerId, p: PeerId)
    requires q != p && q in s.clients
    ensures Stays(s, FetchOne(s, q, s.clients[q], o), p) && Stays(s, CleanOne(s, q, s.clients[q], o), p)
  {
    hide Stays, Goto, Aside, FetchFrom, DropProducers, LandStray, StrayOf;
    var c := s.clients[q];
    RedisAside(s, o, ProducerId(q, 0));
    Unchanged(s, p);
    match c.pc
    case FetchProducers(others, done) => FetchOfOthers(s, q, o, c, FetchProducers(others, done + {o}), p);
    case LeaveClean(n, keys) => GotoOfOthers(s, DropProducers(s, o), q, c, LeaveClean(n, keys - {o}), p);
    case Left =>
      StrayAside(s, q, o);
      AsideIsSame(s, LandStray(s, q, o), p);
    case _ =>
  }

  lemma StrayAside(s: State, q: PeerId, o: PeerId)
    ensures Aside(s, LandStray(s, q, o))
  {
    hide StrayOf;
  }

  lemma FailCleanOfOthers(s: State, q: PeerId, o: PeerId, p: PeerId)
    requires q != p && q in s.clients
    ensures Stays(s, FailCleanOne(s, q, s.clients[q], o), p)
  {
    hide Stays, Goto, Aside;
    Unchanged(s, p);
    match s.clients[q].pc
    case LeaveClean(n, keys) =>
      SentAside(s, s.stray[q := keys - {o}]);
      GotoOfOthers(s, s.(stray := s.stray[q := keys - {o}]), q, s.clients[q], Left, p);
    case _ =>
  }

  lemma SentAside(s: State, stray: map<PeerId, set<PeerId>>)
    ensures Aside(s, s.(stray := stray))
  {
  }

  lemma ClientOfOthers(s: State, e: Event, q: PeerId, p: PeerId)
    requires q != p && q in s.clients
    ensures Stays(s, StepClient(s, e, q, s.clients[q]), p)
  {
    hide Stays, Aside, ExecLookup, ExecEnter, ExecDepart, ExecClose, ExecGateway, FailClient, FetchOne, CleanOne,
         FailCleanOne, Goto;
    Unchanged(s, p);
    match e
    case Exec(_) =>
      LookupOfOthers(s, q, p);
      EnterOfOthers(s, q, p);
      DepartOfOthers(s, q, p);
      CloseOfOthers(s, q, p);
      GatewayOfOthers(s, q, p);
    case Fail(_) => FailureOfOthers(s, q, p);
    case Fetch(_, o) => LoopOfOthers(s, q, o, p);
    case Clean(_, o) => LoopOfOthers(s, q, o, p);
    case FailClean(_, o) => FailCleanOfOthers(s, q, o, p);
    case Disconnect(_) =>
      SocketsAside(s, q, ProducerId(q, 0));
      GotoOfOthers(s, s.(sockets := s.sockets - {q}), q, s.clients[q], LeaveGet, p);
    case _ =>
  }

  /** Requests touch no socket's own state. */
  lemma AdvanceOfAny(s: State, t: State, r: ProducerId, q: Request, pc: RequestPc, p: PeerId)
    requires Aside(s, t)
    ensures SameOwn(s, Advance(t, r, q, pc), p)
  {
  }

  lemma RequestOfAny(s: State, r: ProducerId, p: PeerId)
    requires r in s.requests
    ensures SameOwn(s, ExecRequest(s, r, s.requests[r]), p)
  {
    hide SameOwn, Aside, Advance, SfuCreateTransport, AddProducer, BroadcastProducer;
    var q := s.requests[r];
    SelfAside(s);
    Unchanged(s, p);
    match q.pc
    case CheckPeer => AdvanceOfAny(s, s, r, q, if r.owner in s.peers then ResolveNode else Refused, p);
    case ResolveNode => AdvanceOfAny(s, s, r, q, if s.room.Some? then CallSfu(s.room.value) else Refused, p);
    case CallSfu(n) =>
      SfuAside(s, n, r.owner);
      AdvanceOfAny(s, s, r, q, Refused, p);
      AdvanceOfAny(s, SfuCreateTransport(s, n, r.owner), r, q, Answered, p);
      AdvanceOfAny(s, s, r, q, Record, p);
    case Record =>
      RedisAside(s, r.owner, r);
      AdvanceOfAny(s, AddProducer(s, r), r, q, Broadcast, p);
    case Broadcast =>
      SocketsAside(s, r.owner, r);
      AdvanceOfAny(s, BroadcastProducer(s, r), r, q, Answered, p);
    case _ =>
  }

  lemma AdvanceElsewhere(s: State, t: State, r: ProducerId, q: Request, pc: RequestPc, other: ProducerId)
    requires Aside(s, t) && r != other
    ensures SameAt(s.requests, Advance(t, r, q, pc).requests, other)
  {
  }

  lemma RequestElsewhere(s: State, r: ProducerId, other: ProducerId)
    requires r in s.requests && r != other
    ensures SameAt(s.requests, ExecRequest(s, r, s.requests[r]).requests, other)
  {
    hide Aside, Advance, SfuCreateTransport, AddProducer, BroadcastProducer;
    var q := s.requests[r];
    SelfAside(s);
    match q.pc
    case CheckPeer => AdvanceElsewhere(s, s, r, q, if r.owner in s.peers then ResolveNode else Refused, other);
    case ResolveNode => AdvanceElsewhere(s, s, r, q, if s.room.Some? then CallSfu(s.room.value) else Refused, other);
    case CallSfu(n) =>
      SfuAside(s, n, r.owner);
      AdvanceElsewhere(s, s, r, q, Refused, other);
      AdvanceElsewhere(s, SfuCreateTransport(s, n, r.owner), r, q, Answered, other);
      AdvanceElsewhere(s, s, r, q, Record, other);
    case Record =>
      RedisAside(s, r.owner, r);
      AdvanceElsewhere(s, AddProducer(s, r), r, q, Broadcast, other);
    case Broadcast =>
      SocketsAside(s, r.owner, r);
      AdvanceElsewhere(s, BroadcastProducer(s, r), r, q, Answered, other);
    case _ =>
  }

  lemma CreationStepOfOthers(s: State, e: Event, q: PeerId, p: PeerId)
    requires q != p && q in s.creations
    ensures Stays(s, StepCreation(s, e, q, s.creations[q]), p)
    ensures Stays(s, s.(creations := s.creations[q := Failed]), p)
  {
    hide Stays, Aside, SfuCreateOrGet;
    SelfAside(s);
    Unchanged(s, p);
    SettleOfOthers(s, s, q, Failed, p);
    match s.creations[q]
    case Picking =>
      if e.PickNode? {
        SettleOfOthers(s, s, q, Creating(e.node), p);
      }
    case Creating(n) =>
      SfuAside(s, n, q);
      SettleOfOthers(s, SfuCreateOrGet(s, n), q, Recording(n), p);
    case Recording(n) => RecordOfOthers(s, q, n, p);
    case _ =>
  }

  lemma SettleOfOthers(s: State, t: State, q: PeerId, creation: Creation, p: PeerId)
    requires q != p && Aside(s, t)
    ensures Stays(s, t.(creations := s.creations[q := creation]), p)
  {
  }

  lemma RecordOfOthers(s: State, q: PeerId, n: Node, p: PeerId)
    requires q != p
    ensures Stays(s, s.(room := Some(n), creations := s.creations[q := Created]), p)
  {
  }

  lemma StepOfOthers(s: State, e: Event, p: PeerId)
    requires !By(e, p)
    ensures SameOwn(s, Step(s, e), p)
  {
    hide SameOwn, Aside, StepClient, StepCreation, ExecRequest, Goto, Advance;
    SelfAside(s);
    Unchanged(s, p);
    match e
    case Connect(q, i) => GotoOfOthers(s, s, q, Client(i, GetRoom), GetRoom, p);
    case Ask(r, kind) => AdvanceOfAny(s, s, r, Request(kind, CheckPeer), CheckPeer, p);
    case Serve(r) =>
      if r in s.requests {
        RequestOfAny(s, r, p);
      }
    case FailRequest(r) =>
      if r in s.requests {
        AdvanceOfAny(s, s, r, s.requests[r], Refused, p);
      }
    case PickNode(q, _) =>
      if q in s.creations {
        CreationStepOfOthers(s, e, q, p);
      }
    case ExecCreation(q) =>
      if q in s.creations {
        CreationStepOfOthers(s, e, q, p);
      }
    case FailCreation(q) =>
      if q in s.creations {
        CreationStepOfOthers(s, e, q, p);
      }
    case _ =>
      if e.p in s.clients {
        ClientOfOthers(s, e, e.p, p);
      }
  }

  lemma {:induction false} OthersKeepOwn(s: State, es: seq<Event>, p: PeerId)
    requires NoneBy(es, p)
    ensures SameOwn(s, After(s, es), p)
  {
    hide Step;
    if es == [] {
      Unchanged(s, p);
    } else {
      var before := es[..|es| - 1];
      OthersKeepOwn(s, before, p);
      StepOfOthers(After(s, before), es[|es| - 1], p);
    }
  }

  // ----- The same for a request -----

  predicate ByRequest(e: Event, r: ProducerId) {
    (e.Ask? || e.Serve? || e.FailRequest?) && e.r == r
  }

  predicate NoneByRequest(es: seq<Event>, r: ProducerId) {
    forall i | 0 <= i < |es| :: !ByRequest(es[i], r)
  }

  lemma StepOfOtherRequests(s: State, e: Event, r: ProducerId)
    requires !ByRequest(e, r)
    ensures SameAt(s.requests, Step(s, e).requests, r)
  {
    hide SameOwn, Aside, StepClient, StepCreation, ExecRequest, Goto, Advance;
    SelfAside(s);
    match e
    case Connect(q, i) => GotoOfOthers(s, s, q, Client(i, GetRoom), GetRoom, q + 1);
    case Ask(other, kind) => AdvanceElsewhere(s, s, other, Request(kind, CheckPeer), CheckPeer, r);
    case Serve(other) =>
      if other in s.requests {
        RequestElsewhere(s, other, r);
      }
    case FailRequest(other) =>
      if other in s.requests {
        AdvanceElsewhere(s, s, other, s.requests[other], Refused, r);
      }
    case PickNode(q, _) =>
      if q in s.creations {
        CreationStepOfOthers(s, e, q, q + 1);
      }
    case ExecCreation(q) =>
      if q in s.creations {
        CreationStepOfOthers(s, e, q, q + 1);
      }
    case FailCreation(q) =>
      if q in s.creations {
        CreationStepOfOthers(s, e, q, q + 1);
      }
    case _ =>
      if e.p in s.clients {
        ClientOfOthers(s, e, e.p, e.p + 1);
      }
  }

  lemma {:induction false} OthersKeepRequest(s: State, es: seq<Event>, r: ProducerId)
    requires NoneByRequest(es, r)
    ensures SameAt(s.requests, After(s, es).requests, r)
  {
    hide Step;
    if es == [] {
    } else {
      var before := es[..|es| - 1];
      OthersKeepRequest(s, before, r);
      StepOfOtherRequests(After(s, before), es[|es| - 1], r);
    }
  }

  lemma {:induction false} AfterConcat(s: State, es: seq<Event>, more: seq<Event>)
    ensures After(s, es + more) == After(After(s, es), more)
  {
    hide Step;
    if more == [] {
      assert es + more == es;
    } else {
      AfterConcat(s, es, more[..|more| - 1]);
      assert (es + more)[..|es + more| - 1] == es + more[..|more| - 1];
    }
  }

  lemma AfterSnoc(s: State, es: seq<Event>, e: Event)
    ensures After(s, es + [e]) == Step(After(s, es), e)
  {
    hide Step;
    assert (es + [e])[..|es + [e]| - 1] == es;
  }
}
