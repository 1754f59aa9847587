/** What one command of a handler does to the shared keys, and where it leaves
    the handler. */
module RoomSteps {
  import opened Wrappers
  import opened RoomProtocol

  ghost predicate At(s: State, p: PeerId, pc: Pc) {
    p in s.clients && s.clients[p].pc == pc
  }

  /** The last move of `p` was from there. */
  ghost predicate Came(s: State, p: PeerId, pc: Pc) {
    p in s.cameFrom && s.cameFrom[p] == pc
  }

  ghost predicate Shared(s: State, room: Option<Node>, peers: set<PeerId>, producers: map<PeerId, set<ProducerId>>,
                         mediaRooms: map<Node, set<PeerId>>) {
    s.room == room && s.peers == peers && s.producers == producers && s.mediaRooms == mediaRooms
  }

  /** A step that only moves the handler on. */
  lemma Stays(s: State, p: PeerId, pc: Pc, next: Pc)
    requires At(s, p, pc)
    ensures At(Goto(s, p, s.clients[p], next), p, next) && Came(Goto(s, p, s.clients[p], next), p, pc)
    ensures Shared(Goto(s, p, s.clients[p], next), s.room, s.peers, s.producers, s.mediaRooms)
  {
  }

  lemma KeepsReads(s: State, p: PeerId, c: Client, next: Pc)
    ensures Goto(s, p, c, next).existingPeers == s.existingPeers
    ensures Goto(s, p, c, next).existingProducers == s.existingProducers
  {
  }

  lemma FailStep(s: State, p: PeerId, pc: Pc)
    requires At(s, p, pc)
    ensures At(Step(s, Fail(p)), p, AfterFailure(pc)) && (AfterFailure(pc) != pc ==> Came(Step(s, Fail(p)), p, pc))
    ensures Shared(Step(s, Fail(p)), s.room, s.peers, s.producers, s.mediaRooms)
  {
    hide AfterFailure, NoteFailure, Goto, Shared, At, Came;
    AtMeans(s, p, pc);
    SharedSelf(s);
    FailMoves(s, p, s.clients[p], pc);
  }

  lemma FailMoves(s: State, p: PeerId, c: Client, pc: Pc)
    ensures At(Goto(s.(h := NoteFailure(s.h, p, pc)), p, c, AfterFailure(pc)), p, AfterFailure(pc))
    ensures Came(Goto(s.(h := NoteFailure(s.h, p, pc)), p, c, AfterFailure(pc)), p, c.pc)
    ensures Shared(Goto(s.(h := NoteFailure(s.h, p, pc)), p, c, AfterFailure(pc)), s.room, s.peers, s.producers,
                   s.mediaRooms)
  {
    hide AfterFailure, NoteFailure;
  }

  lemma GetRoomStep(s: State, p: PeerId)
    requires At(s, p, GetRoom)
    ensures At(Step(s, Exec(p)), p, if s.room.Some? then RefreshRoom else MissedRoom)
    ensures Came(Step(s, Exec(p)), p, GetRoom)
    ensures Shared(Step(s, Exec(p)), s.room, s.peers, s.producers, s.mediaRooms)
  {
    hide Goto, Shared, Came;
    Stays(s, p, GetRoom, if s.room.Some? then RefreshRoom else MissedRoom);
  }

  lemma RefreshRoomStep(s: State, p: PeerId)
    requires At(s, p, RefreshRoom)
    ensures At(Step(s, Exec(p)), p, AddPeer)
    ensures Came(Step(s, Exec(p)), p, RefreshRoom)
    ensures Shared(Step(s, Exec(p)), s.room, s.peers, s.producers, s.mediaRooms)
  {
    hide Goto, Shared, Came;
    Stays(s, p, RefreshRoom, AddPeer);
  }

  lemma AddPeerStep(s: State, p: PeerId)
    requires At(s, p, AddPeer)
    ensures At(Step(s, Exec(p)), p, ExpirePeers)
    ensures Shared(Step(s, Exec(p)), s.room, s.peers + {p}, s.producers, s.mediaRooms)
  {
  }

  lemma ExpirePeersStep(s: State, p: PeerId)
    requires At(s, p, ExpirePeers)
    ensures At(Step(s, Exec(p)), p, ReadPeers)
    ensures Shared(Step(s, Exec(p)), s.room, s.peers, s.producers, s.mediaRooms)
  {
    hide Goto, Shared, Came;
    Stays(s, p, ExpirePeers, ReadPeers);
  }

  lemma ReadPeersStep(s: State, p: PeerId)
    requires At(s, p, ReadPeers)
    ensures At(Step(s, Exec(p)), p, FetchProducers(s.peers - {p}, {}))
    ensures Shared(Step(s, Exec(p)), s.room, s.peers, s.producers, s.mediaRooms)
    ensures Step(s, Exec(p)).existingPeers == s.existingPeers[p := s.peers - {p}]
  {
  }

  lemma FetchStep(s: State, p: PeerId, others: set<PeerId>, done: set<PeerId>, o: PeerId)
    requires At(s, p, FetchProducers(others, done)) && o in others - done
    ensures At(Step(s, Fetch(p, o)), p, FetchProducers(others, done + {o}))
    ensures Shared(Step(s, Fetch(p, o)), s.room, s.peers, s.producers, s.mediaRooms)
    ensures Step(s, Fetch(p, o)).existingProducers == s.existingProducers[Look(p, o) := ProducersOf(s, o)]
    ensures Step(s, Fetch(p, o)).existingPeers == s.existingPeers
  {
  }

  lemma FetchedAllStep(s: State, p: PeerId, others: set<PeerId>)
    requires At(s, p, FetchProducers(others, others))
    ensures At(Step(s, Exec(p)), p, JoinSocket)
    ensures Shared(Step(s, Exec(p)), s.room, s.peers, s.producers, s.mediaRooms)
    ensures Step(s, Exec(p)).existingPeers == s.existingPeers
    ensures Step(s, Exec(p)).existingProducers == s.existingProducers
  {
    hide Goto, Shared, Came;
    Stays(s, p, FetchProducers(others, others), JoinSocket);
    KeepsReads(s, p, s.clients[p], JoinSocket);
  }

  lemma UndoPeerStep(s: State, p: PeerId)
    requires At(s, p, UndoPeer)
    ensures At(Step(s, Exec(p)), p, UndoProducers)
    ensures Shared(Step(s, Exec(p)), s.room, s.peers - {p}, s.producers, s.mediaRooms)
  {
  }

  lemma UndoProducersStep(s: State, p: PeerId)
    requires At(s, p, UndoProducers)
    ensures At(Step(s, Exec(p)), p, Rejected)
    ensures Shared(Step(s, Exec(p)), s.room, s.peers, s.producers - {p}, s.mediaRooms)
  {
  }

  lemma JoinSocketStep(s: State, p: PeerId)
    requires At(s, p, JoinSocket)
    ensures At(Step(s, Exec(p)), p, Announce)
    ensures Shared(Step(s, Exec(p)), s.room, s.peers, s.producers, s.mediaRooms)
    ensures Step(s, Exec(p)).existingPeers == s.existingPeers
    ensures Step(s, Exec(p)).existingProducers == s.existingProducers
  {
  }

  lemma AnnounceStep(s: State, p: PeerId)
    requires At(s, p, Announce)
    ensures At(Step(s, Exec(p)), p, Joined)
    ensures Step(s, Exec(p)).sockets == s.sockets && Step(s, Exec(p)).peerNews == Tell(s.peerNews, s.sockets, p, p)
    ensures Shared(Step(s, Exec(p)), s.room, s.peers, s.producers, s.mediaRooms)
    ensures Step(s, Exec(p)).existingPeers == s.existingPeers
    ensures Step(s, Exec(p)).existingProducers == s.existingProducers
  {
    hide Tell, Backfill, NewsOf;
  }

  lemma DisconnectStep(s: State, p: PeerId)
    requires At(s, p, Joined)
    ensures At(Step(s, Disconnect(p)), p, LeaveGet)
    ensures Shared(Step(s, Disconnect(p)), s.room, s.peers, s.producers, s.mediaRooms)
  {
  }

  lemma LeaveGetStep(s: State, p: PeerId)
    requires At(s, p, LeaveGet)
    ensures At(Step(s, Exec(p)), p, if s.room.Some? then LeavePeer(s.room.value) else Left)
    ensures Came(Step(s, Exec(p)), p, LeaveGet)
    ensures Shared(Step(s, Exec(p)), s.room, s.peers, s.producers, s.mediaRooms)
  {
    hide Goto, Shared, Came;
    Stays(s, p, LeaveGet, if s.room.Some? then LeavePeer(s.room.value) else Left);
  }

  lemma LeavePeerStep(s: State, p: PeerId, n: Node)
    requires At(s, p, LeavePeer(n))
    ensures At(Step(s, Exec(p)), p, LeaveProducers(n))
    ensures Shared(Step(s, Exec(p)), s.room, s.peers - {p}, s.producers, s.mediaRooms)
  {
  }

  lemma LeaveProducersStep(s: State, p: PeerId, n: Node)
    requires At(s, p, LeaveProducers(n))
    ensures At(Step(s, Exec(p)), p, LeaveSfu(n))
    ensures Shared(Step(s, Exec(p)), s.room, s.peers, s.producers - {p}, s.mediaRooms)
  {
  }

  lemma LeaveSfuStep(s: State, p: PeerId, n: Node)
    requires At(s, p, LeaveSfu(n))
    ensures At(Step(s, Exec(p)), p, LeaveCheck(n))
    ensures Shared(Step(s, Exec(p)), s.room, s.peers, s.producers,
                   if n in s.mediaRooms then s.mediaRooms[n := s.mediaRooms[n] - {p}] else s.mediaRooms)
  {
    if n in s.mediaRooms {
    }
  }

  lemma LeaveCheckStep(s: State, p: PeerId, n: Node)
    requires At(s, p, LeaveCheck(n))
    ensures At(Step(s, Exec(p)), p, if s.peers == {} then LeaveKeys(n) else Left)
    ensures Came(Step(s, Exec(p)), p, LeaveCheck(n))
    ensures Shared(Step(s, Exec(p)), s.room, s.peers, s.producers, s.mediaRooms)
  {
    hide Goto, Shared, Came;
    Stays(s, p, LeaveCheck(n), if s.peers == {} then LeaveKeys(n) else Left);
  }

  lemma LeaveKeysStep(s: State, p: PeerId, n: Node)
    requires At(s, p, LeaveKeys(n))
    ensures At(Step(s, Exec(p)), p, LeaveScript(n, s.peers))
    ensures Shared(Step(s, Exec(p)), s.room, s.peers, s.producers, s.mediaRooms)
  {
    hide Goto, Shared, Came;
    Stays(s, p, LeaveKeys(n), LeaveScript(n, s.peers));
  }

  lemma LeaveScriptStep(s: State, p: PeerId, n: Node, keys: set<PeerId>)
    requires At(s, p, LeaveScript(n, keys))
    ensures At(Step(s, Exec(p)), p, if s.peers == {} then LeaveClean(n, keys) else Left)
    ensures Came(Step(s, Exec(p)), p, LeaveScript(n, keys))
    ensures Shared(Step(s, Exec(p)), if s.peers == {} then None else s.room, s.peers, s.producers, s.mediaRooms)
  {
    if s.peers == {} {
    }
  }

  lemma CleanStep(s: State, p: PeerId, n: Node, keys: set<PeerId>, o: PeerId)
    requires At(s, p, LeaveClean(n, keys)) && o in keys
    ensures At(Step(s, Clean(p, o)), p, LeaveClean(n, keys - {o}))
    ensures Shared(Step(s, Clean(p, o)), s.room, s.peers, s.producers - {o}, s.mediaRooms)
  {
  }

  lemma FailCleanStep(s: State, p: PeerId, n: Node, keys: set<PeerId>, o: PeerId)
    requires At(s, p, LeaveClean(n, keys)) && o in keys
    ensures At(Step(s, FailClean(p, o)), p, Left) && Came(Step(s, FailClean(p, o)), p, LeaveClean(n, keys))
    ensures Step(s, FailClean(p, o)).stray == s.stray[p := keys - {o}]
    ensures Shared(Step(s, FailClean(p, o)), s.room, s.peers, s.producers, s.mediaRooms)
  {
  }

  lemma CleanedAllStep(s: State, p: PeerId, n: Node)
    requires At(s, p, LeaveClean(n, {}))
    ensures At(Step(s, Exec(p)), p, SfuClose(n))
    ensures Shared(Step(s, Exec(p)), s.room, s.peers, s.producers, s.mediaRooms)
  {
    hide Goto, Shared, Came;
    Stays(s, p, LeaveClean(n, {}), SfuClose(n));
  }

  lemma SfuCloseStep(s: State, p: PeerId, n: Node)
    requires At(s, p, SfuClose(n))
    ensures At(Step(s, Exec(p)), p, Left)
    ensures Came(Step(s, Exec(p)), p, SfuClose(n))
    ensures Shared(Step(s, Exec(p)), s.room, s.peers, s.producers,
                   if n in s.mediaRooms && s.mediaRooms[n] == {} then s.mediaRooms - {n} else s.mediaRooms)
  {
    hide SfuCloseRoom, Goto, Shared, Came;
    SfuClosed(s, n, p);
    GotoMoves(SfuCloseRoom(s, n, p), p, s.clients[p], Left);
  }

  lemma SfuClosed(s: State, n: Node, p: PeerId)
    ensures Shared(SfuCloseRoom(s, n, p), s.room, s.peers, s.producers,
                   if n in s.mediaRooms && s.mediaRooms[n] == {} then s.mediaRooms - {n} else s.mediaRooms)
  {
    hide NoteClose;
  }

  lemma GotoMoves(s: State, p: PeerId, c: Client, pc: Pc)
    ensures At(Goto(s, p, c, pc), p, pc) && Came(Goto(s, p, c, pc), p, c.pc)
    ensures forall room, peers, producers, mediaRooms ::
      Shared(s, room, peers, producers, mediaRooms) ==> Shared(Goto(s, p, c, pc), room, peers, producers, mediaRooms)
  {
  }

  // ----- The creation of a room -----

  ghost predicate CreationAt(s: State, p: PeerId, creation: Creation) {
    p in s.creations && s.creations[p] == creation
  }

  lemma MissedRoomStep(s: State, p: PeerId)
    requires At(s, p, MissedRoom)
    ensures var i := s.clients[p].instance;
            if i in s.pendingRooms then At(Step(s, Exec(p)), p, AwaitRoom(s.pendingRooms[i]))
            else At(Step(s, Exec(p)), p, AwaitRoom(p)) && CreationAt(Step(s, Exec(p)), p, Picking)
    ensures Shared(Step(s, Exec(p)), s.room, s.peers, s.producers, s.mediaRooms)
  {
    AtMeans(s, p, MissedRoom);
    hide At, Shared, Goto, StartCreation, CreationAt;
    var c := s.clients[p];
    SharedSelf(s);
    if c.instance in s.pendingRooms {
      GotoMoves(s, p, c, AwaitRoom(s.pendingRooms[c.instance]));
    } else {
      CreationStarts(s, p, c);
    }
  }

  lemma CreationStarts(s: State, p: PeerId, c: Client)
    ensures At(Goto(StartCreation(s, p, c.instance), p, c, AwaitRoom(p)), p, AwaitRoom(p))
    ensures CreationAt(Goto(StartCreation(s, p, c.instance), p, c, AwaitRoom(p)), p, Picking)
    ensures Shared(Goto(StartCreation(s, p, c.instance), p, c, AwaitRoom(p)), s.room, s.peers, s.producers,
                   s.mediaRooms)
  {
  }

  lemma ResumeStep(s: State, p: PeerId, creator: PeerId)
    requires At(s, p, AwaitRoom(creator)) && creator in s.creations && s.creations[creator] in {Created, Failed}
    ensures At(Step(s, Exec(p)), p, if s.creations[creator] == Created then AddPeer else Rejected)
    ensures Came(Step(s, Exec(p)), p, AwaitRoom(creator)) && Step(s, Exec(p)).creations == s.creations
    ensures Shared(Step(s, Exec(p)), s.room, s.peers, s.producers, s.mediaRooms)
  {
    AtMeans(s, p, AwaitRoom(creator));
    hide At, Shared, Came, Resume;
    Resumes(s, p, s.clients[p], s.creations[creator]);
  }

  lemma Resumes(s: State, p: PeerId, c: Client, creation: Creation)
    requires creation in {Created, Failed}
    ensures At(Resume(s, p, c, creation), p, if creation == Created then AddPeer else Rejected)
    ensures Came(Resume(s, p, c, creation), p, c.pc) && Resume(s, p, c, creation).creations == s.creations
    ensures Shared(Resume(s, p, c, creation), s.room, s.peers, s.producers, s.mediaRooms)
  {
    hide At, Shared, Goto, Came;
    var pending := s.pendingRooms - {c.instance};
    PendingMoves(s, pending);
    SharedSelf(s);
    GotoMoves(s, p, c, AddPeer);
    GotoMoves(s, p, c, Rejected);
    GotoMoves(s.(pendingRooms := pending), p, c, AddPeer);
    GotoMoves(s.(pendingRooms := pending), p, c, Rejected);
    GotoCreations(s, p, c, AddPeer);
    GotoCreations(s, p, c, Rejected);
    GotoCreations(s.(pendingRooms := pending), p, c, AddPeer);
    GotoCreations(s.(pendingRooms := pending), p, c, Rejected);
  }

  lemma GotoCreations(s: State, p: PeerId, c: Client, pc: Pc)
    ensures Goto(s, p, c, pc).creations == s.creations
  {
  }

  lemma AtMeans(s: State, p: PeerId, pc: Pc)
    requires At(s, p, pc)
    ensures p in s.clients && s.clients[p].pc == pc
  {
  }

  lemma SharedSelf(s: State)
    ensures Shared(s, s.room, s.peers, s.producers, s.mediaRooms)
  {
  }

  lemma PendingMoves(s: State, pending: map<Instance, PeerId>)
    ensures Shared(s.(pendingRooms := pending), s.room, s.peers, s.producers, s.mediaRooms)
  {
  }

  lemma PickStep(s: State, p: PeerId, n: Node)
    requires CreationAt(s, p, Picking)
    ensures CreationAt(Step(s, PickNode(p, n)), p, Creating(n)) && Step(s, PickNode(p, n)).clients == s.clients
    ensures Shared(Step(s, PickNode(p, n)), s.room, s.peers, s.producers, s.mediaRooms)
  {
  }

  lemma CreateStep(s: State, p: PeerId, n: Node)
    requires CreationAt(s, p, Creating(n))
    ensures CreationAt(Step(s, ExecCreation(p)), p, Recording(n)) && Step(s, ExecCreation(p)).clients == s.clients
    ensures Shared(Step(s, ExecCreation(p)), s.room, s.peers, s.producers,
                   if n in s.mediaRooms then s.mediaRooms else s.mediaRooms[n := {}])
  {
    if n in s.mediaRooms {
    }
  }

  lemma RecordStep(s: State, p: PeerId, n: Node)
    requires CreationAt(s, p, Recording(n))
    ensures CreationAt(Step(s, ExecCreation(p)), p, Created) && Step(s, ExecCreation(p)).clients == s.clients
    ensures Shared(Step(s, ExecCreation(p)), Some(n), s.peers, s.producers, s.mediaRooms)
  {
  }

  lemma FailCreationStep(s: State, p: PeerId)
    requires p in s.creations && !s.creations[p].Created?
    ensures CreationAt(Step(s, FailCreation(p)), p, Failed) && Step(s, FailCreation(p)).clients == s.clients
    ensures Shared(Step(s, FailCreation(p)), s.room, s.peers, s.producers, s.mediaRooms)
  {
  }

  // ----- Requests -----

  ghost predicate RequestAt(s: State, r: ProducerId, kind: Kind, pc: RequestPc) {
    r in s.requests && s.requests[r] == Request(kind, pc)
  }

  lemma Advances(s: State, t: State, r: ProducerId, kind: Kind, was: RequestPc, pc: RequestPc)
    requires Shared(t, s.room, s.peers, s.producers, s.mediaRooms)
    ensures RequestAt(Advance(t, r, Request(kind, was), pc), r, kind, pc)
            && Advance(t, r, Request(kind, was), pc).h == t.h
    ensures Shared(Advance(t, r, Request(kind, was), pc), s.room, s.peers, s.producers, s.mediaRooms)
  {
  }

  lemma AskStep(s: State, r: ProducerId, kind: Kind)
    requires r !in s.requests && At(s, r.owner, Joined)
    ensures RequestAt(Step(s, Ask(r, kind)), r, kind, CheckPeer)
    ensures Shared(Step(s, Ask(r, kind)), s.room, s.peers, s.producers, s.mediaRooms)
  {
    AtMeans(s, r.owner, Joined);
    SharedSelf(s);
    Advances(s, s, r, kind, CheckPeer, CheckPeer);
  }

  lemma FailRequestStep(s: State, r: ProducerId, kind: Kind, pc: RequestPc)
    requires RequestAt(s, r, kind, pc) && !pc.Answered?
    ensures RequestAt(Step(s, FailRequest(r)), r, kind, Refused)
    ensures Step(s, FailRequest(r)).h == s.h
    ensures Shared(Step(s, FailRequest(r)), s.room, s.peers, s.producers, s.mediaRooms)
  {
    SharedSelf(s);
    Advances(s, s, r, kind, pc, Refused);
  }

  lemma CheckPeerStep(s: State, r: ProducerId, kind: Kind)
    requires RequestAt(s, r, kind, CheckPeer)
    ensures RequestAt(Step(s, Serve(r)), r, kind, if r.owner in s.peers then ResolveNode else Refused)
    ensures Step(s, Serve(r)).h == s.h
    ensures Shared(Step(s, Serve(r)), s.room, s.peers, s.producers, s.mediaRooms)
  {
    hide Advance, Shared;
    SharedSelf(s);
    Advances(s, s, r, kind, CheckPeer, if r.owner in s.peers then ResolveNode else Refused);
  }

  lemma ResolveNodeStep(s: State, r: ProducerId, kind: Kind)
    requires RequestAt(s, r, kind, ResolveNode)
    ensures RequestAt(Step(s, Serve(r)), r, kind, if s.room.Some? then CallSfu(s.room.value) else Refused)
    ensures Step(s, Serve(r)).h == s.h
    ensures Shared(Step(s, Serve(r)), s.room, s.peers, s.producers, s.mediaRooms)
  {
    hide Advance, Shared;
    SharedSelf(s);
    Advances(s, s, r, kind, ResolveNode, if s.room.Some? then CallSfu(s.room.value) else Refused);
  }

  lemma ProduceStep(s: State, r: ProducerId, n: Node)
    requires RequestAt(s, r, Producer, CallSfu(n))
    ensures RequestAt(Step(s, Serve(r)), r, Producer, if n in s.mediaRooms then Record else Refused)
    ensures Step(s, Serve(r)).h == s.h
    ensures Shared(Step(s, Serve(r)), s.room, s.peers, s.producers, s.mediaRooms)
  {
    hide Advance, Shared;
    SharedSelf(s);
    Advances(s, s, r, Producer, CallSfu(n), if n in s.mediaRooms then Record else Refused);
  }

  lemma RecordProducerStep(s: State, r: ProducerId, kind: Kind)
    requires RequestAt(s, r, kind, Record)
    ensures RequestAt(Step(s, Serve(r)), r, kind, Broadcast)
    ensures r in Step(s, Serve(r)).h.recorded
    ensures Shared(Step(s, Serve(r)), s.room, s.peers, s.producers[r.owner := ProducersOf(s, r.owner) + {r}],
                   s.mediaRooms)
  {
    hide ProducersOf;
  }

  lemma BroadcastStep(s: State, r: ProducerId, kind: Kind)
    requires RequestAt(s, r, kind, Broadcast)
    ensures RequestAt(Step(s, Serve(r)), r, kind, Answered) && r in Step(s, Serve(r)).h.cast
    ensures Shared(Step(s, Serve(r)), s.room, s.peers, s.producers, s.mediaRooms)
  {
    hide Tell;
  }
}
