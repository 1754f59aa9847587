/** What an sfu process promises, in which runs, and exactly what goes wrong in
    the others. */
module SfuTheorems {
  import opened Wrappers
  import opened SfuRooms
  import opened SfuInvariants
  import opened SfuFrames
  import opened SfuAwaits

  // ----- Rooms, creations and load -----

  /** A worker's counter is the number of its rooms plus the number of creations
      in flight that are booked on it. */
  lemma WorkerAccounting(s: Sfu, w: Worker)
    requires Reachable(s, OpenAtClose) && w in s.routersPerWorker
    ensures s.routersPerWorker[w] == |RoomsOn(s.rooms, s.workerOf, w)| + |CreationsOn(s.creations, w)|
  {
    hide After, Always, Registered;
    ReachableKeeps(s, OpenAtClose);
  }

  /** Whenever a counter is lowered it was positive: the clamp at zero is never
      what keeps it from going negative. */
  lemma ClampNeverBites(s: Sfu, e: Event)
    requires Reachable(s, OpenAtClose) && !Breaks(s, e, OpenAtClose)
    ensures e.RouterFailed? && e.call in s.creations && s.creations[e.call].CreatingRouter? ==>
              var w := s.creations[e.call].worker; w in s.routersPerWorker && s.routersPerWorker[w] > 0
    ensures e.RecordingStopped? && e.call in s.closes ==>
              && s.closes[e.call] in s.workerOf
              && var w := s.workerOf[s.closes[e.call]]; w in s.routersPerWorker && s.routersPerWorker[w] > 0
    ensures e.CloseRoom? && e.id in s.rooms ==>
              && s.rooms[e.id] in s.workerOf
              && var w := s.workerOf[s.rooms[e.id]]; w in s.routersPerWorker && s.routersPerWorker[w] > 0
  {
    hide After, Always, Registered, Accounting;
    ReachableKeeps(s, OpenAtClose);
    match e {
      case RouterFailed(k) =>
        if k in s.creations && s.creations[k].CreatingRouter? {
          AbandonAccounting(s.routersPerWorker, s.rooms, s.workerOf, s.creations, k, s.creations[k].worker);
        }
      case RecordingStopped(k) =>
        if k in s.closes {
          ClosingRoom(s, k);
          CloseRegistered(s.rooms, s.idOf, s.closed, s.closes[k]);
          RoomCounts(s, s.idOf[s.closes[k]]);
        }
      case CloseRoom(k, id) =>
        if id in s.rooms {
          RoomCounts(s, id);
        }
      case _ =>
    }
  }

  lemma RoomCounts(s: Sfu, id: RoomId)
    requires Always(s) && Counted(s) && id in s.rooms
    ensures s.rooms[id] in s.workerOf
    ensures var w := s.workerOf[s.rooms[id]]; w in s.routersPerWorker && s.routersPerWorker[w] > 0
  {
    hide Named, Registered, Creating, Sharing, Known, Fresh, Unique, Held, Filled, Serving, NoZombies, Accounting;
    LiveRoom(s.rooms, s.idOf, s.workerOf, s.closed, id);
    CloseAccounting(s.routersPerWorker, s.rooms, s.workerOf, s.creations, id, s.workerOf[s.rooms[id]]);
  }

  /** In every run, no two creations in flight are for the same room id, and an id
      that leads to a room has none in flight. */
  lemma SingleCreation(s: Sfu)
    requires Reachable(s, AnyRun)
    ensures s.creations.Keys == s.wanted.Keys
    ensures forall k, k' | k in s.creations && k' in s.creations && s.creations[k].CreatingRouter?
                           && s.creations[k'].CreatingRouter? && s.wanted[k] == s.wanted[k'] :: k == k'
    ensures forall k | k in s.creations && s.creations[k].CreatingRouter? :: s.wanted[k] !in s.rooms
  {
    hide After, Named, Sharing, Known, Fresh, Unique, Held, Filled, Serving, NoZombies;
    ReachableKeeps(s, AnyRun);
  }

  /** A room id never has two open routers, nor an open one and one in flight. */
  lemma SingleRouter(s: Sfu)
    requires Reachable(s, OpenAtClose)
    ensures forall r, r' | r in s.idOf && r' in s.idOf && r !in s.closed && r' !in s.closed
                           && s.idOf[r] == s.idOf[r'] :: r == r'
    ensures s.creations.Keys == s.wanted.Keys
    ensures forall k, r | k in s.creations && s.creations[k].CreatingRouter? && r in s.idOf && r !in s.closed ::
              s.idOf[r] != s.wanted[k]
  {
    hide After, Named, Sharing, Known, Fresh, Unique, Held, Filled, Serving, NoZombies, Accounting;
    ReachableKeeps(s, OpenAtClose);
  }

  /** In every run: when a router arrives, rooms.set overwrites no entry, and
      afterwards the id leads to exactly the room that was made. */
  lemma RegistrationNeverOverwrites(s: Sfu, k: Call)
    requires Reachable(s, AnyRun)
    requires k in s.creations && k in s.wanted && s.creations[k].CreatingRouter?
    ensures s.wanted[k] !in s.rooms
    ensures var t := Step(s, RouterCreated(k));
            t.rooms == s.rooms[s.wanted[k] := s.next] && t.creations[k] == Resolved(s.next)
  {
    hide After, Always;
    ReachableKeeps(s, AnyRun);
    RegisterKeeps(s, k, s.wanted[k], s.creations[k].worker, AnyRun);
  }

  /** In every run, everybody who waited for the same creation got the same
      MediaRoom object. */
  lemma SharedCreation(s: Sfu, k: Call, l: Call)
    requires Reachable(s, AnyRun)
    requires k in s.callers && l in s.callers && s.callers[k].Got? && s.callers[l].Got?
             && s.callers[k].via.Some? && s.callers[k].via == s.callers[l].via
    ensures s.callers[k].room == s.callers[l].room
  {
    hide After, Named, Creating, Known, Fresh, Unique, Held, Filled, Serving, NoZombies;
    ReachableKeeps(s, AnyRun);
  }

  // ----- Peers and transports -----

  /** In every run: every open WebRtcTransport is the current send or recv transport
      of a peer object that is still in its room. */
  lemma NoOrphanedTransport(s: Sfu, t: Transport)
    requires Reachable(s, AnyRun) && t in s.open
    ensures s.open[t] in s.peersOf && t in s.madeFor
            && var q := s.madeFor[t];
            && q.peerId in s.peersOf[s.open[t]] && s.peersOf[s.open[t]][q.peerId] == q.peer
            && q.peer in s.slots && s.slots[q.peer].In(q.direction) == Some(t)
  {
    hide After, Named, Creating, Sharing, Known, Fresh, Unique, Filled, Serving, NoZombies;
    ReachableKeeps(s, AnyRun);
  }

  /** As long as no close resumes on a room with somebody in it, a closed room has
      neither peers nor open transports. */
  lemma ClosedRoomIsEmpty(s: Sfu, r: Ref)
    requires Reachable(s, EmptyAtClose) && r in s.closed
    ensures PeersIn(s, r) == map[] && r !in s.open.Values
  {
    hide After, Named, Creating, Sharing, Known, Fresh, Unique, Filled, Serving, NoZombies;
    ReachableKeeps(s, EmptyAtClose);
    forall t | t in s.open ensures s.open[t] != r {
    }
  }

  /** In every run: a transport whose call saw its peer removed, whatever happened
      since and even if the same id came back, opens nothing and lands in nobody's
      slot. */
  lemma LateTransportIsClosed(s: Sfu, k: Call, id: RoomId, es: seq<Event>)
    requires Reachable(s, AnyRun) && k in s.transports && id in s.rooms && s.rooms[id] == s.transports[k].room
    requires NoneOfCall(es, k)
    ensures var u := After(Step(s, RemovePeer(id, s.transports[k].peerId)), es);
            var t := Step(u, TransportCreated(k));
            k in u.transports && t.open == u.open && t.slots == u.slots && t.peersOf == u.peersOf
  {
    hide After, Always, Evict, Current, NoneOfCall;
    var e, q := RemovePeer(id, s.transports[k].peerId), s.transports[k];
    ReachableKeeps(s, AnyRun);
    AlwaysStep(s, e);
    EvictAside(s, q.room, q.peerId);
    PeerOfCall(s, k);
    CurrentStep(s, e, q);
    CurrentExactlyIfNotRemoved(Step(s, e), k, es);
    LateEnd(After(Step(s, e), es), k);
  }

  /** In every run: a transport that arrives takes its slot if and only if nobody
      removed its peer since the call began. */
  lemma TransportLands(s: Sfu, k: Call, es: seq<Event>)
    requires Reachable(s, AnyRun) && k in s.transports && Current(s, s.transports[k]) && NoneOfCall(es, k)
    ensures var q, u := s.transports[k], After(s, es);
            var t := Step(u, TransportCreated(k));
            && u.next !in u.open
            && (Stays(s, es, q.room, q.peerId) ==>
                  u.next in t.open && t.open[u.next] == q.room && q.peer in t.slots
                  && t.slots[q.peer].In(q.direction) == Some(u.next))
            && (!Stays(s, es, q.room, q.peerId) ==> t.open == u.open && t.slots == u.slots)
  {
    hide After, Always, Current, NoneOfCall, Stays;
    ReachableKeeps(s, AnyRun);
    CurrentExactlyIfNotRemoved(s, k, es);
    NextIsNew(After(s, es));
    if Stays(s, es, s.transports[k].room, s.transports[k].peerId) {
      LandingEnd(After(s, es), k);
    } else {
      LateEnd(After(s, es), k);
    }
  }

  lemma NextIsNew(s: Sfu)
    requires Always(s)
    ensures s.next !in s.open
  {
    hide Named, Creating, Sharing, Known, Unique, Held, Filled, Serving, NoZombies;
  }

  lemma LateEnd(s: Sfu, k: Call)
    requires k in s.transports && !Current(s, s.transports[k])
    ensures var t := Step(s, TransportCreated(k)); t.open == s.open && t.slots == s.slots && t.peersOf == s.peersOf
  {
    hide Current;
  }

  lemma LandingEnd(s: Sfu, k: Call)
    requires k in s.transports && Current(s, s.transports[k])
    ensures var q, t := s.transports[k], Step(s, TransportCreated(k));
            && s.next in t.open && t.open[s.next] == q.room && q.peer in t.slots
            && t.slots[q.peer].In(q.direction) == Some(s.next)
  {
    hide Current, Close;
  }

  /** In every run: each peer in a room that is not closed owns an open transport, or
      the call that brought it in is still waiting for one. */
  lemma NoZombiePeer(s: Sfu, r: Ref, p: PeerId)
    requires Reachable(s, AnyRun) && r !in s.closed
    requires r in s.peersOf && p in s.peersOf[r]
    ensures var x := s.peersOf[r][p];
            && x in s.slots
            && (|| (exists d: Direction :: s.slots[x].In(d).Some? && s.slots[x].In(d).value in s.open)
                || (exists k :: k in s.transports && s.transports[k].room == r && s.transports[k].peerId == p
                                && s.transports[k].peer == x && !s.transports[k].existed))
  {
    hide After, Named, Creating, Sharing, Known, Vacant, Fresh, Unique, Held, Filled, Serving, NoZombies;
    ReachableKeeps(s, AnyRun);
    PeerIsOccupied(s.open, s.closed, s.peersOf, s.slots, s.creator, s.transports, r, p);
  }

  lemma PeerIsOccupied(open: map<Transport, Ref>, closed: set<Ref>, peersOf: Members, slots: map<PeerRef, Slots>,
                       creator: map<PeerRef, Call>, transports: map<Call, Pending>, r: Ref, p: PeerId)
    requires Serving(open, closed, peersOf, slots) && NoZombies(peersOf, slots, creator, transports)
    requires r in peersOf && p in peersOf[r] && r !in closed
    ensures var x := peersOf[r][p];
            && x in slots
            && (|| (exists d: Direction :: slots[x].In(d).Some? && slots[x].In(d).value in open)
                || (exists k :: k in transports && transports[k].room == r && transports[k].peerId == p
                                && transports[k].peer == x && !transports[k].existed))
  {
    var x := peersOf[r][p];
    if slots[x] != Slots(None, None) {
      var d := if slots[x].send.Some? then Send else Recv;
      assert slots[x].In(d).Some? && slots[x].In(d).value in open;
    } else {
      var k := creator[x];
      assert k in transports && transports[k].peer == x && !transports[k].existed;
    }
  }

  /** No slot of the peer holds an open transport. */
  predicate Idle(open: map<Transport, Ref>, slots: Slots) {
    && (slots.send.Some? ==> slots.send.value !in open)
    && (slots.recv.Some? ==> slots.recv.value !in open)
  }

  /** In every run: a failed transport of a peer it created removes whoever holds that
      id now. It leaves the other transports alone exactly when the peer existed
      before, or nobody holds the id, or the holder has no open transport; in a room
      that is not closed, when its slots are empty. */
  lemma FailureDisturbs(s: Sfu, k: Call)
    requires Reachable(s, AnyRun) && k in s.transports
    ensures var q := s.transports[k];
            var peers := PeersIn(s, q.room);
            && (Step(s, TransportFailed(k)).open == s.open <==>
                q.existed || q.peerId !in peers || Idle(s.open, SlotsOf(s, peers[q.peerId])))
            && (q.peerId in peers && q.room !in s.closed ==>
                  (Idle(s.open, SlotsOf(s, peers[q.peerId])) <==> SlotsOf(s, peers[q.peerId]) == Slots(None, None)))
  {
    hide After, Always, Idle, Step, Evict, PeersIn, SlotsOf;
    ReachableKeeps(s, AnyRun);
    var q := s.transports[k];
    FailedOpen(s, k, q);
    DisturbedSlots(s, q);
    if q.peerId in PeersIn(s, q.room) && q.room !in s.closed {
      IdleSlots(s, q.room, q.peerId);
    }
  }

  lemma FailedOpen(s: Sfu, k: Call, q: Pending)
    requires k in s.transports && s.transports[k] == q
    ensures Step(s, TransportFailed(k)).open == if q.existed then s.open else Evict(s, q.room, q.peerId).open
  {
    hide Evict;
  }

  lemma DisturbedSlots(s: Sfu, q: Pending)
    ensures var peers := PeersIn(s, q.room);
            Evict(s, q.room, q.peerId).open == s.open <==>
            q.peerId !in peers || Idle(s.open, SlotsOf(s, peers[q.peerId]))
  {
    hide Close, Idle;
    var peers := PeersIn(s, q.room);
    if q.peerId in peers {
      ShutNothing(s.open, SlotsOf(s, peers[q.peerId]));
    }
  }

  lemma ShutNothing(open: map<Transport, Ref>, slots: Slots)
    ensures Close(Close(open, slots.send), slots.recv) == open <==> Idle(open, slots)
  {
    var shut := Close(Close(open, slots.send), slots.recv);
    if !Idle(open, slots) {
      var d := if slots.send.Some? && slots.send.value in open then Send else Recv;
      assert slots.In(d).Some? && slots.In(d).value in open && slots.In(d).value !in shut;
    } else {
      assert Close(open, slots.send) == open;
    }
  }

  lemma IdleSlots(s: Sfu, r: Ref, p: PeerId)
    requires Always(s) && p in PeersIn(s, r) && r !in s.closed
    ensures Idle(s.open, SlotsOf(s, PeersIn(s, r)[p])) <==> SlotsOf(s, PeersIn(s, r)[p]) == Slots(None, None)
  {
    hide Named, Creating, Sharing, Known, Fresh, Unique, Held, Filled, NoZombies;
    var slots := SlotsOf(s, PeersIn(s, r)[p]);
    if slots != Slots(None, None) {
      var d := if slots.send.Some? then Send else Recv;
      assert slots.In(d).Some? && slots.In(d).value in s.open;
    }
  }

  // ----- A close that resumes too late -----

  /** When another call has already closed the room by the time its recording has
      stopped, the late close keeps the counters right only if it happens to take
      down a room made again under the same id on the same worker, or, with no
      such room, if the worker's counter is zero anyway. */
  lemma LateCloseMiscounts(s: Sfu, k: Call)
    requires Reachable(s, OpenAtClose) && k in s.closes && s.closes[k] in s.closed
    ensures s.closes[k] in s.idOf && s.closes[k] in s.workerOf
    ensures var id, w := s.idOf[s.closes[k]], s.workerOf[s.closes[k]];
            var t := Step(s, RecordingStopped(k));
            && w in s.routersPerWorker && (id in s.rooms ==> s.rooms[id] in s.workerOf)
            && (Accounting(t.routersPerWorker, t.rooms, t.workerOf, t.creations) <==>
                if id in s.rooms then s.workerOf[s.rooms[id]] == w else s.routersPerWorker[w] == 0)
  {
    hide After, Always, Registered, Accounting, RoomsOn, CreationsOn, Step, Release;
    ReachableKeeps(s, OpenAtClose);
    ClosingRoom(s, k);
    LateEffect(s, k);
    var id, w := s.idOf[s.closes[k]], s.workerOf[s.closes[k]];
    if id in s.rooms {
      RoomCounts(s, id);
      LateWithRoom(s.routersPerWorker, s.rooms, s.workerOf, s.creations, id, w, s.closes[k]);
    } else {
      assert s.rooms - {id} == s.rooms;
      LateWithoutRoom(s.routersPerWorker, s.rooms, s.workerOf, s.creations, w, s.closes[k]);
    }
  }

  /** A late close forgets an open room if and only if the id was made again. */
  lemma LateCloseForgets(s: Sfu, k: Call)
    requires Reachable(s, OpenAtClose) && k in s.closes && s.closes[k] in s.closed
    ensures s.closes[k] in s.idOf
    ensures var t := Step(s, RecordingStopped(k));
            Registered(t.rooms, t.idOf, t.closed) <==> s.idOf[s.closes[k]] !in s.rooms
  {
    hide After, Always, Registered, Accounting, Step;
    ReachableKeeps(s, OpenAtClose);
    ClosingRoom(s, k);
    LateEffect(s, k);
    ForgottenRoom(s, s.idOf[s.closes[k]]);
    StoppedIds(s, k);
    LateCloses(s, k);
  }

  lemma LateCloses(s: Sfu, k: Call)
    requires k in s.closes && s.closes[k] in s.idOf && s.closes[k] in s.workerOf && s.closes[k] in s.closed
    ensures Step(s, RecordingStopped(k)).closed == s.closed
  {
    hide CloseNow;
    var r := s.closes[k];
    CloseNowEffect(s, r, s.idOf[r], s.workerOf[r], s.closes - {k});
    assert s.closed + {r} == s.closed;
  }

  lemma ForgottenRoom(s: Sfu, id: RoomId)
    requires Always(s) && Registered(s.rooms, s.idOf, s.closed)
    ensures Registered(s.rooms - {id}, s.idOf, s.closed) <==> id !in s.rooms
  {
    hide Creating, Sharing, Known, Fresh, Unique, Held, Filled, Serving, NoZombies;
    if id in s.rooms {
      var r := s.rooms[id];
      assert r in s.idOf && r !in s.closed && s.idOf[r] == id && id !in s.rooms - {id};
    } else {
      assert s.rooms - {id} == s.rooms;
    }
  }

  lemma LateEffect(s: Sfu, k: Call)
    requires k in s.closes && s.closes[k] in s.idOf && s.closes[k] in s.workerOf
    ensures var t := Step(s, RecordingStopped(k));
            && t.routersPerWorker == Release(s.routersPerWorker, s.workerOf[s.closes[k]])
            && t.rooms == s.rooms - {s.idOf[s.closes[k]]} && t.workerOf == s.workerOf && t.creations == s.creations
  {
    hide Release, TakeDown;
  }

  lemma LateWithRoom(load: map<Worker, int>, rooms: map<RoomId, Ref>, workerOf: map<Ref, Worker>,
                     creations: map<Call, Creation>, id: RoomId, w: Worker, r: Ref)
    requires Accounting(load, rooms, workerOf, creations) && id in rooms && rooms[id] in workerOf
    requires r in workerOf && workerOf[r] == w
    ensures w in load
    ensures Accounting(Release(load, w), rooms - {id}, workerOf, creations) <==> workerOf[rooms[id]] == w
  {
    var v := workerOf[rooms[id]];
    CloseAccounting(load, rooms, workerOf, creations, id, v);
    if v != w {
      RoomsMinus(rooms, workerOf, id, v);
      assert Release(load, w)[v] == load[v];
    }
  }

  lemma LateWithoutRoom(load: map<Worker, int>, rooms: map<RoomId, Ref>, workerOf: map<Ref, Worker>,
                        creations: map<Call, Creation>, w: Worker, r: Ref)
    requires Accounting(load, rooms, workerOf, creations) && r in workerOf && workerOf[r] == w
    ensures w in load
    ensures Accounting(Release(load, w), rooms, workerOf, creations) <==> load[w] == 0
  {
    assert load[w] == |RoomsOn(rooms, workerOf, w)| + |CreationsOn(creations, w)|;
    if load[w] == 0 {
      assert Release(load, w) == load;
    }
  }

  /** A close that resumes with somebody in the room strands that peer object: it is
      in the closed room, whatever anybody asks to remove, exactly until a failed
      createTransport discards it, and never again after. */
  lemma LateJoinStrands(s: Sfu, k: Call, p: PeerId, es: seq<Event>)
    requires Reachable(s, AnyRun) && k in s.closes && p in PeersIn(s, s.closes[k])
    ensures var r, t := s.closes[k], Step(s, RecordingStopped(k));
            var u := After(t, es);
            && r in u.closed
            && (p in PeersIn(u, r) && PeersIn(u, r)[p] == PeersIn(s, r)[p] <==> NeverDiscarded(t, es, r, p))
  {
    hide After, Always, NeverDiscarded, EndClose;
    ReachableKeeps(s, AnyRun);
    AlwaysStep(s, RecordingStopped(k));
    ClosingRoom(s, k);
    StrandedClose(s, k);
    MemberHasSlots(s, s.closes[k], p);
    SlotsGrow(s, RecordingStopped(k));
    StrandedRun(Step(s, RecordingStopped(k)), Pending(s.closes[k], p, PeersIn(s, s.closes[k])[p], false, Send), es);
  }

  lemma MemberHasSlots(s: Sfu, r: Ref, p: PeerId)
    requires Always(s) && p in PeersIn(s, r)
    ensures PeersIn(s, r)[p] in s.slots.Keys
  {
    hide Named, Creating, Sharing, Known, Unique, Held, Filled, Serving, NoZombies;
  }

  lemma StrandedClose(s: Sfu, k: Call)
    requires k in s.closes && s.closes[k] in s.idOf && s.closes[k] in s.workerOf
    ensures var t := Step(s, RecordingStopped(k)); s.closes[k] in t.closed && t.peersOf == s.peersOf
  {
    hide CloseNow;
    var r := s.closes[k];
    CloseNowEffect(s, r, s.idOf[r], s.workerOf[r], s.closes - {k});
    CloseNowPeers(s, r, s.idOf[r], s.workerOf[r], s.closes - {k});
  }
}
