/** What one stretch of code of a call does to the maps of MediaRoomsService. */
module SfuSteps {
  import opened Wrappers
  import opened SfuRooms
  import opened SfuFrames

  ghost predicate Maps(s: Sfu, load: map<Worker, int>, rooms: map<RoomId, Ref>, pending: map<RoomId, Call>,
                       peersOf: map<Ref, map<PeerId, PeerRef>>, slots: map<PeerRef, Slots>, open: map<Transport, Ref>) {
    && s.routersPerWorker == load && s.rooms == rooms && s.pendingRooms == pending
    && s.peersOf == peersOf && s.slots == slots && s.open == open
  }

  ghost predicate PendingAt(s: Sfu, k: Call, q: Pending) {
    k in s.transports && s.transports[k] == q
  }

  ghost predicate CallerAt(s: Sfu, k: Call, c: Caller) {
    k in s.callers && s.callers[k] == c
  }

  ghost predicate CreationAt(s: Sfu, k: Call, c: Creation, id: RoomId) {
    k in s.creations && s.creations[k] == c && k in s.wanted && s.wanted[k] == id
  }

  // ----- createTransport -----

  lemma ReusePeerStep(s: Sfu, k: Call, id: RoomId, p: PeerId, d: Direction)
    requires k !in s.transports && k !in s.creator.Values && id in s.rooms && p in PeersIn(s, s.rooms[id])
    ensures var r := s.rooms[id];
            PendingAt(Step(s, CreateTransport(k, id, p, d)), k, Pending(r, p, PeersIn(s, r)[p], true, d))
    ensures Maps(Step(s, CreateTransport(k, id, p, d)), s.routersPerWorker, s.rooms, s.pendingRooms, s.peersOf,
                 s.slots, s.open)
  {
    hide PeersIn;
  }

  lemma NewPeerStep(s: Sfu, k: Call, id: RoomId, p: PeerId, d: Direction)
    requires k !in s.transports && k !in s.creator.Values && id in s.rooms && p !in PeersIn(s, s.rooms[id])
    ensures PendingAt(Step(s, CreateTransport(k, id, p, d)), k, Pending(s.rooms[id], p, s.next, false, d))
    ensures Maps(Step(s, CreateTransport(k, id, p, d)), s.routersPerWorker, s.rooms, s.pendingRooms,
                 s.peersOf[s.rooms[id] := PeersIn(s, s.rooms[id])[p := s.next]], s.slots[s.next := Slots(None, None)],
                 s.open)
  {
    hide PeersIn;
  }

  lemma NewPeerCreator(s: Sfu, k: Call, id: RoomId, p: PeerId, d: Direction)
    requires k !in s.transports && k !in s.creator.Values && id in s.rooms && p !in PeersIn(s, s.rooms[id])
    ensures Step(s, CreateTransport(k, id, p, d)).creator == s.creator[s.next := k]
  {
    hide PeersIn;
  }

  lemma LateStep(s: Sfu, k: Call, q: Pending)
    requires PendingAt(s, k, q) && !Current(s, q)
    ensures k !in Step(s, TransportCreated(k)).transports
    ensures Maps(Step(s, TransportCreated(k)), s.routersPerWorker, s.rooms, s.pendingRooms, s.peersOf, s.slots, s.open)
  {
    hide Current;
  }

  lemma InstallStep(s: Sfu, k: Call, q: Pending)
    requires PendingAt(s, k, q) && Current(s, q)
    ensures k !in Step(s, TransportCreated(k)).transports
    ensures Maps(Step(s, TransportCreated(k)), s.routersPerWorker, s.rooms, s.pendingRooms, s.peersOf,
                 s.slots[q.peer := SlotsOf(s, q.peer).With(q.direction, s.next)],
                 Close(s.open, SlotsOf(s, q.peer).In(q.direction))[s.next := q.room])
  {
    hide Current, Close;
  }

  lemma KeptPeerStep(s: Sfu, k: Call, q: Pending)
    requires PendingAt(s, k, q) && q.existed
    ensures k !in Step(s, TransportFailed(k)).transports
    ensures Maps(Step(s, TransportFailed(k)), s.routersPerWorker, s.rooms, s.pendingRooms, s.peersOf, s.slots, s.open)
  {
  }

  lemma DiscardPeerStep(s: Sfu, k: Call, q: Pending)
    requires PendingAt(s, k, q) && !q.existed
    ensures k !in Step(s, TransportFailed(k)).transports
    ensures Maps(Step(s, TransportFailed(k)), s.routersPerWorker, s.rooms, s.pendingRooms,
                 Evict(s, q.room, q.peerId).peersOf, s.slots, Evict(s, q.room, q.peerId).open)
  {
    EvictMaps(s, q.room, q.peerId);
    hide Evict;
  }

  lemma EvictMaps(s: Sfu, r: Ref, p: PeerId)
    ensures var t := Evict(s, r, p);
            Maps(t, s.routersPerWorker, s.rooms, s.pendingRooms, t.peersOf, s.slots, t.open)
            && t.transports == s.transports
  {
    hide Close, SlotsOf;
    if p !in PeersIn(s, r) {
    }
  }

  // ----- removePeer -----

  lemma RemovePeerStep(s: Sfu, id: RoomId, p: PeerId)
    requires id in s.rooms
    ensures var t := Evict(s, s.rooms[id], p);
            Maps(Step(s, RemovePeer(id, p)), s.routersPerWorker, s.rooms, s.pendingRooms, t.peersOf, s.slots, t.open)
  {
    EvictMaps(s, s.rooms[id], p);
    hide Evict;
  }

  lemma RemovePeerCreator(s: Sfu, id: RoomId, p: PeerId)
    ensures Step(s, RemovePeer(id, p)).creator == s.creator
  {
    hide Close, SlotsOf;
    if id in s.rooms && p in PeersIn(s, s.rooms[id]) {
    } else {
    }
  }

  // ----- closeRoom -----

  lemma CloseMaps(s: Sfu, r: Ref, id: RoomId, w: Worker, closes: map<Call, Ref>)
    ensures Maps(CloseNow(s, r, id, w, closes), Release(s.routersPerWorker, w), s.rooms - {id}, s.pendingRooms,
                 s.peersOf, s.slots, TakeDown(s.open, r))
  {
    hide Release, TakeDown;
  }

  lemma CloseStep(s: Sfu, k: Call, id: RoomId)
    requires k !in s.closes && id in s.rooms && s.rooms[id] in s.peersOf && s.rooms[id] in s.idOf
             && s.rooms[id] in s.workerOf
    requires s.peersOf[s.rooms[id]] == map[] && s.rooms[id] !in s.recording && s.idOf[s.rooms[id]] == id
    ensures var r := s.rooms[id];
            Maps(Step(s, CloseRoom(k, id)), Release(s.routersPerWorker, s.workerOf[r]), s.rooms - {id}, s.pendingRooms,
                 s.peersOf, s.slots, TakeDown(s.open, r))
  {
    CloseMaps(s, s.rooms[id], id, s.workerOf[s.rooms[id]], s.closes);
    hide CloseNow, Release, TakeDown;
  }

  /** What the step does to the room object itself. */
  lemma CloseStepRoom(s: Sfu, k: Call, id: RoomId)
    requires k !in s.closes && id in s.rooms && s.rooms[id] in s.peersOf && s.rooms[id] in s.idOf
             && s.rooms[id] in s.workerOf
    requires s.peersOf[s.rooms[id]] == map[] && s.rooms[id] !in s.recording
    ensures var t := Step(s, CloseRoom(k, id));
            t.closed == s.closed + {s.rooms[id]} && t.closes == s.closes && t.idOf == s.idOf && t.workerOf == s.workerOf
  {
    hide Release, TakeDown;
  }

  lemma StopFirstStep(s: Sfu, k: Call, id: RoomId)
    requires k !in s.closes && id in s.rooms && s.rooms[id] in s.peersOf && s.rooms[id] in s.idOf
             && s.rooms[id] in s.workerOf
    requires s.peersOf[s.rooms[id]] == map[] && s.rooms[id] in s.recording
    ensures Step(s, CloseRoom(k, id)).closes == s.closes[k := s.rooms[id]]
    ensures Step(s, CloseRoom(k, id)).recording == s.recording - {s.rooms[id]}
    ensures Step(s, CloseRoom(k, id)).idOf == s.idOf && Step(s, CloseRoom(k, id)).workerOf == s.workerOf
    ensures Maps(Step(s, CloseRoom(k, id)), s.routersPerWorker, s.rooms, s.pendingRooms, s.peersOf, s.slots, s.open)
  {
    hide CloseNow;
  }

  lemma StoppedStep(s: Sfu, k: Call, id: RoomId)
    requires k in s.closes && s.closes[k] in s.idOf && s.closes[k] in s.workerOf && s.idOf[s.closes[k]] == id
    ensures k !in Step(s, RecordingStopped(k)).closes
    ensures var r := s.closes[k];
            Maps(Step(s, RecordingStopped(k)), Release(s.routersPerWorker, s.workerOf[r]), s.rooms - {id},
                 s.pendingRooms, s.peersOf, s.slots, TakeDown(s.open, r))
  {
    CloseMaps(s, s.closes[k], id, s.workerOf[s.closes[k]], s.closes - {k});
    CloseNowEffect(s, s.closes[k], id, s.workerOf[s.closes[k]], s.closes - {k});
    hide CloseNow, Release, TakeDown;
  }

  lemma StopFailedStep(s: Sfu, k: Call)
    ensures k !in Step(s, RecordingStopFailed(k)).closes
    ensures Maps(Step(s, RecordingStopFailed(k)), s.routersPerWorker, s.rooms, s.pendingRooms, s.peersOf, s.slots,
                 s.open)
  {
  }

  // ----- getOrCreateRoom -----

  lemma ExistingStep(s: Sfu, k: Call, id: RoomId, w: Worker)
    requires k !in s.callers && k !in s.creations && id in s.rooms
    ensures CallerAt(Step(s, GetOrCreateRoom(k, id, w)), k, Got(None, s.rooms[id]))
    ensures Maps(Step(s, GetOrCreateRoom(k, id, w)), s.routersPerWorker, s.rooms, s.pendingRooms, s.peersOf, s.slots,
                 s.open)
  {
  }

  lemma ShareStep(s: Sfu, k: Call, id: RoomId, w: Worker)
    requires k !in s.callers && k !in s.creations && id !in s.rooms && id in s.pendingRooms
    ensures CallerAt(Step(s, GetOrCreateRoom(k, id, w)), k, Waiting(s.pendingRooms[id]))
    ensures Maps(Step(s, GetOrCreateRoom(k, id, w)), s.routersPerWorker, s.rooms, s.pendingRooms, s.peersOf, s.slots,
                 s.open)
  {
  }

  lemma StartStep(s: Sfu, k: Call, id: RoomId, w: Worker)
    requires k !in s.callers && k !in s.creations && id !in s.rooms && id !in s.pendingRooms
    requires LeastLoaded(s.routersPerWorker, w)
    ensures CallerAt(Step(s, GetOrCreateRoom(k, id, w)), k, Waiting(k))
    ensures CreationAt(Step(s, GetOrCreateRoom(k, id, w)), k, CreatingRouter(w), id)
    ensures Maps(Step(s, GetOrCreateRoom(k, id, w)), s.routersPerWorker[w := s.routersPerWorker[w] + 1], s.rooms,
                 s.pendingRooms[id := k], s.peersOf, s.slots, s.open)
  {
  }

  lemma NoWorkersStep(s: Sfu, k: Call, id: RoomId, w: Worker)
    requires k !in s.callers && k !in s.creations && id !in s.rooms && id !in s.pendingRooms
    requires s.routersPerWorker == map[]
    ensures CallerAt(Step(s, GetOrCreateRoom(k, id, w)), k, Waiting(k))
    ensures CreationAt(Step(s, GetOrCreateRoom(k, id, w)), k, Creation.Rejected, id)
    ensures Maps(Step(s, GetOrCreateRoom(k, id, w)), s.routersPerWorker, s.rooms, s.pendingRooms[id := k], s.peersOf,
                 s.slots, s.open)
  {
  }

  lemma RouterStep(s: Sfu, k: Call, id: RoomId, w: Worker)
    requires CreationAt(s, k, CreatingRouter(w), id)
    ensures CreationAt(Step(s, RouterCreated(k)), k, Resolved(s.next), id)
            && Step(s, RouterCreated(k)).callers == s.callers
    ensures Maps(Step(s, RouterCreated(k)), s.routersPerWorker, s.rooms[id := s.next], s.pendingRooms,
                 s.peersOf[s.next := map[]], s.slots, s.open)
  {
  }

  lemma NoRouterStep(s: Sfu, k: Call, id: RoomId, w: Worker)
    requires CreationAt(s, k, CreatingRouter(w), id)
    ensures CreationAt(Step(s, RouterFailed(k)), k, Creation.Rejected, id)
            && Step(s, RouterFailed(k)).callers == s.callers
    ensures Maps(Step(s, RouterFailed(k)), Release(s.routersPerWorker, w), s.rooms, s.pendingRooms, s.peersOf, s.slots,
                 s.open)
  {
    hide Release;
  }

  lemma SettleStep(s: Sfu, k: Call, c: Call)
    requires CallerAt(s, k, Waiting(c)) && c in s.creations && !s.creations[c].CreatingRouter?
    ensures CallerAt(Step(s, Settle(k)), k, Outcome(c, s.creations[c]))
    ensures Maps(Step(s, Settle(k)), s.routersPerWorker, s.rooms,
                 if c == k && k in s.wanted then s.pendingRooms - {s.wanted[k]} else s.pendingRooms,
                 s.peersOf, s.slots, s.open)
  {
    hide Outcome;
    if c == k && k in s.wanted {
    }
  }
}
