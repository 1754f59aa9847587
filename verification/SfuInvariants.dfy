/** What the events in an sfu process keep: much of it in every run, the worker
    counts as long as no close resumes on a room that is closed already, and the
    peers' transports as long as no close resumes on a room with somebody in it. */
module SfuInvariants {
  import opened Wrappers
  import opened SfuRooms

  type Members = map<Ref, map<PeerId, PeerRef>>

  // ----- Rooms, creations and load -----

  /** The rooms map leads from an id to a room of that id that is not closed. */
  ghost predicate Named(rooms: map<RoomId, Ref>, idOf: map<Ref, RoomId>, workerOf: map<Ref, Worker>, closed: set<Ref>) {
    && idOf.Keys == workerOf.Keys && closed <= idOf.Keys
    && forall id | id in rooms :: rooms[id] in idOf && idOf[rooms[id]] == id && rooms[id] !in closed
  }

  /** A room that is not closed is the one its id leads to. */
  ghost predicate Registered(rooms: map<RoomId, Ref>, idOf: map<Ref, RoomId>, closed: set<Ref>) {
    forall r | r in idOf && r !in closed :: idOf[r] in rooms && rooms[idOf[r]] == r
  }

  /** An id with a router being created has no room, and is pending under that
      creation until its creator has resumed. */
  ghost predicate Creating(creations: map<Call, Creation>, wanted: map<Call, RoomId>, pending: map<RoomId, Call>,
                           rooms: map<RoomId, Ref>, callers: map<Call, Caller>)
  {
    && creations.Keys == wanted.Keys && creations.Keys <= callers.Keys
    && (forall k | k in creations && creations[k].CreatingRouter? ::
          wanted[k] in pending && pending[wanted[k]] == k && wanted[k] !in rooms)
    && (forall id | id in pending ::
          pending[id] in creations && wanted[pending[id]] == id && callers[pending[id]] == Waiting(pending[id]))
    && (forall k | k in callers && callers[k].Waiting? :: callers[k].creation in creations)
    && forall k | k in creations && callers[k] == Waiting(k) :: wanted[k] in pending && pending[wanted[k]] == k
  }

  /** Everybody who shared a creation got the room it made. */
  ghost predicate Sharing(callers: map<Call, Caller>, creations: map<Call, Creation>) {
    forall k | k in callers && callers[k].Got? && callers[k].via.Some? ::
      callers[k].via.value in creations && creations[callers[k].via.value] == Resolved(callers[k].room)
  }

  function RoomsOn(rooms: map<RoomId, Ref>, workerOf: map<Ref, Worker>, w: Worker): set<RoomId> {
    set id | id in rooms && rooms[id] in workerOf && workerOf[rooms[id]] == w
  }

  function CreationsOn(creations: map<Call, Creation>, w: Worker): set<Call> {
    set k | k in creations && creations[k] == CreatingRouter(w)
  }

  /** A worker's counter is its rooms plus the creations booked on it. */
  ghost predicate Accounting(load: map<Worker, int>, rooms: map<RoomId, Ref>, workerOf: map<Ref, Worker>,
                             creations: map<Call, Creation>)
  {
    && (forall k | k in creations && creations[k].CreatingRouter? :: creations[k].worker in load)
    && (forall r | r in workerOf :: workerOf[r] in load)
    && forall w | w in load :: load[w] == |RoomsOn(rooms, workerOf, w)| + |CreationsOn(creations, w)|
  }

  /** Every room has its peers, and every pending close is of some room. */
  ghost predicate Known(closes: map<Call, Ref>, peersOf: Members, idOf: map<Ref, RoomId>) {
    && idOf.Keys == peersOf.Keys
    && forall k | k in closes :: closes[k] in idOf
  }

  /** Nobody is in a closed room, as long as no close resumes on a room with somebody in it. */
  ghost predicate Vacant(closed: set<Ref>, peersOf: Members) {
    forall r | r in closed :: r in peersOf && peersOf[r] == map[]
  }

  // ----- Peers and transports -----

  /** References are handed out in order, so a new one is nobody's yet. */
  ghost predicate Fresh(next: int, idOf: map<Ref, RoomId>, peersOf: Members,
                        slots: map<PeerRef, Slots>, open: map<Transport, Ref>, madeFor: map<Transport, Pending>,
                        transports: map<Call, Pending>)
  {
    && (forall r | r in idOf :: r < next)
    && (forall x | x in slots :: x < next)
    && (forall t | t in madeFor :: t < next)
    && open.Keys <= madeFor.Keys
    && (forall r, p | r in peersOf && p in peersOf[r] :: peersOf[r][p] in slots)
    && forall k | k in transports :: transports[k].peer in slots
  }

  /** No object is two peers. */
  ghost predicate Unique(peersOf: Members) {
    forall r, p, r', p' | r in peersOf && p in peersOf[r] && r' in peersOf && p' in peersOf[r']
                          && peersOf[r][p] == peersOf[r'][p'] :: r == r' && p == p'
  }

  /** Every open transport is in the slot it was made for, of a peer that is still in its room. */
  ghost predicate Held(open: map<Transport, Ref>, madeFor: map<Transport, Pending>,
                       peersOf: Members, slots: map<PeerRef, Slots>)
  {
    forall t | t in open ::
      && t in madeFor && madeFor[t].room == open[t] && open[t] in peersOf
      && madeFor[t].peerId in peersOf[open[t]] && peersOf[open[t]][madeFor[t].peerId] == madeFor[t].peer
      && madeFor[t].peer in slots && slots[madeFor[t].peer].In(madeFor[t].direction) == Some(t)
  }

  ghost predicate Filled(slots: map<PeerRef, Slots>, madeFor: map<Transport, Pending>) {
    forall x, d: Direction | x in slots && slots[x].In(d).Some? ::
      slots[x].In(d).value in madeFor && madeFor[slots[x].In(d).value].peer == x
      && madeFor[slots[x].In(d).value].direction == d
  }

  /** The slots of a peer in a room that is not closed hold open transports. */
  ghost predicate Serving(open: map<Transport, Ref>, closed: set<Ref>, peersOf: Members, slots: map<PeerRef, Slots>) {
    forall r, p, d: Direction | r in peersOf && r !in closed && p in peersOf[r] && peersOf[r][p] in slots
                                && slots[peersOf[r][p]].In(d).Some? ::
      slots[peersOf[r][p]].In(d).value in open && open[slots[peersOf[r][p]].In(d).value] == r
  }

  /** The call that brought the peer in has not finished. */
  ghost predicate Arriving(transports: map<Call, Pending>, creator: map<PeerRef, Call>, r: Ref, p: PeerId, x: PeerRef) {
    && x in creator && creator[x] in transports
    && var q := transports[creator[x]]; q.room == r && q.peerId == p && q.peer == x && !q.existed
  }

  /** No peer sits in a room with neither a transport nor the call that is making its first one. */
  ghost predicate NoZombies(peersOf: Members, slots: map<PeerRef, Slots>,
                            creator: map<PeerRef, Call>, transports: map<Call, Pending>)
  {
    forall r, p | r in peersOf && p in peersOf[r] ::
      && peersOf[r][p] in slots
      && (slots[peersOf[r][p]] != Slots(None, None) || Arriving(transports, creator, r, p, peersOf[r][p]))
  }

  /** In every run. */
  ghost predicate Always(s: Sfu) {
    && Named(s.rooms, s.idOf, s.workerOf, s.closed)
    && Creating(s.creations, s.wanted, s.pendingRooms, s.rooms, s.callers)
    && Sharing(s.callers, s.creations)
    && Known(s.closes, s.peersOf, s.idOf)
    && Fresh(s.next, s.idOf, s.peersOf, s.slots, s.open, s.madeFor, s.transports)
    && Unique(s.peersOf)
    && Held(s.open, s.madeFor, s.peersOf, s.slots)
    && Filled(s.slots, s.madeFor)
    && Serving(s.open, s.closed, s.peersOf, s.slots)
    && NoZombies(s.peersOf, s.slots, s.creator, s.transports)
  }

  /** As long as no close resumes on a closed room. */
  ghost predicate Counted(s: Sfu) {
    && Registered(s.rooms, s.idOf, s.closed)
    && Accounting(s.routersPerWorker, s.rooms, s.workerOf, s.creations)
  }


  ghost predicate Inv(s: Sfu, v: Proviso) {
    Always(s) && (v.OpenAtClose? ==> Counted(s)) && (v.EmptyAtClose? ==> Vacant(s.closed, s.peersOf))
  }

  lemma InitInv(workers: set<Worker>, v: Proviso)
    ensures Inv(Init(workers), v)
  {
  }

  // ----- getOrCreateRoom -----

  lemma GetKeeps(s: Sfu, k: Call, id: RoomId, w: Worker, v: Proviso)
    requires Inv(s, v) && k !in s.callers && k !in s.creations
    ensures Inv(BeginGetOrCreate(s, k, id, w), v)
  {
    hide Always, Counted, Vacant, StartCreation, LeastLoaded;
    if id in s.rooms {
      CallerKeeps(s, k, Got(None, s.rooms[id]), v);
    } else if id in s.pendingRooms {
      PendingKnown(s, id);
      CallerKeeps(s, k, Waiting(s.pendingRooms[id]), v);
    } else {
      StartKeeps(s, k, id, w, v);
    }
  }

  lemma CallerKeeps(s: Sfu, k: Call, c: Caller, v: Proviso)
    requires Inv(s, v) && k !in s.callers && k !in s.creations
    requires (c.Waiting? && c.creation in s.creations) || (c.Got? && c.via.None?)
    ensures Inv(s.(callers := s.callers[k := c]), v)
  {
    hide Named, Registered, Creating, Sharing, Accounting, Known, Vacant, Fresh, Unique, Held, Filled, Serving,
         NoZombies;
    NewCaller(s.creations, s.wanted, s.pendingRooms, s.rooms, s.callers, k, c);
  }

  lemma PendingKnown(s: Sfu, id: RoomId)
    requires Always(s) && id in s.pendingRooms
    ensures s.pendingRooms[id] in s.creations
  {
    hide Named, Registered, Creating, Sharing, Accounting, Known, Vacant, Fresh, Unique, Held, Filled, Serving,
         NoZombies;
    PendingFact(s.creations, s.wanted, s.pendingRooms, s.rooms, s.callers, id);
  }

  lemma StartKeeps(s: Sfu, k: Call, id: RoomId, w: Worker, v: Proviso)
    requires Inv(s, v) && k !in s.callers && k !in s.creations && id !in s.rooms && id !in s.pendingRooms
    ensures Inv(StartCreation(s, k, id, w), v)
  {
    hide Named, Registered, Creating, Sharing, Accounting, Known, Vacant, Fresh, Unique, Held, Filled, Serving,
         NoZombies;
    var c := if w in s.routersPerWorker then CreatingRouter(w) else Rejected;
    StartCreating(s.creations, s.wanted, s.pendingRooms, s.rooms, s.callers, k, id, c);
    StartSharing(s.callers, s.creations, k, c);
    if v.OpenAtClose? {
      BookAccounting(s.routersPerWorker, s.rooms, s.workerOf, s.creations, k, w, c);
    }
  }

  lemma PendingFact(creations: map<Call, Creation>, wanted: map<Call, RoomId>, pending: map<RoomId, Call>,
                    rooms: map<RoomId, Ref>, callers: map<Call, Caller>, id: RoomId)
    requires Creating(creations, wanted, pending, rooms, callers) && id in pending
    ensures pending[id] in creations
  {
  }

  lemma NewCaller(creations: map<Call, Creation>, wanted: map<Call, RoomId>, pending: map<RoomId, Call>,
                  rooms: map<RoomId, Ref>, callers: map<Call, Caller>, k: Call, c: Caller)
    requires Creating(creations, wanted, pending, rooms, callers) && Sharing(callers, creations)
    requires k !in callers && k !in creations
    requires (c.Waiting? && c.creation in creations) || (c.Got? && c.via.None?)
    ensures Creating(creations, wanted, pending, rooms, callers[k := c]) && Sharing(callers[k := c], creations)
  {
  }

  lemma StartCreating(creations: map<Call, Creation>, wanted: map<Call, RoomId>, pending: map<RoomId, Call>,
                      rooms: map<RoomId, Ref>, callers: map<Call, Caller>, k: Call, id: RoomId, c: Creation)
    requires Creating(creations, wanted, pending, rooms, callers) && k !in callers && k !in creations
    requires id !in rooms && id !in pending
    ensures Creating(creations[k := c], wanted[k := id], pending[id := k], rooms, callers[k := Waiting(k)])
  {
  }

  lemma StartSharing(callers: map<Call, Caller>, creations: map<Call, Creation>, k: Call, c: Creation)
    requires Sharing(callers, creations) && k !in creations
    ensures Sharing(callers[k := Waiting(k)], creations[k := c])
  {
  }

  lemma BookAccounting(load: map<Worker, int>, rooms: map<RoomId, Ref>, workerOf: map<Ref, Worker>,
                       creations: map<Call, Creation>, k: Call, w: Worker, c: Creation)
    requires Accounting(load, rooms, workerOf, creations) && k !in creations
    requires c == if w in load then CreatingRouter(w) else Rejected
    ensures Accounting(Book(load, w), rooms, workerOf, creations[k := c])
  {
    forall v | v in load
      ensures Book(load, w)[v] == |RoomsOn(rooms, workerOf, v)| + |CreationsOn(creations[k := c], v)|
    {
      CreationsChange(creations, k, c, v);
    }
  }

  /** Replacing one creation adds it to or takes it off a worker's bookings. */
  lemma CreationsChange(creations: map<Call, Creation>, k: Call, c: Creation, v: Worker)
    ensures |CreationsOn(creations[k := c], v)| ==
            |CreationsOn(creations, v)| - (if k in creations && creations[k] == CreatingRouter(v) then 1 else 0)
            + (if c == CreatingRouter(v) then 1 else 0)
  {
    CreationsElsewhere(creations, k, c, v);
    Without(CreationsOn(creations, v), k);
    Without(CreationsOn(creations[k := c], v), k);
  }

  lemma CreationsElsewhere(creations: map<Call, Creation>, k: Call, c: Creation, v: Worker)
    ensures CreationsOn(creations[k := c], v) - {k} == CreationsOn(creations, v) - {k}
  {
  }

  lemma Without(a: set<int>, k: int)
    ensures |a - {k}| == |a| - if k in a then 1 else 0
  {
    if k in a {
      assert a == (a - {k}) + {k};
    } else {
      assert a == a - {k};
    }
  }

  lemma RoomsPlus(rooms: map<RoomId, Ref>, workerOf: map<Ref, Worker>, id: RoomId, r: Ref, w: Worker, v: Worker)
    requires id !in rooms && forall i | i in rooms :: rooms[i] != r
    ensures |RoomsOn(rooms[id := r], workerOf[r := w], v)| == |RoomsOn(rooms, workerOf, v)| + if v == w then 1 else 0
  {
    var before, after := RoomsOn(rooms, workerOf, v), RoomsOn(rooms[id := r], workerOf[r := w], v);
    assert id !in before && (id in after <==> v == w);
    assert after - {id} == before by {
      forall l ensures l in after - {id} <==> l in before {
      }
    }
  }

  lemma RegisterKeeps(s: Sfu, k: Call, id: RoomId, w: Worker, v: Proviso)
    requires Inv(s, v) && k in s.creations && k in s.wanted && id == s.wanted[k] && s.creations[k] == CreatingRouter(w)
    ensures Inv(RegisterRoom(s, k, id, w), v) && id !in s.rooms
  {
    hide Named, Registered, Creating, Sharing, Accounting, Known, Vacant, Fresh, Unique, Held, Filled, Serving,
         NoZombies;
    var r := s.next;
    FreshRoom(s.next, s.idOf, s.peersOf, s.slots, s.open, s.madeFor, s.transports);
    RegisterCreating(s.creations, s.wanted, s.pendingRooms, s.rooms, s.callers, k, r);
    RegisterNamed(s.rooms, s.idOf, s.workerOf, s.closed, id, r, w);
    RegisterSharing(s.callers, s.creations, k, Resolved(r));
    NewRoomKnown(s.closes, s.peersOf, s.idOf, r, id);
    NewRoomFresh(s.next, s.idOf, s.peersOf, s.slots, s.open, s.madeFor, s.transports, id);
    NewRoomUnique(s.peersOf, r);
    NewRoomHeld(s.open, s.madeFor, s.peersOf, s.slots, r);
    NewRoomServing(s.open, s.closed, s.peersOf, s.slots, r);
    NewRoomZombies(s.peersOf, s.slots, s.creator, s.transports, r);
    if v.OpenAtClose? {
      RegisterRegistered(s.rooms, s.idOf, s.closed, id, r);
      RegisterAccounting(s.routersPerWorker, s.rooms, s.workerOf, s.creations, k, id, r, w, s.idOf, s.closed);
    }
    if v.EmptyAtClose? {
      NewRoomVacant(s.closed, s.peersOf, r);
    }
  }

  lemma FreshRoom(next: int, idOf: map<Ref, RoomId>, peersOf: Members,
                  slots: map<PeerRef, Slots>, open: map<Transport, Ref>, madeFor: map<Transport, Pending>,
                  transports: map<Call, Pending>)
    requires Fresh(next, idOf, peersOf, slots, open, madeFor, transports)
    ensures next !in idOf && next !in slots && next !in madeFor && next !in open
  {
  }

  lemma RegisterCreating(creations: map<Call, Creation>, wanted: map<Call, RoomId>, pending: map<RoomId, Call>,
                         rooms: map<RoomId, Ref>, callers: map<Call, Caller>, k: Call, r: Ref)
    requires Creating(creations, wanted, pending, rooms, callers)
    requires k in creations && k in wanted && creations[k].CreatingRouter?
    ensures wanted[k] !in rooms
    ensures Creating(creations[k := Resolved(r)], wanted, pending, rooms[wanted[k] := r], callers)
  {
  }

  lemma RegisterNamed(rooms: map<RoomId, Ref>, idOf: map<Ref, RoomId>, workerOf: map<Ref, Worker>, closed: set<Ref>,
                      id: RoomId, r: Ref, w: Worker)
    requires Named(rooms, idOf, workerOf, closed) && id !in rooms && r !in idOf
    ensures Named(rooms[id := r], idOf[r := id], workerOf[r := w], closed)
  {
  }

  lemma RegisterRegistered(rooms: map<RoomId, Ref>, idOf: map<Ref, RoomId>, closed: set<Ref>, id: RoomId, r: Ref)
    requires Registered(rooms, idOf, closed) && id !in rooms && r !in idOf
    ensures Registered(rooms[id := r], idOf[r := id], closed)
  {
  }

  lemma RegisterSharing(callers: map<Call, Caller>, creations: map<Call, Creation>, k: Call, c: Creation)
    requires Sharing(callers, creations) && k in creations && creations[k].CreatingRouter?
    ensures Sharing(callers, creations[k := c])
  {
  }

  lemma RegisterAccounting(load: map<Worker, int>, rooms: map<RoomId, Ref>, workerOf: map<Ref, Worker>,
                           creations: map<Call, Creation>, k: Call, id: RoomId, r: Ref, w: Worker,
                           idOf: map<Ref, RoomId>, closed: set<Ref>)
    requires Accounting(load, rooms, workerOf, creations) && Named(rooms, idOf, workerOf, closed)
    requires k in creations && creations[k] == CreatingRouter(w) && id !in rooms && r !in idOf
    ensures Accounting(load, rooms[id := r], workerOf[r := w], creations[k := Resolved(r)])
  {
    forall v | v in load
      ensures load[v] == |RoomsOn(rooms[id := r], workerOf[r := w], v)| + |CreationsOn(creations[k := Resolved(r)], v)|
    {
      CreationsChange(creations, k, Resolved(r), v);
      RoomsPlus(rooms, workerOf, id, r, w, v);
    }
  }

  lemma NewRoomKnown(closes: map<Call, Ref>, peersOf: Members, idOf: map<Ref, RoomId>, r: Ref, id: RoomId)
    requires Known(closes, peersOf, idOf) && r !in idOf
    ensures r !in peersOf && Known(closes, peersOf[r := map[]], idOf[r := id])
  {
    assert r !in idOf.Keys;
  }

  lemma NewRoomFresh(next: int, idOf: map<Ref, RoomId>, peersOf: Members, slots: map<PeerRef, Slots>,
                     open: map<Transport, Ref>, madeFor: map<Transport, Pending>, transports: map<Call, Pending>,
                     id: RoomId)
    requires Fresh(next, idOf, peersOf, slots, open, madeFor, transports)
    ensures Fresh(next + 1, idOf[next := id], peersOf[next := map[]], slots, open, madeFor, transports)
  {
  }

  lemma NewRoomUnique(peersOf: Members, r: Ref)
    requires Unique(peersOf)
    ensures Unique(peersOf[r := map[]])
  {
  }

  lemma NewRoomHeld(open: map<Transport, Ref>, madeFor: map<Transport, Pending>, peersOf: Members,
                    slots: map<PeerRef, Slots>, r: Ref)
    requires Held(open, madeFor, peersOf, slots) && r !in peersOf
    ensures Held(open, madeFor, peersOf[r := map[]], slots)
  {
  }

  lemma NewRoomZombies(peersOf: Members, slots: map<PeerRef, Slots>, creator: map<PeerRef, Call>,
                       transports: map<Call, Pending>, r: Ref)
    requires NoZombies(peersOf, slots, creator, transports)
    ensures NoZombies(peersOf[r := map[]], slots, creator, transports)
  {
    hide Arriving;
  }

  lemma NewRoomServing(open: map<Transport, Ref>, closed: set<Ref>, peersOf: Members, slots: map<PeerRef, Slots>,
                       r: Ref)
    requires Serving(open, closed, peersOf, slots)
    ensures Serving(open, closed, peersOf[r := map[]], slots)
  {
  }

  lemma NewRoomVacant(closed: set<Ref>, peersOf: Members, r: Ref)
    requires Vacant(closed, peersOf)
    ensures Vacant(closed, peersOf[r := map[]])
  {
  }

  lemma AbandonKeeps(s: Sfu, k: Call, w: Worker, v: Proviso)
    requires Inv(s, v) && k in s.creations && s.creations[k] == CreatingRouter(w)
    ensures Inv(AbandonCreation(s, k, w), v)
  {
    hide Named, Registered, Creating, Sharing, Accounting, Known, Vacant, Fresh, Unique, Held, Filled, Serving,
         NoZombies;
    AbandonCreating(s.creations, s.wanted, s.pendingRooms, s.rooms, s.callers, k);
    RegisterSharing(s.callers, s.creations, k, Rejected);
    if v.OpenAtClose? {
      AbandonAccounting(s.routersPerWorker, s.rooms, s.workerOf, s.creations, k, w);
    }
  }

  lemma AbandonCreating(creations: map<Call, Creation>, wanted: map<Call, RoomId>, pending: map<RoomId, Call>,
                        rooms: map<RoomId, Ref>, callers: map<Call, Caller>, k: Call)
    requires Creating(creations, wanted, pending, rooms, callers) && k in creations
    ensures Creating(creations[k := Rejected], wanted, pending, rooms, callers)
  {
  }

  lemma AbandonAccounting(load: map<Worker, int>, rooms: map<RoomId, Ref>, workerOf: map<Ref, Worker>,
                          creations: map<Call, Creation>, k: Call, w: Worker)
    requires Accounting(load, rooms, workerOf, creations) && k in creations && creations[k] == CreatingRouter(w)
    ensures w in load && load[w] > 0
    ensures Accounting(Release(load, w), rooms, workerOf, creations[k := Rejected])
  {
    assert k in CreationsOn(creations, w);
    forall v | v in load
      ensures Release(load, w)[v] == |RoomsOn(rooms, workerOf, v)| + |CreationsOn(creations[k := Rejected], v)|
    {
      CreationsChange(creations, k, Rejected, v);
    }
  }

  lemma ResumeKeeps(s: Sfu, k: Call, c: Call, v: Proviso)
    requires Inv(s, v) && k in s.callers && s.callers[k] == Waiting(c) && c in s.creations
    ensures Inv(ResumeCaller(s, k, c, s.creations[c]), v)
  {
    hide Named, Registered, Creating, Sharing, Accounting, Known, Vacant, Fresh, Unique, Held, Filled, Serving,
         NoZombies;
    if !s.creations[c].CreatingRouter? {
      var outcome := Outcome(c, s.creations[c]);
      ResumeCreating(s.creations, s.wanted, s.pendingRooms, s.rooms, s.callers, k, c, outcome);
      ResumeSharing(s.callers, s.creations, k, c, outcome);
    }
  }

  lemma ResumeCreating(creations: map<Call, Creation>, wanted: map<Call, RoomId>, pending: map<RoomId, Call>,
                       rooms: map<RoomId, Ref>, callers: map<Call, Caller>, k: Call, c: Call, outcome: Caller)
    requires Creating(creations, wanted, pending, rooms, callers) && k in callers && callers[k] == Waiting(c)
    requires c in creations && !creations[c].CreatingRouter? && !outcome.Waiting?
    ensures Creating(creations, wanted, Forget(pending, wanted, k, c), rooms, callers[k := outcome])
  {
  }

  lemma ResumeSharing(callers: map<Call, Caller>, creations: map<Call, Creation>, k: Call, c: Call, outcome: Caller)
    requires Sharing(callers, creations) && c in creations
    requires outcome == Threw || (creations[c].Resolved? && outcome == Got(Some(c), creations[c].room))
    ensures Sharing(callers[k := outcome], creations)
  {
  }

  // ----- closeRoom -----

  lemma CloseNowKeeps(s: Sfu, r: Ref, closes: map<Call, Ref>, v: Proviso)
    requires Inv(s, v) && r in s.idOf && r in s.workerOf
    requires closes.Keys <= s.closes.Keys && forall k | k in closes :: closes[k] == s.closes[k]
    requires v.OpenAtClose? ==> r !in s.closed
    requires v.EmptyAtClose? ==> r in s.peersOf && s.peersOf[r] == map[]
    ensures Inv(CloseNow(s, r, s.idOf[r], s.workerOf[r], closes), v)
  {
    hide Named, Registered, Creating, Sharing, Accounting, Known, Vacant, Fresh, Unique, Held, Filled, Serving,
         NoZombies;
    var id, w := s.idOf[r], s.workerOf[r];
    CloseNamed(s.rooms, s.idOf, s.workerOf, s.closed, r);
    CloseCreating(s.creations, s.wanted, s.pendingRooms, s.rooms, s.callers, id);
    CloseKnown(s.closes, s.peersOf, s.idOf, closes);
    CloseFresh(s.next, s.idOf, s.peersOf, s.slots, s.open, s.madeFor, s.transports, r);
    CloseHeld(s.open, s.madeFor, s.peersOf, s.slots, r);
    CloseServing(s.open, s.closed, s.peersOf, s.slots, r);
    if v.OpenAtClose? {
      CloseRegistered(s.rooms, s.idOf, s.closed, r);
      CloseAccounting(s.routersPerWorker, s.rooms, s.workerOf, s.creations, id, w);
    }
    if v.EmptyAtClose? {
      CloseVacant(s.closed, s.peersOf, r);
    }
  }

  lemma CloseNamed(rooms: map<RoomId, Ref>, idOf: map<Ref, RoomId>, workerOf: map<Ref, Worker>, closed: set<Ref>,
                   r: Ref)
    requires Named(rooms, idOf, workerOf, closed) && r in idOf
    ensures Named(rooms - {idOf[r]}, idOf, workerOf, closed + {r})
  {
  }

  lemma CloseRegistered(rooms: map<RoomId, Ref>, idOf: map<Ref, RoomId>, closed: set<Ref>, r: Ref)
    requires Registered(rooms, idOf, closed) && r in idOf && r !in closed
    ensures idOf[r] in rooms && rooms[idOf[r]] == r
    ensures Registered(rooms - {idOf[r]}, idOf, closed + {r})
  {
  }

  lemma CloseKnown(closes: map<Call, Ref>, peersOf: Members, idOf: map<Ref, RoomId>, closes': map<Call, Ref>)
    requires Known(closes, peersOf, idOf)
    requires closes'.Keys <= closes.Keys && forall k | k in closes' :: closes'[k] == closes[k]
    ensures Known(closes', peersOf, idOf)
  {
  }

  lemma CloseFresh(next: int, idOf: map<Ref, RoomId>, peersOf: Members, slots: map<PeerRef, Slots>,
                   open: map<Transport, Ref>, madeFor: map<Transport, Pending>, transports: map<Call, Pending>, r: Ref)
    requires Fresh(next, idOf, peersOf, slots, open, madeFor, transports)
    ensures Fresh(next, idOf, peersOf, slots, TakeDown(open, r), madeFor, transports)
  {
  }

  lemma CloseHeld(open: map<Transport, Ref>, madeFor: map<Transport, Pending>, peersOf: Members,
                  slots: map<PeerRef, Slots>, r: Ref)
    requires Held(open, madeFor, peersOf, slots)
    ensures Held(TakeDown(open, r), madeFor, peersOf, slots)
  {
  }

  lemma CloseVacant(closed: set<Ref>, peersOf: Members, r: Ref)
    requires Vacant(closed, peersOf) && r in peersOf && peersOf[r] == map[]
    ensures Vacant(closed + {r}, peersOf)
  {
  }

  /** Closing a router takes down the transports of its own room alone. */
  lemma CloseServing(open: map<Transport, Ref>, closed: set<Ref>, peersOf: Members, slots: map<PeerRef, Slots>, r: Ref)
    requires Serving(open, closed, peersOf, slots)
    ensures Serving(TakeDown(open, r), closed + {r}, peersOf, slots)
  {
  }

  lemma CloseCreating(creations: map<Call, Creation>, wanted: map<Call, RoomId>, pending: map<RoomId, Call>,
                      rooms: map<RoomId, Ref>, callers: map<Call, Caller>, id: RoomId)
    requires Creating(creations, wanted, pending, rooms, callers)
    ensures Creating(creations, wanted, pending, rooms - {id}, callers)
  {
  }

  lemma CloseAccounting(load: map<Worker, int>, rooms: map<RoomId, Ref>, workerOf: map<Ref, Worker>,
                        creations: map<Call, Creation>, id: RoomId, w: Worker)
    requires Accounting(load, rooms, workerOf, creations)
    requires id in rooms && rooms[id] in workerOf && workerOf[rooms[id]] == w
    ensures w in load && load[w] > 0
    ensures Accounting(Release(load, w), rooms - {id}, workerOf, creations)
  {
    var r := rooms[id];
    assert r in workerOf.Keys && workerOf[r] in load;
    assert id in RoomsOn(rooms, workerOf, w);
    forall v | v in load
      ensures Release(load, w)[v] == |RoomsOn(rooms - {id}, workerOf, v)| + |CreationsOn(creations, v)|
    {
      RoomsMinus(rooms, workerOf, id, v);
    }
  }

  lemma RoomsMinus(rooms: map<RoomId, Ref>, workerOf: map<Ref, Worker>, id: RoomId, v: Worker)
    requires id in rooms && rooms[id] in workerOf
    ensures |RoomsOn(rooms - {id}, workerOf, v)| ==
            |RoomsOn(rooms, workerOf, v)| - if workerOf[rooms[id]] == v then 1 else 0
  {
    Without(RoomsOn(rooms, workerOf, v), id);
    assert RoomsOn(rooms - {id}, workerOf, v) == RoomsOn(rooms, workerOf, v) - {id};
  }

  lemma BeginCloseKeeps(s: Sfu, k: Call, id: RoomId, v: Proviso)
    requires Inv(s, v) && k !in s.closes && id in s.rooms
    ensures Inv(BeginClose(s, k, s.rooms[id]), v)
  {
    hide Named, Registered, Creating, Sharing, Accounting, Known, Vacant, Fresh, Unique, Held, Filled, Serving,
         NoZombies;
    var r := s.rooms[id];
    LiveRoom(s.rooms, s.idOf, s.workerOf, s.closed, id);
    if r in s.peersOf && r in s.workerOf && s.peersOf[r] == map[] {
      if r in s.recording {
        AwaitKnown(s.closes, s.peersOf, s.idOf, k, r);
      } else {
        CloseNowKeeps(s, r, s.closes, v);
      }
    }
  }

  lemma LiveRoom(rooms: map<RoomId, Ref>, idOf: map<Ref, RoomId>, workerOf: map<Ref, Worker>, closed: set<Ref>,
                 id: RoomId)
    requires Named(rooms, idOf, workerOf, closed) && id in rooms
    ensures rooms[id] in idOf && rooms[id] in workerOf && rooms[id] !in closed && idOf[rooms[id]] == id
  {
    assert rooms[id] in idOf.Keys;
  }

  lemma AwaitKnown(closes: map<Call, Ref>, peersOf: Members, idOf: map<Ref, RoomId>, k: Call, r: Ref)
    requires Known(closes, peersOf, idOf) && r in idOf
    ensures Known(closes[k := r], peersOf, idOf)
  {
  }

  lemma EndCloseKeeps(s: Sfu, k: Call, v: Proviso)
    requires Inv(s, v) && k in s.closes && !Breaks(s, RecordingStopped(k), v)
    ensures Inv(EndClose(s, k, s.closes[k]), v)
  {
    hide Named, Registered, Creating, Sharing, Accounting, Known, Vacant, Fresh, Unique, Held, Filled, Serving,
         NoZombies;
    ClosingRoom(s, k);
    CloseNowKeeps(s, s.closes[k], s.closes - {k}, v);
  }

  /** The room a pending close waits for has an id, a worker and peers. */
  lemma ClosingRoom(s: Sfu, k: Call)
    requires Always(s) && k in s.closes
    ensures s.closes[k] in s.idOf && s.closes[k] in s.workerOf && s.closes[k] in s.peersOf
  {
    hide Creating, Sharing, Fresh, Unique, Held, Filled, Serving, NoZombies;
    assert s.closes[k] in s.idOf.Keys;
  }

  lemma StopFailedKeeps(s: Sfu, k: Call, v: Proviso)
    requires Inv(s, v)
    ensures Inv(s.(closes := s.closes - {k}), v)
  {
    hide Named, Registered, Creating, Sharing, Accounting, Known, Vacant, Fresh, Unique, Held, Filled, Serving,
         NoZombies;
    CloseKnown(s.closes, s.peersOf, s.idOf, s.closes - {k});
  }

  // ----- createTransport and removePeer -----

  lemma BeginTransportKeeps(s: Sfu, k: Call, id: RoomId, p: PeerId, d: Direction, v: Proviso)
    requires Inv(s, v) && k !in s.transports && k !in s.creator.Values && id in s.rooms
    ensures Inv(BeginTransport(s, k, s.rooms[id], p, d), v)
  {
    hide Named, Registered, Creating, Sharing, Accounting, Known, Vacant, Fresh, Unique, Held, Filled, Serving,
         NoZombies, AddPeer;
    var r, peers := s.rooms[id], PeersIn(s, s.rooms[id]);
    LiveRoom(s.rooms, s.idOf, s.workerOf, s.closed, id);
    RoomHasPeers(s.closes, s.peersOf, s.idOf, r);
    if p in peers {
      var q := Pending(r, p, peers[p], true, d);
      JoinFresh(s.next, s.idOf, s.peersOf, s.slots, s.open, s.madeFor, s.transports, k, q);
      JoinZombies(s.peersOf, s.slots, s.creator, s.transports, k, q);
    } else {
      AddPeerKeeps(s, k, r, p, d, v);
    }
  }

  lemma AddPeerKeeps(s: Sfu, k: Call, r: Ref, p: PeerId, d: Direction, v: Proviso)
    requires Inv(s, v) && k !in s.transports && k !in s.creator.Values && r in s.peersOf && p !in s.peersOf[r]
    requires r in s.idOf && r !in s.closed
    ensures Inv(AddPeer(s, k, r, p, d), v)
  {
    hide Named, Registered, Creating, Sharing, Accounting, Known, Vacant, Fresh, Unique, Held, Filled, Serving,
         NoZombies;
    var x := s.next;
    FreshKnown(s.next, s.idOf, s.peersOf, s.slots, s.open, s.madeFor, s.transports);
    NewPeerFresh(s.next, s.idOf, s.peersOf, s.slots, s.open, s.madeFor, s.transports, k, r, p, d);
    NewPeerKnown(s.closes, s.peersOf, s.idOf, r, s.peersOf[r][p := x]);
    NewPeerUnique(s.peersOf, s.slots, r, p, x);
    NewPeerHeld(s.open, s.madeFor, s.peersOf, s.slots, r, p, x);
    NewPeerFilled(s.slots, s.madeFor, x);
    NewPeerServing(s.open, s.closed, s.peersOf, s.slots, r, p, x);
    NewPeerZombies(s.peersOf, s.slots, s.creator, s.transports, k, r, p, x, d);
    if v.EmptyAtClose? {
      NewPeerVacant(s.closed, s.peersOf, r, s.peersOf[r][p := x]);
    }
  }

  lemma RoomHasPeers(closes: map<Call, Ref>, peersOf: Members, idOf: map<Ref, RoomId>, r: Ref)
    requires Known(closes, peersOf, idOf) && r in idOf
    ensures r in peersOf
  {
    assert r in peersOf.Keys;
  }

  lemma JoinFresh(next: int, idOf: map<Ref, RoomId>, peersOf: Members, slots: map<PeerRef, Slots>,
                  open: map<Transport, Ref>, madeFor: map<Transport, Pending>, transports: map<Call, Pending>,
                  k: Call, q: Pending)
    requires Fresh(next, idOf, peersOf, slots, open, madeFor, transports)
    requires q.room in peersOf && q.peerId in peersOf[q.room] && peersOf[q.room][q.peerId] == q.peer
    ensures Fresh(next, idOf, peersOf, slots, open, madeFor, transports[k := q])
  {
  }

  lemma JoinZombies(peersOf: Members, slots: map<PeerRef, Slots>, creator: map<PeerRef, Call>,
                    transports: map<Call, Pending>, k: Call, q: Pending)
    requires NoZombies(peersOf, slots, creator, transports) && k !in creator.Values
    ensures NoZombies(peersOf, slots, creator, transports[k := q])
  {
    forall r, p | r in peersOf && p in peersOf[r] && Arriving(transports, creator, r, p, peersOf[r][p])
      ensures Arriving(transports[k := q], creator, r, p, peersOf[r][p])
    {
      assert creator[peersOf[r][p]] in creator.Values;
    }
  }

  lemma NewPeerFresh(next: int, idOf: map<Ref, RoomId>, peersOf: Members, slots: map<PeerRef, Slots>,
                     open: map<Transport, Ref>, madeFor: map<Transport, Pending>, transports: map<Call, Pending>,
                     k: Call, r: Ref, p: PeerId, d: Direction)
    requires Fresh(next, idOf, peersOf, slots, open, madeFor, transports) && r in peersOf
    ensures next !in slots
    ensures Fresh(next + 1, idOf, peersOf[r := peersOf[r][p := next]], slots[next := Slots(None, None)], open, madeFor,
                  transports[k := Pending(r, p, next, false, d)])
  {
  }

  lemma NewPeerKnown(closes: map<Call, Ref>, peersOf: Members, idOf: map<Ref, RoomId>, r: Ref,
                     peers: map<PeerId, PeerRef>)
    requires Known(closes, peersOf, idOf) && r in idOf
    ensures Known(closes, peersOf[r := peers], idOf)
  {
    assert r in peersOf.Keys;
  }

  lemma NewPeerVacant(closed: set<Ref>, peersOf: Members, r: Ref, peers: map<PeerId, PeerRef>)
    requires Vacant(closed, peersOf) && r !in closed
    ensures Vacant(closed, peersOf[r := peers])
  {
  }

  ghost predicate AllKnown(peersOf: Members, slots: map<PeerRef, Slots>) {
    forall r, p | r in peersOf && p in peersOf[r] :: peersOf[r][p] in slots
  }

  lemma FreshKnown(next: int, idOf: map<Ref, RoomId>, peersOf: Members, slots: map<PeerRef, Slots>,
                   open: map<Transport, Ref>, madeFor: map<Transport, Pending>, transports: map<Call, Pending>)
    requires Fresh(next, idOf, peersOf, slots, open, madeFor, transports)
    ensures AllKnown(peersOf, slots) && next !in slots && next !in madeFor
  {
  }

  lemma NewPeerUnique(peersOf: Members, slots: map<PeerRef, Slots>, r: Ref, p: PeerId, x: PeerRef)
    requires Unique(peersOf) && AllKnown(peersOf, slots) && x !in slots && r in peersOf
    ensures Unique(peersOf[r := peersOf[r][p := x]])
  {
  }

  lemma NewPeerHeld(open: map<Transport, Ref>, madeFor: map<Transport, Pending>, peersOf: Members,
                    slots: map<PeerRef, Slots>, r: Ref, p: PeerId, x: PeerRef)
    requires Held(open, madeFor, peersOf, slots) && r in peersOf && p !in peersOf[r] && x !in slots
    ensures Held(open, madeFor, peersOf[r := peersOf[r][p := x]], slots[x := Slots(None, None)])
  {
  }

  lemma NewPeerFilled(slots: map<PeerRef, Slots>, madeFor: map<Transport, Pending>, x: PeerRef)
    requires Filled(slots, madeFor)
    ensures Filled(slots[x := Slots(None, None)], madeFor)
  {
  }

  lemma NewPeerServing(open: map<Transport, Ref>, closed: set<Ref>, peersOf: Members, slots: map<PeerRef, Slots>,
                       r: Ref, p: PeerId, x: PeerRef)
    requires Serving(open, closed, peersOf, slots) && r in peersOf && x !in slots && AllKnown(peersOf, slots)
    ensures Serving(open, closed, peersOf[r := peersOf[r][p := x]], slots[x := Slots(None, None)])
  {
  }

  lemma NewPeerZombies(peersOf: Members, slots: map<PeerRef, Slots>, creator: map<PeerRef, Call>,
                       transports: map<Call, Pending>, k: Call, r: Ref, p: PeerId, x: PeerRef, d: Direction)
    requires NoZombies(peersOf, slots, creator, transports) && k !in creator.Values && r in peersOf && x !in slots
    ensures NoZombies(peersOf[r := peersOf[r][p := x]], slots[x := Slots(None, None)], creator[x := k],
                      transports[k := Pending(r, p, x, false, d)])
  {
    var q := Pending(r, p, x, false, d);
    JoinZombies(peersOf, slots, creator, transports, k, q);
    assert Arriving(transports[k := q], creator[x := k], r, p, x);
    forall r', p' | r' in peersOf && p' in peersOf[r'] && Arriving(transports[k := q], creator, r', p', peersOf[r'][p'])
      ensures Arriving(transports[k := q], creator[x := k], r', p', peersOf[r'][p'])
    {
    }
  }

  // ----- MediaRoom.removePeer -----

  function Shut(open: map<Transport, Ref>, slots: map<PeerRef, Slots>, x: PeerRef): map<Transport, Ref>
    requires x in slots
  {
    Close(Close(open, slots[x].send), slots[x].recv)
  }

  lemma EvictKeeps(s: Sfu, r: Ref, p: PeerId, v: Proviso)
    requires Inv(s, v)
    ensures Inv(Evict(s, r, p), v)
  {
    hide Named, Registered, Creating, Sharing, Accounting, Known, Vacant, Fresh, Unique, Held, Filled, Serving,
         NoZombies;
    if r in s.peersOf && p in s.peersOf[r] {
      var x := s.peersOf[r][p];
      FreshKnown(s.next, s.idOf, s.peersOf, s.slots, s.open, s.madeFor, s.transports);
      EvictFresh(s.next, s.idOf, s.peersOf, s.slots, s.open, s.madeFor, s.transports, r, p);
      EvictKnown(s.closes, s.peersOf, s.idOf, r, p);
      EvictUnique(s.peersOf, r, p);
      EvictHeld(s.open, s.madeFor, s.peersOf, s.slots, r, p);
      EvictServing(s.open, s.closed, s.madeFor, s.peersOf, s.slots, r, p);
      EvictZombies(s.peersOf, s.slots, s.creator, s.transports, r, p);
      if v.EmptyAtClose? {
        EvictVacant(s.closed, s.peersOf, r, p);
      }
    }
  }

  lemma EvictFresh(next: int, idOf: map<Ref, RoomId>, peersOf: Members, slots: map<PeerRef, Slots>,
                   open: map<Transport, Ref>, madeFor: map<Transport, Pending>, transports: map<Call, Pending>,
                   r: Ref, p: PeerId)
    requires Fresh(next, idOf, peersOf, slots, open, madeFor, transports) && r in peersOf && p in peersOf[r]
    ensures peersOf[r][p] in slots
    ensures Fresh(next, idOf, peersOf[r := peersOf[r] - {p}], slots, Shut(open, slots, peersOf[r][p]), madeFor,
                  transports)
  {
  }

  lemma EvictKnown(closes: map<Call, Ref>, peersOf: Members, idOf: map<Ref, RoomId>, r: Ref, p: PeerId)
    requires Known(closes, peersOf, idOf) && r in peersOf
    ensures Known(closes, peersOf[r := peersOf[r] - {p}], idOf)
  {
    assert r in idOf.Keys;
  }

  lemma EvictVacant(closed: set<Ref>, peersOf: Members, r: Ref, p: PeerId)
    requires Vacant(closed, peersOf) && r in peersOf && p in peersOf[r]
    ensures Vacant(closed, peersOf[r := peersOf[r] - {p}])
  {
  }

  lemma EvictUnique(peersOf: Members, r: Ref, p: PeerId)
    requires Unique(peersOf) && r in peersOf
    ensures Unique(peersOf[r := peersOf[r] - {p}])
  {
  }

  lemma EvictHeld(open: map<Transport, Ref>, madeFor: map<Transport, Pending>, peersOf: Members,
                  slots: map<PeerRef, Slots>, r: Ref, p: PeerId)
    requires Held(open, madeFor, peersOf, slots) && r in peersOf && p in peersOf[r] && peersOf[r][p] in slots
    ensures Held(Shut(open, slots, peersOf[r][p]), madeFor, peersOf[r := peersOf[r] - {p}], slots)
  {
    var x := peersOf[r][p];
    forall t | t in Shut(open, slots, x) ensures !(madeFor[t].room == r && madeFor[t].peerId == p) && t in open {
      assert t in open && slots[madeFor[t].peer].In(madeFor[t].direction) == Some(t);
    }
  }

  lemma EvictServing(open: map<Transport, Ref>, closed: set<Ref>, madeFor: map<Transport, Pending>, peersOf: Members,
                     slots: map<PeerRef, Slots>, r: Ref, p: PeerId)
    requires Serving(open, closed, peersOf, slots) && Filled(slots, madeFor) && Unique(peersOf)
    requires r in peersOf && p in peersOf[r] && peersOf[r][p] in slots
    ensures Serving(Shut(open, slots, peersOf[r][p]), closed, peersOf[r := peersOf[r] - {p}], slots)
  {
    var x, peersOf' := peersOf[r][p], peersOf[r := peersOf[r] - {p}];
    forall r', p', d: Direction | r' in peersOf' && r' !in closed && p' in peersOf'[r'] && peersOf'[r'][p'] in slots
                                  && slots[peersOf'[r'][p']].In(d).Some?
      ensures var t := slots[peersOf'[r'][p']].In(d).value;
              t in Shut(open, slots, x) && Shut(open, slots, x)[t] == r'
    {
      var y, t := peersOf[r'][p'], slots[peersOf[r'][p']].In(d).value;
      assert y != x;
      OtherTransport(slots, madeFor, x, y, Send, d);
      OtherTransport(slots, madeFor, x, y, Recv, d);
    }
  }

  /** Two slots never hold the same transport. */
  lemma OtherTransport(slots: map<PeerRef, Slots>, madeFor: map<Transport, Pending>, x: PeerRef, y: PeerRef,
                       dx: Direction, dy: Direction)
    requires Filled(slots, madeFor) && x in slots && y in slots && (x != y || dx != dy)
    requires slots[y].In(dy).Some?
    ensures slots[x].In(dx) != slots[y].In(dy)
    ensures slots[x].send == slots[x].In(Send) && slots[x].recv == slots[x].In(Recv)
  {
  }

  lemma EvictZombies(peersOf: Members, slots: map<PeerRef, Slots>, creator: map<PeerRef, Call>,
                     transports: map<Call, Pending>, r: Ref, p: PeerId)
    requires NoZombies(peersOf, slots, creator, transports) && r in peersOf
    ensures NoZombies(peersOf[r := peersOf[r] - {p}], slots, creator, transports)
  {
    hide Arriving;
  }

  // ----- The transport arrives, or it does not -----

  lemma ForgetCall(s: Sfu, k: Call, v: Proviso)
    requires Inv(s, v) && k in s.transports
    requires var q := s.transports[k]; q.existed || !Current(s, q)
    ensures Inv(s.(transports := s.transports - {k}), v)
  {
    hide Named, Registered, Creating, Sharing, Accounting, Known, Vacant, Fresh, Unique, Held, Filled, Serving,
         NoZombies;
    DropFresh(s.next, s.idOf, s.peersOf, s.slots, s.open, s.madeFor, s.transports, k);
    DropZombies(s.peersOf, s.slots, s.creator, s.transports, k);
  }

  lemma DropFresh(next: int, idOf: map<Ref, RoomId>, peersOf: Members, slots: map<PeerRef, Slots>,
                  open: map<Transport, Ref>, madeFor: map<Transport, Pending>, transports: map<Call, Pending>, k: Call)
    requires Fresh(next, idOf, peersOf, slots, open, madeFor, transports)
    ensures Fresh(next, idOf, peersOf, slots, open, madeFor, transports - {k})
  {
  }

  lemma DropZombies(peersOf: Members, slots: map<PeerRef, Slots>, creator: map<PeerRef, Call>,
                    transports: map<Call, Pending>, k: Call)
    requires NoZombies(peersOf, slots, creator, transports) && k in transports
    requires var q := transports[k];
             q.existed || q.room !in peersOf || q.peerId !in peersOf[q.room] || peersOf[q.room][q.peerId] != q.peer
             || (q.peer in slots && slots[q.peer] != Slots(None, None))
    ensures NoZombies(peersOf, slots, creator, transports - {k})
  {
    var q := transports[k];
    forall r, p | r in peersOf && p in peersOf[r] && Arriving(transports, creator, r, p, peersOf[r][p])
      ensures slots[peersOf[r][p]] != Slots(None, None) || Arriving(transports - {k}, creator, r, p, peersOf[r][p])
    {
      assert creator[peersOf[r][p]] == k ==> q.peer == peersOf[r][p] && q.room == r && q.peerId == p && !q.existed;
    }
  }

  lemma FailKeeps(s: Sfu, k: Call, v: Proviso)
    requires Inv(s, v) && k in s.transports
    ensures Inv(FailTransport(s, k, s.transports[k]), v)
  {
    hide Inv;
    var q := s.transports[k];
    if q.existed {
      ForgetCall(s, k, v);
    } else {
      hide Evict;
      EvictKeeps(s, q.room, q.peerId, v);
      EvictThenForget(s, k, q);
      ForgetCall(Evict(s, q.room, q.peerId), k, v);
    }
  }

  lemma EvictThenForget(s: Sfu, k: Call, q: Pending)
    ensures !Current(Evict(s, q.room, q.peerId), q) && Evict(s, q.room, q.peerId).transports == s.transports
  {
    hide Close;
  }

  lemma EndKeeps(s: Sfu, k: Call, v: Proviso)
    requires Inv(s, v) && k in s.transports
    ensures Inv(EndTransport(s, k, s.transports[k]), v)
  {
    hide Inv, Install;
    if Current(s, s.transports[k]) {
      InstallKeeps(s, k, s.transports[k], v);
    } else {
      ForgetCall(s, k, v);
    }
  }

  lemma InstallKeeps(s: Sfu, k: Call, q: Pending, v: Proviso)
    requires Inv(s, v) && k in s.transports && q == s.transports[k] && Current(s, q)
    ensures Inv(Install(s.(transports := s.transports - {k}), q, s.next), v)
  {
    hide Named, Registered, Creating, Sharing, Accounting, Known, Vacant, Fresh, Unique, Held, Filled, Serving,
         NoZombies;
    var t := s.next;
    FreshKnown(s.next, s.idOf, s.peersOf, s.slots, s.open, s.madeFor, s.transports);
    PeerKnown(s.peersOf, s.slots, q);
    InstallFresh(s.next, s.idOf, s.peersOf, s.slots, s.open, s.madeFor, s.transports, k, q);
    InstallHeld(s.open, s.madeFor, s.peersOf, s.slots, q, t);
    InstallFilled(s.slots, s.madeFor, q, t);
    InstallServing(s.open, s.closed, s.madeFor, s.peersOf, s.slots, q, t);
    InstallZombies(s.peersOf, s.slots, s.creator, s.transports, k, q, t);
  }

  lemma PeerKnown(peersOf: Members, slots: map<PeerRef, Slots>, q: Pending)
    requires AllKnown(peersOf, slots) && q.room in peersOf && q.peerId in peersOf[q.room]
    requires peersOf[q.room][q.peerId] == q.peer
    ensures q.peer in slots
  {
  }

  function Swap(open: map<Transport, Ref>, slots: map<PeerRef, Slots>, q: Pending, t: Transport): map<Transport, Ref>
    requires q.peer in slots
  {
    Close(open, slots[q.peer].In(q.direction))[t := q.room]
  }

  lemma InstallFresh(next: int, idOf: map<Ref, RoomId>, peersOf: Members, slots: map<PeerRef, Slots>,
                     open: map<Transport, Ref>, madeFor: map<Transport, Pending>, transports: map<Call, Pending>,
                     k: Call, q: Pending)
    requires Fresh(next, idOf, peersOf, slots, open, madeFor, transports) && q.peer in slots
    ensures Fresh(next + 1, idOf, peersOf, slots[q.peer := slots[q.peer].With(q.direction, next)],
                  Swap(open, slots, q, next), madeFor[next := q], transports - {k})
  {
  }

  lemma InstallHeld(open: map<Transport, Ref>, madeFor: map<Transport, Pending>, peersOf: Members,
                    slots: map<PeerRef, Slots>, q: Pending, t: Transport)
    requires Held(open, madeFor, peersOf, slots) && t !in madeFor && q.peer in slots
    requires q.room in peersOf && q.peerId in peersOf[q.room] && peersOf[q.room][q.peerId] == q.peer
    ensures Held(Swap(open, slots, q, t), madeFor[t := q], peersOf, slots[q.peer := slots[q.peer].With(q.direction, t)])
  {
    forall u | u in Swap(open, slots, q, t) && u != t
      ensures u in open && (madeFor[u].peer == q.peer ==> madeFor[u].direction != q.direction)
    {
    }
  }

  lemma InstallFilled(slots: map<PeerRef, Slots>, madeFor: map<Transport, Pending>, q: Pending, t: Transport)
    requires Filled(slots, madeFor) && t !in madeFor && q.peer in slots
    ensures Filled(slots[q.peer := slots[q.peer].With(q.direction, t)], madeFor[t := q])
  {
    var slots' := slots[q.peer := slots[q.peer].With(q.direction, t)];
    forall x, d: Direction | x in slots' && slots'[x].In(d).Some?
      ensures (x == q.peer && d == q.direction && slots'[x].In(d).value == t) || slots'[x].In(d) == slots[x].In(d)
    {
    }
  }

  lemma InstallServing(open: map<Transport, Ref>, closed: set<Ref>, madeFor: map<Transport, Pending>, peersOf: Members,
                       slots: map<PeerRef, Slots>, q: Pending, t: Transport)
    requires Serving(open, closed, peersOf, slots) && Filled(slots, madeFor) && Unique(peersOf) && t !in madeFor
    requires q.peer in slots
    requires q.room in peersOf && q.peerId in peersOf[q.room] && peersOf[q.room][q.peerId] == q.peer
    ensures Serving(Swap(open, slots, q, t), closed, peersOf, slots[q.peer := slots[q.peer].With(q.direction, t)])
  {
    var slots', open' := slots[q.peer := slots[q.peer].With(q.direction, t)], Swap(open, slots, q, t);
    forall r, p, d: Direction | r in peersOf && r !in closed && p in peersOf[r] && peersOf[r][p] in slots'
                                && slots'[peersOf[r][p]].In(d).Some?
      ensures slots'[peersOf[r][p]].In(d).value in open' && open'[slots'[peersOf[r][p]].In(d).value] == r
    {
      var y := peersOf[r][p];
      if y != q.peer || d != q.direction {
        assert slots'[y].In(d) == slots[y].In(d);
        OtherTransport(slots, madeFor, q.peer, y, q.direction, d);
      }
    }
  }

  lemma InstallZombies(peersOf: Members, slots: map<PeerRef, Slots>, creator: map<PeerRef, Call>,
                       transports: map<Call, Pending>, k: Call, q: Pending, t: Transport)
    requires NoZombies(peersOf, slots, creator, transports) && k in transports && q == transports[k] && q.peer in slots
    ensures NoZombies(peersOf, slots[q.peer := slots[q.peer].With(q.direction, t)], creator, transports - {k})
  {
    var slots' := slots[q.peer := slots[q.peer].With(q.direction, t)];
    assert NoZombies(peersOf, slots', creator, transports) by { hide Arriving; }
    DropZombies(peersOf, slots', creator, transports, k);
  }

  // ----- Every event -----

  lemma StepKeeps(s: Sfu, e: Event, v: Proviso)
    requires Inv(s, v) && !Breaks(s, e, v)
    ensures Inv(Step(s, e), v)
  {
    hide Inv, BeginGetOrCreate, RegisterRoom, AbandonCreation, ResumeCaller, BeginTransport, EndTransport,
         FailTransport, Evict, BeginClose, EndClose;
    match e {
      case GetOrCreateRoom(k, id, w) => if k !in s.callers && k !in s.creations { GetKeeps(s, k, id, w, v); }
      case RouterCreated(k) =>
        if k in s.creations && k in s.wanted && s.creations[k].CreatingRouter? {
          RegisterKeeps(s, k, s.wanted[k], s.creations[k].worker, v);
        }
      case RouterFailed(k) =>
        if k in s.creations && s.creations[k].CreatingRouter? { AbandonKeeps(s, k, s.creations[k].worker, v); }
      case Settle(k) =>
        if k in s.callers && s.callers[k].Waiting? && s.callers[k].creation in s.creations {
          ResumeKeeps(s, k, s.callers[k].creation, v);
        }
      case CreateTransport(k, id, p, d) =>
        if k !in s.transports && k !in s.creator.Values && id in s.rooms { BeginTransportKeeps(s, k, id, p, d, v); }
      case TransportCreated(k) => if k in s.transports { EndKeeps(s, k, v); }
      case TransportFailed(k) => if k in s.transports { FailKeeps(s, k, v); }
      case RemovePeer(id, p) => if id in s.rooms { EvictKeeps(s, s.rooms[id], p, v); }
      case SetRecording(id, on) => SetRecordingKeeps(s, id, on, v);
      case CloseRoom(k, id) => if k !in s.closes && id in s.rooms { BeginCloseKeeps(s, k, id, v); }
      case RecordingStopped(k) => if k in s.closes { EndCloseKeeps(s, k, v); }
      case RecordingStopFailed(k) => StopFailedKeeps(s, k, v);
    }
  }

  lemma RecordingKeeps(s: Sfu, recording: set<Ref>, v: Proviso)
    requires Inv(s, v)
    ensures Inv(s.(recording := recording), v)
  {
    hide Named, Registered, Creating, Sharing, Accounting, Known, Vacant, Fresh, Unique, Held, Filled, Serving,
         NoZombies;
  }

  lemma SetRecordingKeeps(s: Sfu, id: RoomId, on: bool, v: Proviso)
    requires Inv(s, v)
    ensures Inv(Step(s, SetRecording(id, on)), v)
  {
    hide Inv;
    if id in s.rooms {
      RecordingKeeps(s, if on then s.recording + {s.rooms[id]} else s.recording - {s.rooms[id]}, v);
    }
  }

  lemma AlwaysStep(s: Sfu, e: Event)
    requires Always(s)
    ensures Always(Step(s, e))
  {
    hide Always, Step;
    StepKeeps(s, e, AnyRun);
  }

  lemma {:induction false} AnyRunKeeps(s: Sfu, es: seq<Event>)
    requires Always(s)
    ensures Always(After(s, es))
  {
    hide Always, Step;
    if es == [] {
    } else {
      AnyRunKeeps(s, es[..|es| - 1]);
      AlwaysStep(After(s, es[..|es| - 1]), es[|es| - 1]);
    }
  }

  lemma {:induction false} AfterKeeps(s: Sfu, es: seq<Event>, v: Proviso)
    requires Inv(s, v) && Follows(s, es, v)
    ensures Inv(After(s, es), v)
  {
    hide Inv, Breaks, Step;
    if es == [] {
    } else {
      var before := es[..|es| - 1];
      AfterKeeps(s, before, v);
      StepKeeps(After(s, before), es[|es| - 1], v);
    }
  }

  lemma ReachableKeeps(s: Sfu, v: Proviso)
    requires Reachable(s, v)
    ensures Inv(s, v)
  {
    hide Inv, After, Follows, Init;
    var workers, es :| Leads(workers, es, s, v);
    InitInv(workers, v);
    AfterKeeps(Init(workers), es, v);
  }
}
