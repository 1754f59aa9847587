/** MediaRoomsService, method by method, over the maps it keeps in step. Any other
    calls run wherever a method awaits. */
module MediaRoomsService {
  import opened Wrappers
  import opened SfuRooms
  import opened SfuInvariants
  import opened SfuFrames
  import opened SfuAwaits
  import opened SfuSteps

  datatype RoomResult = Room(room: Ref) | Failure | StillWaiting(creation: Call)

  datatype TransportResult = NotFound | Rejected | PeerGone | Made(transport: Transport)

  datatype CloseResult = Closed | Occupied | StopFailed

  class Service {
    const workers: set<Worker>
    var routersPerWorker: map<Worker, int>
    var rooms: map<RoomId, Ref>
    var pendingRooms: map<RoomId, Call>
    var peersOf: map<Ref, map<PeerId, PeerRef>>  // MediaRoom.peers
    var slots: map<PeerRef, Slots>               // MediaPeer.sendTransport, recvTransport
    var open: map<Transport, Ref>

    // The suspended calls, and which objects exist.
    var rest: Sfu
    ghost var run: seq<Event>

    function Value(): Sfu
      reads this
    {
      rest.(routersPerWorker := routersPerWorker, rooms := rooms, pendingRooms := pendingRooms, peersOf := peersOf,
            slots := slots, open := open)
    }

    ghost predicate Valid()
      reads this
    {
      Value() == After(Init(workers), run)
    }

    constructor (workers: set<Worker>)
      ensures Valid() && run == [] && this.workers == workers
    {
      this.workers, routersPerWorker := workers, map w | w in workers :: 0;
      rooms, pendingRooms, peersOf, slots, open := map[], map[], map[], map[], map[];
      rest, run := Init(workers), [];
    }

    method Become(s: Sfu)
      modifies this
      ensures Value() == s && run == old(run)
    {
      routersPerWorker, rooms, pendingRooms := s.routersPerWorker, s.rooms, s.pendingRooms;
      peersOf, slots, open, rest := s.peersOf, s.slots, s.open, s;
    }

    /** An await of call `k`: whatever other calls do before it resumes. */
    method Turn(k: Call)
      requires Valid()
      modifies this
      ensures Valid() && old(run) <= run && SameCall(old(Value()), Value(), k)
      ensures SameIds(old(rest.idOf), rest.idOf)
    {
      hide After, NoneOfCall, SameCall, SameIds, Init, Always;
      var others: seq<Event> := *;
      if NoneOfCall(others, k) {
        AfterConcat(Init(workers), run, others);
        OthersKeepCall(Value(), others, k);
        InitInv(workers, AnyRun);
        AnyRunKeeps(Init(workers), run);
        OthersKeepIds(Value(), others);
        Become(After(Value(), others));
        run := run + others;
      } else {
        Unchanged(Value(), k);
        assert SameIds(rest.idOf, rest.idOf) by { IdsUnchanged(rest.idOf); }
      }
    }

    /** The stretch of code up to here was event `e`. */
    method Commit(was: Sfu, e: Event)
      requires was == After(Init(workers), run)
      requires Maps(Step(was, e), routersPerWorker, rooms, pendingRooms, peersOf, slots, open)
      modifies `rest, `run
      ensures Valid() && run == old(run) + [e] && Value() == Step(was, e)
    {
      hide After, Step, Init;
      AfterSnoc(Init(workers), run, e);
      rest := Step(was, e);
      run := run + [e];
    }

    // ----- getOrCreateRoom -----

    /** WorkerPoolService.reserveWorker: any least loaded worker; which one the
        pool prefers is WorkerPool's subject. */
    method LeastLoadedWorker() returns (chosen: Worker)
      requires routersPerWorker != map[]
      ensures LeastLoaded(routersPerWorker, chosen)
    {
      var todo := routersPerWorker.Keys;
      SomeKey(routersPerWorker);
      chosen :| chosen in routersPerWorker.Keys;
      while todo != {}
        invariant todo <= routersPerWorker.Keys && chosen in routersPerWorker
        invariant forall v | v in routersPerWorker.Keys - todo :: routersPerWorker[chosen] <= routersPerWorker[v]
        decreases |todo|
      {
        SomeMember(todo);
        var worker :| worker in todo;
        if routersPerWorker[worker] < routersPerWorker[chosen] {
          chosen := worker;
        }
        todo := todo - {worker};
      }
    }

    method GetOrCreateRoom(k: Call, id: RoomId) returns (r: RoomResult)
      requires Valid() && k !in rest.callers && k !in rest.creations
      modifies this
      ensures Valid() && old(run) <= run
      ensures id in old(rooms) ==> r == Room(old(rooms)[id]) && rooms == old(rooms)
      ensures r.Room? ==> exists via :: CallerAt(Value(), k, Got(via, r.room))
      ensures r == Failure ==> CallerAt(Value(), k, Threw)
      ensures r.StillWaiting? ==> CallerAt(Value(), k, Waiting(r.creation))
    {
      hide After, Init, Valid, Value, CreationAt;
      if id in rooms {
        ReturnExisting(k, id);
        return Room(rooms[id]);
      }
      var creation;
      if id in pendingRooms {
        creation := SharePending(k, id);
      } else {
        creation := k;
        CreateRoom(k, id);
      }
      r := AwaitCreation(k, creation);
    }

    method ReturnExisting(k: Call, id: RoomId)
      requires Valid() && k !in rest.callers && k !in rest.creations && id in rooms
      modifies this
      ensures Valid() && old(run) <= run && rooms == old(rooms)
      ensures CallerAt(Value(), k, Got(None, rooms[id]))
    {
      hide After, Init, Step, Maps;
      var was := Value();
      ExistingStep(was, k, id, 0);
      SameMaps();
      Commit(was, Event.GetOrCreateRoom(k, id, 0));
    }

    method SharePending(k: Call, id: RoomId) returns (creation: Call)
      requires Valid() && k !in rest.callers && k !in rest.creations && id !in rooms && id in pendingRooms
      modifies this
      ensures Valid() && old(run) <= run && CallerAt(Value(), k, Waiting(creation))
    {
      hide After, Init, Step, Maps;
      var was := Value();
      creation := pendingRooms[id];
      ShareStep(was, k, id, 0);
      Commit(was, Event.GetOrCreateRoom(k, id, 0));
    }

    /** createRoom up to its await: the worker is booked and the id is pending. */
    method BookWorker(k: Call, id: RoomId) returns (ok: bool, worker: Worker)
      requires Valid() && k !in rest.callers && k !in rest.creations && id !in rooms && id !in pendingRooms
      modifies this
      ensures Valid() && old(run) <= run && CallerAt(Value(), k, Waiting(k))
      ensures CreationAt(Value(), k, if ok then CreatingRouter(worker) else Creation.Rejected, id)
    {
      hide After, Init, Step, Maps;
      var was := Value();
      worker := 0;
      ok := routersPerWorker != map[];
      if ok {
        worker := LeastLoadedWorker();
        StartStep(was, k, id, worker);
        routersPerWorker := routersPerWorker[worker := routersPerWorker[worker] + 1];
      } else {
        NoWorkersStep(was, k, id, worker);
      }
      pendingRooms := pendingRooms[id := k];
      Commit(was, Event.GetOrCreateRoom(k, id, worker));
    }

    /** createRoom */
    method CreateRoom(k: Call, id: RoomId)
      requires Valid() && k !in rest.callers && k !in rest.creations && id !in rooms && id !in pendingRooms
      modifies this
      ensures Valid() && old(run) <= run && CallerAt(Value(), k, Waiting(k))
    {
      hide After, Init, Valid, Value, CreationAt, CallerAt;
      var ok, worker := BookWorker(k, id);
      if ok {
        var _, _ := CreateRouterOrReleaseWorker(k, id, worker);
      }
    }

    /** The router arrives or it does not; `before` is the state in which it does.
        Either way the creation settles: the room takes a place that is free, or
        the worker gives its booking back. */
    method CreateRouterOrReleaseWorker(k: Call, id: RoomId, worker: Worker)
      returns (created: bool, ghost before: Sfu)
      requires Valid() && CallerAt(Value(), k, Waiting(k)) && CreationAt(Value(), k, CreatingRouter(worker), id)
      modifies this
      ensures Valid() && old(run) <= run && CallerAt(Value(), k, Waiting(k))
      ensures created ==> CreationAt(Value(), k, Resolved(before.next), id) && id !in before.rooms
      ensures created ==> rooms == before.rooms[id := before.next] && routersPerWorker == before.routersPerWorker
      ensures created ==> before.next in peersOf && peersOf[before.next] == map[]
      ensures !created ==> CreationAt(Value(), k, Creation.Rejected, id) && rooms == before.rooms
      ensures !created ==> routersPerWorker == Release(before.routersPerWorker, worker)
    {
      hide After, Init, Step, Maps, Release;
      Turn(k);
      before := Value();
      created := *;
      if created {
        RegisterCreated(k, id, worker);
      } else {
        ReleaseWorker(k, id, worker);
      }
    }

    method RegisterCreated(k: Call, id: RoomId, worker: Worker)
      requires Valid() && CallerAt(Value(), k, Waiting(k)) && CreationAt(Value(), k, CreatingRouter(worker), id)
      modifies this
      ensures Valid() && run == old(run) + [RouterCreated(k)] && CallerAt(Value(), k, Waiting(k))
      ensures CreationAt(Value(), k, Resolved(old(rest.next)), id) && id !in old(rooms)
      ensures rooms == old(rooms)[id := old(rest.next)] && routersPerWorker == old(routersPerWorker)
      ensures old(rest.next) in peersOf && peersOf[old(rest.next)] == map[]
    {
      hide After, Init, Step, Maps;
      var was := Value();
      NotYetThere(k, id, worker);
      RouterStep(was, k, id, worker);
      var room := rest.next;
      rooms := rooms[id := room];
      peersOf := peersOf[room := map[]];
      Commit(was, RouterCreated(k));
    }

    method ReleaseWorker(k: Call, id: RoomId, worker: Worker)
      requires Valid() && CallerAt(Value(), k, Waiting(k)) && CreationAt(Value(), k, CreatingRouter(worker), id)
      modifies this
      ensures Valid() && run == old(run) + [RouterFailed(k)] && CallerAt(Value(), k, Waiting(k))
      ensures CreationAt(Value(), k, Creation.Rejected, id) && rooms == old(rooms)
      ensures routersPerWorker == Release(old(routersPerWorker), worker)
    {
      hide After, Init, Step, Maps, Release;
      var was := Value();
      NoRouterStep(was, k, id, worker);
      TrackRouterClosed(worker);
      Commit(was, RouterFailed(k));
    }

    lemma NotYetThere(k: Call, id: RoomId, worker: Worker)
      requires Valid() && CreationAt(Value(), k, CreatingRouter(worker), id)
      ensures id !in rooms
    {
      hide After, Init, Named, Sharing, Known, Fresh, Unique, Held, Filled, Serving, NoZombies;
      RunKeeps();
    }

    lemma RunKeeps()
      requires Valid()
      ensures Always(Value())
    {
      hide After, Init, Always;
      InitInv(workers, AnyRun);
      AnyRunKeeps(Init(workers), run);
    }

    method TrackRouterClosed(worker: Worker)
      modifies `routersPerWorker
      ensures routersPerWorker == Release(old(routersPerWorker), worker)
    {
      if worker !in routersPerWorker {
        return;
      }
      var count := routersPerWorker[worker];
      routersPerWorker := routersPerWorker[worker := if count - 1 > 0 then count - 1 else 0];
    }

    /** `await creation`, and pendingRooms.delete by its creator */
    method AwaitCreation(k: Call, creation: Call) returns (r: RoomResult)
      requires Valid() && CallerAt(Value(), k, Waiting(creation))
      modifies this
      ensures Valid() && old(run) <= run
      ensures r.Room? ==> exists via :: CallerAt(Value(), k, Got(via, r.room))
      ensures r == Failure ==> CallerAt(Value(), k, Threw)
      ensures r.StillWaiting? ==> r.creation == creation && CallerAt(Value(), k, Waiting(creation))
    {
      hide After, Init, Step, Maps;
      Turn(k);
      if creation !in rest.creations || rest.creations[creation].CreatingRouter? {
        return StillWaiting(creation);
      }
      var was := Value();
      var settled := rest.creations[creation];
      SettleStep(was, k, creation);
      if creation == k && k in rest.wanted {
        pendingRooms := pendingRooms - {rest.wanted[k]};
      }
      Commit(was, Settle(k));
      if settled.Resolved? {
        assert CallerAt(Value(), k, Got(Some(creation), settled.room));
        return Room(settled.room);
      }
      return Failure;
    }

    lemma SameMaps()
      ensures Maps(Value(), routersPerWorker, rooms, pendingRooms, peersOf, slots, open)
    {
    }

    // ----- createTransport -----

    method CloseTransport(t: Option<Transport>)
      modifies `open
      ensures open == Close(old(open), t)
    {
      if t.Some? {
        open := open - {t.value};
      }
    }

    /** MediaRoom.removePeer */
    method EvictPeer(room: Ref, peerId: PeerId)
      modifies `peersOf, `open
      ensures peersOf == Evict(old(Value()), room, peerId).peersOf && open == Evict(old(Value()), room, peerId).open
    {
      if room !in peersOf || peerId !in peersOf[room] {
        return;
      }
      var peer := peersOf[room][peerId];
      if peer in slots {
        CloseTransport(slots[peer].send);
        CloseTransport(slots[peer].recv);
      }
      peersOf := peersOf[room := peersOf[room] - {peerId}];
    }

    method CreateTransport(k: Call, id: RoomId, peerId: PeerId, direction: Direction) returns (r: TransportResult)
      requires Valid() && k !in rest.transports && k !in rest.creator.Values
      modifies this
      ensures Valid() && old(run) <= run
      ensures id !in old(rooms) ==> r == NotFound && run == old(run)
      ensures r.Made? ==> id in old(rooms) && Installed(old(rooms)[id], peerId, direction, r.transport)
    {
      hide After, Init, Valid, Value, Installed;
      if id !in rooms {
        return NotFound;
      }
      var room := rooms[id];
      var peerExisted, peer := GetOrCreatePeer(k, id, room, peerId, direction);
      r := AwaitTransport(k, Pending(room, peerId, peer, peerExisted, direction));
    }

    /** The transport is open and in its slot, of a peer that is in the room. */
    ghost predicate Installed(room: Ref, peerId: PeerId, direction: Direction, t: Transport)
      reads this
    {
      && t in open && open[t] == room && room in peersOf && peerId in peersOf[room]
      && peersOf[room][peerId] in slots && slots[peersOf[room][peerId]].In(direction) == Some(t)
    }

    /** createTransport up to its await */
    method GetOrCreatePeer(k: Call, id: RoomId, room: Ref, peerId: PeerId, direction: Direction)
      returns (existed: bool, peer: PeerRef)
      requires Valid() && k !in rest.transports && k !in rest.creator.Values
      requires id in rooms && rooms[id] == room
      modifies this
      ensures Valid() && old(run) <= run
      ensures PendingAt(Value(), k, Pending(room, peerId, peer, existed, direction))
    {
      hide After, Init, Step, Maps;
      var was := Value();
      var peers := if room in peersOf then peersOf[room] else map[];
      existed := peerId in peers;
      if existed {
        peer := peers[peerId];
        ReusePeerStep(was, k, id, peerId, direction);
      } else {
        peer := rest.next;
        NewPeerStep(was, k, id, peerId, direction);
        peersOf := peersOf[room := peers[peerId := peer]];
        slots := slots[peer := Slots(None, None)];
      }
      Commit(was, Event.CreateTransport(k, id, peerId, direction));
    }

    /** createTransport from its await on */
    method AwaitTransport(k: Call, q: Pending) returns (r: TransportResult)
      requires Valid() && PendingAt(Value(), k, q)
      modifies this
      ensures Valid() && old(run) <= run && r != NotFound
      ensures r.Made? ==> Installed(q.room, q.peerId, q.direction, r.transport)
    {
      hide After, Init, Valid, Value, Installed, PendingAt;
      Resume(k, q);
      var created := *;
      if !created {
        DiscardPeerIfJustCreated(k, q);
        return TransportResult.Rejected;
      }
      r := PlaceTransport(k, q);
    }

    method Resume(k: Call, q: Pending)
      requires Valid() && PendingAt(Value(), k, q)
      modifies this
      ensures Valid() && old(run) <= run && PendingAt(Value(), k, q)
    {
      hide After, Init;
      Turn(k);
    }

    method DiscardPeerIfJustCreated(k: Call, q: Pending)
      requires Valid() && PendingAt(Value(), k, q)
      modifies this
      ensures Valid() && old(run) <= run
    {
      hide After, Init, Step, Maps, PendingAt, Evict;
      var was := Value();
      if q.existed {
        KeptPeerStep(was, k, q);
      } else {
        DiscardPeerStep(was, k, q);
        EvictPeer(q.room, q.peerId);
      }
      Commit(was, TransportFailed(k));
    }

    method PlaceTransport(k: Call, q: Pending) returns (r: TransportResult)
      requires Valid() && PendingAt(Value(), k, q)
      modifies this
      ensures Valid() && old(run) <= run && r != NotFound
      ensures r.Made? ==> Installed(q.room, q.peerId, q.direction, r.transport)
    {
      hide After, Init, Valid, PendingAt, Installed, Current;
      var peerRemovedDuringCreation := !Current(Value(), q);
      if peerRemovedDuringCreation {
        CloseLateTransport(k, q);
        return PeerGone;
      }
      var transport := ReplaceTransport(k, q);
      return Made(transport);
    }

    /** The new transport is closed again; nobody ever had it. */
    method CloseLateTransport(k: Call, q: Pending)
      requires Valid() && PendingAt(Value(), k, q) && !Current(Value(), q)
      modifies this
      ensures Valid() && old(run) <= run && open == old(open) && slots == old(slots) && peersOf == old(peersOf)
    {
      hide After, Init, Step, PendingAt;
      var was := Value();
      LateStep(was, k, q);
      Commit(was, TransportCreated(k));
    }

    method ReplaceTransport(k: Call, q: Pending) returns (transport: Transport)
      requires Valid() && PendingAt(Value(), k, q) && Current(Value(), q)
      modifies this
      ensures Valid() && old(run) <= run && Installed(q.room, q.peerId, q.direction, transport)
    {
      hide After, Init, Step, Maps, PendingAt, SlotsOf, Installed;
      var was := Value();
      InstallStep(was, k, q);
      transport := rest.next;
      FillSlot(q, transport);
      Commit(was, TransportCreated(k));
      FilledSlot(was, q, transport);
    }

    method FillSlot(q: Pending, transport: Transport)
      modifies `open, `slots
      ensures open == Close(old(open), SlotsOf(old(Value()), q.peer).In(q.direction))[transport := q.room]
      ensures slots == old(slots)[q.peer := SlotsOf(old(Value()), q.peer).With(q.direction, transport)]
    {
      var own := SlotsOf(Value(), q.peer);
      CloseTransport(own.In(q.direction));
      open := open[transport := q.room];
      slots := slots[q.peer := own.With(q.direction, transport)];
    }

    lemma FilledSlot(was: Sfu, q: Pending, t: Transport)
      requires Current(was, q) && peersOf == was.peersOf
      requires slots == was.slots[q.peer := SlotsOf(was, q.peer).With(q.direction, t)]
      requires t in open && open[t] == q.room
      ensures Installed(q.room, q.peerId, q.direction, t)
    {
    }

    // ----- removePeer and closeRoom -----

    method RemovePeer(id: RoomId, peerId: PeerId)
      requires Valid()
      modifies this
      ensures Valid() && old(run) <= run
      ensures run == if id in rooms then old(run) + [Event.RemovePeer(id, peerId)] else old(run)
      ensures id in rooms ==> peerId !in PeersIn(Value(), rooms[id])
    {
      hide After, Init, Step, Maps;
      if id !in rooms {
        return;
      }
      var was := Value();
      RemovePeerStep(was, id, peerId);
      EvictPeer(rooms[id], peerId);
      Commit(was, Event.RemovePeer(id, peerId));
    }

    /** MediaRoom.isEmpty */
    method IsEmpty(id: RoomId) returns (empty: bool)
      requires Valid() && id in rooms
      ensures empty <==> PeersIn(Value(), rooms[id]) == map[]
      ensures rooms[id] in peersOf && (empty ==> peersOf[rooms[id]] == map[])
    {
      hide After, Init;
      RoomKnown(id);
      return peersOf[rooms[id]] == map[];
    }

    /** Occupied only if somebody is in the room; when it succeeds, the id has no
        room afterwards. */
    method CloseRoom(k: Call, id: RoomId) returns (r: CloseResult)
      requires Valid() && k !in rest.closes
      modifies this
      ensures Valid() && old(run) <= run
      ensures r == Occupied <==> id in old(rooms) && PeersIn(old(Value()), old(rooms)[id]) != map[]
      ensures r == StopFailed ==> id in old(rooms) && old(rooms)[id] in old(rest).recording
      ensures r == Closed ==> id !in rooms
      ensures r == Occupied || id !in old(rooms) ==> run == old(run)
    {
      hide After, Init, Valid, Value, PeersIn;
      if id !in rooms {
        return Closed;
      }
      var room := rooms[id];
      var empty := IsEmpty(id);
      if !empty {
        return Occupied;
      }
      if room in rest.recording {
        var stopped := StopRoomRecording(k, id, room);
        return if stopped then Closed else StopFailed;
      }
      CloseNow(k, id, room);
      return Closed;
    }

    method CloseRouter(id: RoomId, room: Ref, worker: Worker)
      modifies `open, `routersPerWorker, `rooms
      ensures open == TakeDown(old(open), room) && routersPerWorker == Release(old(routersPerWorker), worker)
      ensures rooms == old(rooms) - {id}
    {
      open := map t | t in open && open[t] != room :: open[t];
      TrackRouterClosed(worker);
      rooms := rooms - {id};
    }

    method CloseNow(k: Call, id: RoomId, room: Ref)
      requires Valid() && k !in rest.closes && id in rooms && rooms[id] == room
      requires room in peersOf && peersOf[room] == map[] && room !in rest.recording
      modifies this
      ensures Valid() && old(run) <= run && id !in rooms
    {
      hide After, Init, Step, Maps, Release, TakeDown;
      RoomKnown(id);
      var was := Value();
      CloseStep(was, k, id);
      CloseRouter(id, room, rest.workerOf[room]);
      Commit(was, Event.CloseRoom(k, id));
    }

    /** A recording room is closed once its recording has stopped, whatever has
        happened to the room by then. If the recording cannot be stopped, the
        room stays. */
    method StopRoomRecording(k: Call, id: RoomId, room: Ref) returns (stopped: bool)
      requires Valid() && k !in rest.closes && id in rooms && rooms[id] == room
      requires room in peersOf && peersOf[room] == map[] && room in rest.recording
      modifies this
      ensures Valid() && old(run) <= run && k !in rest.closes
      ensures stopped ==> id !in rooms
    {
      hide After, Init, Valid, Value;
      AskToStop(k, id, room);
      stopped := *;
      if stopped {
        CloseStopped(k, id, room);
      } else {
        GiveUp(k);
      }
    }

    method GiveUp(k: Call)
      requires Valid()
      modifies this
      ensures Valid() && run == old(run) + [RecordingStopFailed(k)] && k !in rest.closes
    {
      hide After, Init, Step, Maps;
      var was := Value();
      StopFailedStep(was, k);
      SameMaps();
      Commit(was, RecordingStopFailed(k));
    }

    method AskToStop(k: Call, id: RoomId, room: Ref)
      requires Valid() && k !in rest.closes && id in rooms && rooms[id] == room
      requires room in peersOf && peersOf[room] == map[] && room in rest.recording
      modifies this
      ensures Valid() && old(run) <= run
      ensures k in rest.closes && rest.closes[k] == room && room in rest.idOf && rest.idOf[room] == id
    {
      hide After, Init, Step, Maps;
      RoomKnown(id);
      var was := Value();
      StopFirstStep(was, k, id);
      Commit(was, Event.CloseRoom(k, id));
      Turn(k);
    }

    method CloseStopped(k: Call, id: RoomId, room: Ref)
      requires Valid() && k in rest.closes && rest.closes[k] == room && room in rest.idOf && rest.idOf[room] == id
      modifies this
      ensures Valid() && old(run) <= run && id !in rooms && k !in rest.closes
    {
      hide After, Init, Step, Maps, Release, TakeDown;
      var was := Value();
      ClosingKnown(k, room);
      StoppedStep(was, k, id);
      CloseRouter(id, room, rest.workerOf[room]);
      Commit(was, RecordingStopped(k));
    }

    lemma ClosingKnown(k: Call, room: Ref)
      requires Valid() && k in rest.closes && rest.closes[k] == room && room in rest.idOf
      ensures room in rest.workerOf
    {
      hide After, Init, Always;
      RunKeeps();
      ClosingRoom(Value(), k);
    }

    lemma RoomKnown(id: RoomId)
      requires Valid() && id in rooms
      ensures var r := rooms[id]; r in peersOf && r in rest.idOf && r in rest.workerOf && rest.idOf[r] == id
    {
      hide After, Init, Creating, Sharing, Fresh, Unique, Held, Filled, Serving, NoZombies;
      RunKeeps();
      assert rooms[id] in Value().idOf.Keys;
    }
  }

  ghost predicate SameIds(was: map<Ref, RoomId>, now: map<Ref, RoomId>) {
    forall r | r in was :: r in now && now[r] == was[r]
  }

  lemma IdsUnchanged(ids: map<Ref, RoomId>)
    ensures SameIds(ids, ids)
  {
  }

  lemma IdsAddUp(a: map<Ref, RoomId>, b: map<Ref, RoomId>, c: map<Ref, RoomId>)
    requires SameIds(a, b) && SameIds(b, c)
    ensures SameIds(a, c)
  {
  }

  lemma StepKeepsIds(s: Sfu, e: Event)
    requires Always(s)
    ensures SameIds(s.idOf, Step(s, e).idOf)
  {
    hide Step, Named, Creating, Sharing, Known, Unique, Held, Filled, Serving, NoZombies;
    StepIds(s, e);
  }

  lemma {:induction false} OthersKeepIds(s: Sfu, es: seq<Event>)
    requires Always(s)
    ensures SameIds(s.idOf, After(s, es).idOf)
  {
    hide Always, Step, SameIds;
    if es == [] {
      IdsUnchanged(s.idOf);
    } else {
      var before := es[..|es| - 1];
      OthersKeepIds(s, before);
      AnyRunKeeps(s, before);
      StepKeepsIds(After(s, before), es[|es| - 1]);
      IdsAddUp(s.idOf, After(s, before).idOf, After(s, es).idOf);
    }
  }

  lemma SomeKey(load: map<Worker, int>)
    ensures load == map[] || exists w :: w in load.Keys
  {
    if forall w :: w !in load.Keys {
      assert load == map[];
    }
  }

  lemma SomeMember(ws: set<Worker>)
    ensures ws == {} || exists w :: w in ws
  {
    if forall w :: w !in ws {
      assert ws == {};
    }
  }
}
