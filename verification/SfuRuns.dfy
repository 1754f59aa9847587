/** Short runs into the situations the theorems describe: each leads there from
    every state with a suitable room, and such a state is reachable. */
module SfuRuns {
  import opened Wrappers
  import opened SfuRooms
  import opened SfuInvariants
  import opened SfuFrames
  import opened SfuAwaits
  import opened SfuSteps
  import opened SfuTheorems

  ghost predicate InRoom(s: Sfu, id: RoomId, r: Ref, p: PeerId) {
    id in s.rooms && s.rooms[id] == r && p in PeersIn(s, r)
  }

  ghost predicate NotInRoom(s: Sfu, id: RoomId, r: Ref, p: PeerId) {
    id in s.rooms && s.rooms[id] == r && p !in PeersIn(s, r)
  }

  /** The name can be given to a new createTransport call. */
  ghost predicate Unused(s: Sfu, k: Call) {
    k !in s.transports && k !in s.creator.Values
  }

  lemma StillUnused(s: Sfu, t: Sfu, l: Call)
    requires Unused(s, l) && SameCall(s, t, l) && l !in t.creator.Values
    ensures Unused(t, l)
  {
  }

  lemma StillPending(s: Sfu, e: Event, k: Call, q: Pending)
    requires PendingAt(s, k, q) && !OfCall(e, k)
    ensures PendingAt(Step(s, e), k, q)
  {
    hide Step;
    StepOfOthers(s, e, k);
  }

  // ----- A peer is removed and comes back, then its first transport fails -----

  lemma Joins(s: Sfu, k: Call, id: RoomId, r: Ref, p: PeerId, d: Direction)
    requires NotInRoom(s, id, r, p) && Unused(s, k)
    ensures var t := Step(s, CreateTransport(k, id, p, d));
            && InRoom(t, id, r, p) && PeersIn(t, r)[p] == s.next
            && PendingAt(t, k, Pending(r, p, s.next, false, d))
  {
    NewPeerStep(s, k, id, p, d);
    hide Step;
  }

  lemma JoinLeavesUnused(s: Sfu, k: Call, id: RoomId, r: Ref, p: PeerId, d: Direction, l: Call)
    requires NotInRoom(s, id, r, p) && Unused(s, k) && Unused(s, l) && k != l
    ensures Unused(Step(s, CreateTransport(k, id, p, d)), l)
  {
    hide Step, SameCall;
    NewPeerCreator(s, k, id, p, d);
    StepOfOthers(s, CreateTransport(k, id, p, d), l);
    StillUnused(s, Step(s, CreateTransport(k, id, p, d)), l);
  }

  lemma Leaves(s: Sfu, id: RoomId, r: Ref, p: PeerId)
    requires InRoom(s, id, r, p)
    ensures NotInRoom(Step(s, RemovePeer(id, p)), id, r, p)
  {
    hide Step, Evict;
    RemovePeerStep(s, id, p);
    EvictPeers(s, r, p);
  }

  lemma LeaveLeavesUnused(s: Sfu, id: RoomId, p: PeerId, l: Call)
    requires Unused(s, l)
    ensures Unused(Step(s, RemovePeer(id, p)), l)
  {
    hide Step, SameCall;
    RemovePeerCreator(s, id, p);
    StepOfOthers(s, RemovePeer(id, p), l);
    StillUnused(s, Step(s, RemovePeer(id, p)), l);
  }

  lemma Lands(s: Sfu, k: Call, id: RoomId, q: Pending)
    requires InRoom(s, id, q.room, q.peerId) && PeersIn(s, q.room)[q.peerId] == q.peer && PendingAt(s, k, q)
    ensures var t := Step(s, TransportCreated(k));
            && InRoom(t, id, q.room, q.peerId)
            && SlotsOf(t, PeersIn(t, q.room)[q.peerId]) != Slots(None, None)
  {
    hide Step;
    InstallStep(s, k, q);
  }

  /** Two calls for the same absent peer, which is removed between them: when the
      second one's transport is there and the first one's fails, the failure
      takes down a transport that works. */
  lemma FailureDisturbsAnother(s: Sfu, k: Call, l: Call, id: RoomId, p: PeerId, v: Proviso)
    requires Reachable(s, v) && !v.NoLateJoin? && id in s.rooms && p !in PeersIn(s, s.rooms[id])
    requires Unused(s, k) && Unused(s, l) && k != l
    ensures var t := Step(Step(Step(Step(s, CreateTransport(k, id, p, Send)), RemovePeer(id, p)),
                          CreateTransport(l, id, p, Recv)), TransportCreated(l));
            && Reachable(t, v) && k in t.transports && !t.transports[k].existed
            && Step(t, TransportFailed(k)).open != t.open
  {
    hide Step, Reachable, PeersIn, Unused, Idle, Always;
    var r := s.rooms[id];
    var e1, e2 := CreateTransport(k, id, p, Send), RemovePeer(id, p);
    var e3, e4 := CreateTransport(l, id, p, Recv), TransportCreated(l);
    Joins(s, k, id, r, p, Send);
    JoinLeavesUnused(s, k, id, r, p, Send, l);
    ReachableStep(s, e1, v);
    var s1, q := Step(s, e1), Pending(r, p, s.next, false, Send);
    Leaves(s1, id, r, p);
    LeaveLeavesUnused(s1, id, p, l);
    StillPending(s1, e2, k, q);
    ReachableStep(s1, e2, v);
    var s2 := Step(s1, e2);
    Joins(s2, l, id, r, p, Recv);
    StillPending(s2, e3, k, q);
    ReachableStep(s2, e3, v);
    var s3 := Step(s2, e3);
    Lands(s3, l, id, Pending(r, p, s2.next, false, Recv));
    StillPending(s3, e4, k, q);
    ReachableStep(s3, e4, v);
    AnyProviso(Step(s3, e4), v);
    ReachableKeeps(Step(s3, e4), AnyRun);
    OpenRoom(Step(s3, e4), id);
    FailureDisturbs(Step(s3, e4), k);
  }

  // ----- Two calls close a recording room -----

  /** The room is empty and recording. */
  ghost predicate IdleRecording(s: Sfu, id: RoomId) {
    id in s.rooms && PeersIn(s, s.rooms[id]) == map[] && s.rooms[id] in s.recording
  }

  lemma RoomIsKnown(s: Sfu, id: RoomId)
    requires Always(s) && id in s.rooms
    ensures var r := s.rooms[id]; r in s.peersOf && r in s.idOf && r in s.workerOf && s.idOf[r] == id
  {
    hide Creating, Sharing, Fresh, Unique, Held, Filled, Serving, NoZombies;
    assert s.rooms[id] in s.idOf.Keys;
  }

  lemma FirstClose(s: Sfu, k: Call, id: RoomId)
    requires Always(s) && IdleRecording(s, id) && k !in s.closes
    ensures var r, t := s.rooms[id], Step(s, CloseRoom(k, id));
            && t.closes == s.closes[k := r] && r !in t.recording && t.idOf == s.idOf && t.workerOf == s.workerOf
            && t.routersPerWorker == s.routersPerWorker && t.rooms == s.rooms && t.pendingRooms == s.pendingRooms
            && t.peersOf == s.peersOf
  {
    hide Step, Always;
    RoomIsKnown(s, id);
    StopFirstStep(s, k, id);
  }

  lemma SecondClose(s: Sfu, l: Call, id: RoomId)
    requires Always(s) && id in s.rooms && PeersIn(s, s.rooms[id]) == map[] && s.rooms[id] !in s.recording
             && l !in s.closes
    ensures var r, t := s.rooms[id], Step(s, CloseRoom(l, id));
            && r in s.workerOf && t.closes == s.closes && r in t.closed && t.idOf == s.idOf && t.workerOf == s.workerOf
            && t.routersPerWorker == Release(s.routersPerWorker, s.workerOf[r]) && t.rooms == s.rooms - {id}
            && t.pendingRooms == s.pendingRooms
  {
    hide Step, Always, Release;
    RoomIsKnown(s, id);
    CloseStep(s, l, id);
    CloseStepRoom(s, l, id);
  }

  /** After both, the first close still waits for a room that is closed. */
  lemma ClosedTwice(s: Sfu, k: Call, l: Call, id: RoomId)
    requires Reachable(s, OpenAtClose) && IdleRecording(s, id) && k !in s.closes && l !in s.closes && k != l
    ensures var r, t := s.rooms[id], Step(Step(s, CloseRoom(k, id)), CloseRoom(l, id));
            && Reachable(t, OpenAtClose) && k in t.closes && t.closes[k] == r && r in t.closed
            && r in s.idOf && s.idOf[r] == id && t.idOf == s.idOf && r in s.workerOf && t.workerOf == s.workerOf
            && t.routersPerWorker == Release(s.routersPerWorker, s.workerOf[r]) && t.rooms == s.rooms - {id}
            && t.pendingRooms == s.pendingRooms
  {
    hide Step, Reachable, Always, Counted, Release;
    ReachableKeeps(s, OpenAtClose);
    RoomIsKnown(s, id);
    FirstClose(s, k, id);
    ReachableStep(s, CloseRoom(k, id), OpenAtClose);
    var s1 := Step(s, CloseRoom(k, id));
    ReachableKeeps(s1, OpenAtClose);
    SecondClose(s1, l, id);
    ReachableStep(s1, CloseRoom(l, id), OpenAtClose);
  }

  /** When the recording has stopped after a second call closed the room, the
      counters stay right if and only if the room was all its worker had. */
  lemma SecondCloseMiscounts(s: Sfu, k: Call, l: Call, id: RoomId)
    requires Reachable(s, OpenAtClose) && IdleRecording(s, id) && k !in s.closes && l !in s.closes && k != l
    ensures s.rooms[id] in s.workerOf && s.workerOf[s.rooms[id]] in s.routersPerWorker
    ensures var t := Step(Step(Step(s, CloseRoom(k, id)), CloseRoom(l, id)), RecordingStopped(k));
            Accounting(t.routersPerWorker, t.rooms, t.workerOf, t.creations) <==>
            s.routersPerWorker[s.workerOf[s.rooms[id]]] == 1
  {
    hide Step, Reachable, Always, Accounting, Registered, IdleRecording;
    ReachableKeeps(s, OpenAtClose);
    assert id in s.rooms by { IdleRoom(s, id); }
    RoomCounts(s, id);
    ClosedTwice(s, k, l, id);
    LateCloseMiscounts(Step(Step(s, CloseRoom(k, id)), CloseRoom(l, id)), k);
  }

  lemma IdleRoom(s: Sfu, id: RoomId)
    requires IdleRecording(s, id)
    ensures id in s.rooms
  {
  }

  // ----- A room is made -----

  /** The object the new room gets. */
  function NewRef(s: Sfu, m: Call, id: RoomId, w: Worker): Ref {
    Step(s, GetOrCreateRoom(m, id, w)).next
  }

  function NewRoom(s: Sfu, m: Call, id: RoomId, w: Worker): Sfu {
    Step(Step(s, GetOrCreateRoom(m, id, w)), RouterCreated(m))
  }

  ghost predicate Creatable(s: Sfu, m: Call, id: RoomId, w: Worker) {
    && m !in s.callers && m !in s.creations && id !in s.rooms && id !in s.pendingRooms
    && LeastLoaded(s.routersPerWorker, w)
  }

  lemma RoomIsMade(s: Sfu, m: Call, id: RoomId, w: Worker)
    requires Creatable(s, m, id, w)
    ensures var r, t := NewRef(s, m, id, w), NewRoom(s, m, id, w);
            && t.rooms == s.rooms[id := r] && t.peersOf == s.peersOf[r := map[]]
            && t.routersPerWorker == s.routersPerWorker[w := s.routersPerWorker[w] + 1]
            && t.pendingRooms == s.pendingRooms[id := m]
            && CreationAt(t, m, Resolved(r), id) && CallerAt(t, m, Waiting(m))
            && t.closes == s.closes && t.closed == s.closed
  {
    hide Step, LeastLoaded;
    StartStep(s, m, id, w);
    StepRooms(s, GetOrCreateRoom(m, id, w));
    var s1 := Step(s, GetOrCreateRoom(m, id, w));
    RouterStep(s1, m, id, w);
    RegisterRooms(s1, m);
  }

  lemma RoomReached(s: Sfu, m: Call, id: RoomId, w: Worker, v: Proviso)
    requires Reachable(s, v) && (v.OpenAtClose? || v.EmptyAtClose?)
    ensures Reachable(NewRoom(s, m, id, w), v)
  {
    hide Step, Reachable;
    ReachableStep(s, GetOrCreateRoom(m, id, w), v);
    ReachableStep(Step(s, GetOrCreateRoom(m, id, w)), RouterCreated(m), v);
  }

  /** When the room is made again before the recording has stopped, the late close
      forgets the new room, which stays open. */
  lemma SecondCloseForgets(s: Sfu, k: Call, l: Call, id: RoomId, m: Call, w: Worker)
    requires Reachable(s, OpenAtClose) && IdleRecording(s, id) && k !in s.closes && l !in s.closes && k != l
    requires Creatable(Step(Step(s, CloseRoom(k, id)), CloseRoom(l, id)), m, id, w)
    ensures var again := NewRoom(Step(Step(s, CloseRoom(k, id)), CloseRoom(l, id)), m, id, w);
            var t := Step(again, RecordingStopped(k));
            && id in again.rooms && again.rooms[id] !in again.closed
            && id !in t.rooms && !Registered(t.rooms, t.idOf, t.closed)
  {
    hide Step, Reachable, Always, Registered, Accounting, IdleRecording, Creatable, NewRoom;
    assert id in s.rooms by { IdleRoom(s, id); }
    ClosedTwice(s, k, l, id);
    var s2 := Step(Step(s, CloseRoom(k, id)), CloseRoom(l, id));
    RoomIsMade(s2, m, id, w);
    RoomReached(s2, m, id, w, OpenAtClose);
    var again := NewRoom(s2, m, id, w);
    MadeKeepsIds(s2, m, id, w, s.rooms[id]);
    ReachableKeeps(again, OpenAtClose);
    OpenRoom(again, id);
    LateCloseForgets(again, k);
    ClosingRoom(again, k);
    LateEffect(again, k);
  }

  lemma MadeKeepsIds(s: Sfu, m: Call, id: RoomId, w: Worker, r: Ref)
    requires Reachable(s, OpenAtClose) && r in s.idOf
    ensures r in NewRoom(s, m, id, w).idOf && NewRoom(s, m, id, w).idOf[r] == s.idOf[r]
  {
    hide Step, Reachable, Always;
    var s1 := Step(s, GetOrCreateRoom(m, id, w));
    ReachableStep(s, GetOrCreateRoom(m, id, w), OpenAtClose);
    ReachableKeeps(s1, OpenAtClose);
    StepRooms(s, GetOrCreateRoom(m, id, w));
    StepIds(s1, RouterCreated(m));
    NextIsNoRoom(s1);
  }

  lemma NextIsNoRoom(s: Sfu)
    requires Always(s)
    ensures s.next !in s.idOf
  {
    hide Named, Creating, Sharing, Known, Unique, Held, Filled, Serving, NoZombies;
  }

  lemma OpenRoom(s: Sfu, id: RoomId)
    requires Always(s) && id in s.rooms
    ensures s.rooms[id] !in s.closed
  {
    hide Creating, Sharing, Known, Fresh, Unique, Held, Filled, Serving, NoZombies;
  }

  // ----- Somebody joins while a close awaits -----

  /** The close then resumes on a room with that peer in it. */
  lemma JoinedLate(s: Sfu, k: Call, l: Call, id: RoomId, p: PeerId, d: Direction)
    requires Reachable(s, AnyRun) && IdleRecording(s, id) && k !in s.closes && Unused(s, l) && k != l
    ensures var t := Step(Step(s, CloseRoom(k, id)), CreateTransport(l, id, p, d));
            && Reachable(t, AnyRun) && k in t.closes && p in PeersIn(t, t.closes[k])
            && Breaks(t, RecordingStopped(k), EmptyAtClose)
  {
    hide Step, Reachable, Always, SameCall, Unused;
    ReachableKeeps(s, AnyRun);
    FirstClose(s, k, id);
    ReachableStep(s, CloseRoom(k, id), AnyRun);
    var s1, r := Step(s, CloseRoom(k, id)), s.rooms[id];
    CloseLeavesUnused(s, k, id, l);
    Joins(s1, l, id, r, p, d);
    ReachableStep(s1, CreateTransport(l, id, p, d), AnyRun);
    StillClosing(s1, CreateTransport(l, id, p, d), k);
  }

  lemma StillClosing(s: Sfu, e: Event, k: Call)
    requires k in s.closes && !OfCall(e, k)
    ensures k in Step(s, e).closes && Step(s, e).closes[k] == s.closes[k]
  {
    hide Step;
    StepOfOthers(s, e, k);
  }

  lemma CloseLeavesUnused(s: Sfu, k: Call, id: RoomId, l: Call)
    requires IdleRecording(s, id) && Unused(s, l) && k != l
    ensures Unused(Step(s, CloseRoom(k, id)), l)
  {
    hide SameCall, CloseNow;
    StepOfOthers(s, CloseRoom(k, id), l);
    StillUnused(s, Step(s, CloseRoom(k, id)), l);
  }

  // ----- Such states are reachable -----

  /** Worker 7 is the only one and has two rooms; the first is recording. */
  function TwoRooms(): Sfu {
    Step(Step(NewRoom(NewRoom(Init({7}), 1, 1, 7), 2, 2, 7), Settle(1)), SetRecording(1, true))
  }

  /** No close and no createTransport call has begun. */
  ghost predicate Quiet(s: Sfu) {
    s.closes == map[] && s.transports == map[] && s.creator == map[]
  }

  lemma RoomIsQuiet(s: Sfu, m: Call, id: RoomId, w: Worker)
    requires Quiet(s) && Creatable(s, m, id, w)
    ensures Quiet(NewRoom(s, m, id, w))
  {
    hide LeastLoaded, Book;
    var s1 := Step(s, GetOrCreateRoom(m, id, w));
    assert Quiet(s1);
  }

  lemma FirstRoom()
    ensures var s := NewRoom(Init({7}), 1, 1, 7);
            && s.rooms == map[1 := 0] && s.peersOf == map[0 := map[]] && s.pendingRooms == map[1 := 1]
            && s.routersPerWorker == map[7 := 1] && s.next == 1 && Quiet(s) && s.callers == map[1 := Waiting(1)]
            && s.creations == map[1 := Resolved(0)] && s.wanted == map[1 := 1]
  {
    assert LeastLoaded(Init({7}).routersPerWorker, 7);
    assert Step(Init({7}), GetOrCreateRoom(1, 1, 7)).creations == map[1 := CreatingRouter(7)];
  }

  lemma NewRefIsNext(s: Sfu, m: Call, id: RoomId, w: Worker)
    requires Creatable(s, m, id, w)
    ensures NewRef(s, m, id, w) == s.next
  {
    hide Book, LeastLoaded;
  }

  /** The first room of a process with two, whose creator has not resumed yet. */
  ghost predicate FirstOfTwo(s: Sfu) {
    && 1 in s.rooms && s.rooms[1] == 0 && PeersIn(s, 0) == map[] && s.routersPerWorker == map[7 := 2]
    && CreationAt(s, 1, Resolved(0), 1) && CallerAt(s, 1, Waiting(1))
    && 3 !in s.callers && 3 !in s.creations
  }

  lemma SecondRoom(s: Sfu)
    requires s.rooms == map[1 := 0] && s.peersOf == map[0 := map[]] && s.pendingRooms == map[1 := 1]
    requires s.routersPerWorker == map[7 := 1] && s.next == 1 && Quiet(s) && s.callers == map[1 := Waiting(1)]
    requires s.creations == map[1 := Resolved(0)] && s.wanted == map[1 := 1]
    ensures Quiet(NewRoom(s, 2, 2, 7)) && FirstOfTwo(NewRoom(s, 2, 2, 7))
  {
    hide Step, Quiet;
    assert Creatable(s, 2, 2, 7);
    RoomIsQuiet(s, 2, 2, 7);
    RoomIsMade(s, 2, 2, 7);
    NewRefIsNext(s, 2, 2, 7);
    var s1 := Step(s, GetOrCreateRoom(2, 2, 7));
    StepOfOthers(s, GetOrCreateRoom(2, 2, 7), 1);
    StepOfOthers(s1, RouterCreated(2), 1);
    NamesUnused(s, GetOrCreateRoom(2, 2, 7), 3);
    NamesUnused(s1, RouterCreated(2), 3);
    assert map[7 := 1][7 := 2] == map[7 := 2];
  }

  lemma Recorded(s: Sfu)
    requires FirstOfTwo(s) && Quiet(s)
    ensures var t := Step(Step(s, Settle(1)), SetRecording(1, true));
            && IdleRecording(t, 1) && 1 in t.rooms && Quiet(t) && t.routersPerWorker == map[7 := 2]
            && 3 !in t.callers && 3 !in t.creations && 1 !in t.pendingRooms
  {
    hide Step, Quiet;
    SettleStep(s, 1, 1);
    SettlesQuietly(s, 1, 1);
    NamesUnused(s, Settle(1), 3);
    RecordsQuietly(Step(s, Settle(1)), 1);
    NamesUnused(Step(s, Settle(1)), SetRecording(1, true), 3);
  }

  lemma SettlesQuietly(s: Sfu, k: Call, c: Call)
    requires Quiet(s) && CallerAt(s, k, Waiting(c)) && c in s.creations
    ensures Quiet(Step(s, Settle(k)))
  {
    hide Forget, Outcome;
  }

  lemma RecordsQuietly(s: Sfu, id: RoomId)
    requires id in s.rooms
    ensures var t := Step(s, SetRecording(id, true));
            && s.rooms[id] in t.recording && (Quiet(s) ==> Quiet(t))
            && Maps(t, s.routersPerWorker, s.rooms, s.pendingRooms, s.peersOf, s.slots, s.open)
  {
  }

  lemma TwoRoomsReached(v: Proviso)
    requires v.OpenAtClose? || v.EmptyAtClose?
    ensures Reachable(TwoRooms(), v)
  {
    hide Step, NewRoom, Init, After;
    NothingYet(v);
    RoomReached(Init({7}), 1, 1, 7, v);
    RoomReached(NewRoom(Init({7}), 1, 1, 7), 2, 2, 7, v);
    var s := NewRoom(NewRoom(Init({7}), 1, 1, 7), 2, 2, 7);
    ReachableStep(s, Settle(1), v);
    ReachableStep(Step(s, Settle(1)), SetRecording(1, true), v);
  }

  lemma NothingYet(v: Proviso)
    ensures Reachable(Init({7}), v)
  {
    hide Init;
    assert Leads({7}, [], Init({7}), v);
  }

  lemma TwoRoomsAre()
    ensures var s := TwoRooms();
            && IdleRecording(s, 1) && 1 in s.rooms && Quiet(s) && s.routersPerWorker == map[7 := 2]
            && 3 !in s.callers && 3 !in s.creations && 1 !in s.pendingRooms
  {
    hide Step, NewRoom, Init, Quiet, IdleRecording, FirstOfTwo;
    FirstRoom();
    SecondRoom(NewRoom(Init({7}), 1, 1, 7));
    Recorded(NewRoom(NewRoom(Init({7}), 1, 1, 7), 2, 2, 7));
  }

  lemma MiscountIsReachable()
    ensures var s := Step(Step(TwoRooms(), CloseRoom(21, 1)), CloseRoom(22, 1));
            var t := Step(s, RecordingStopped(21));
            Reachable(s, OpenAtClose) && !Accounting(t.routersPerWorker, t.rooms, t.workerOf, t.creations)
  {
    hide Step, TwoRooms, IdleRecording, Accounting, Reachable;
    TwoRoomsReached(OpenAtClose);
    TwoRoomsAre();
    ClosedTwice(TwoRooms(), 21, 22, 1);
    SecondCloseMiscounts(TwoRooms(), 21, 22, 1);
    OnSeven(TwoRooms());
  }

  lemma ForgottenRoomIsReachable()
    ensures var s := NewRoom(Step(Step(TwoRooms(), CloseRoom(21, 1)), CloseRoom(22, 1)), 3, 1, 7);
            var t := Step(s, RecordingStopped(21));
            Reachable(s, OpenAtClose) && 1 in s.rooms && s.rooms[1] !in s.closed && 1 !in t.rooms
  {
    hide Step, TwoRooms, IdleRecording, Reachable, NewRoom;
    TwoRoomsReached(OpenAtClose);
    TwoRoomsAre();
    var s := TwoRooms();
    ClosedTwice(s, 21, 22, 1);
    NamesUnused(s, CloseRoom(21, 1), 3);
    NamesUnused(Step(s, CloseRoom(21, 1)), CloseRoom(22, 1), 3);
    OnSeven(s);
    assert LeastLoaded(Step(Step(s, CloseRoom(21, 1)), CloseRoom(22, 1)).routersPerWorker, 7);
    SecondCloseForgets(s, 21, 22, 1, 3, 7);
    RoomReached(Step(Step(s, CloseRoom(21, 1)), CloseRoom(22, 1)), 3, 1, 7, OpenAtClose);
  }

  lemma NamesUnused(s: Sfu, e: Event, m: Call)
    requires m !in s.callers && m !in s.creations && !OfCall(e, m)
    ensures m !in Step(s, e).callers && m !in Step(s, e).creations
  {
    hide Step;
    StepOfOthers(s, e, m);
  }

  lemma OnSeven(s: Sfu)
    requires Reachable(s, OpenAtClose) && s.routersPerWorker == map[7 := 2] && 1 in s.rooms
    ensures s.rooms[1] in s.workerOf && s.workerOf[s.rooms[1]] == 7
  {
    hide Reachable, Always, Accounting, Registered;
    ReachableKeeps(s, OpenAtClose);
    RoomCounts(s, 1);
  }

  lemma StrandedPeerIsReachable()
    ensures var s := Step(Step(TwoRooms(), CloseRoom(21, 1)), CreateTransport(11, 1, 5, Send));
            && Reachable(s, AnyRun) && 21 in s.closes && 5 in PeersIn(s, s.closes[21])
            && Breaks(s, RecordingStopped(21), EmptyAtClose)
  {
    hide Step, TwoRooms, IdleRecording, Reachable;
    TwoRoomsReached(EmptyAtClose);
    AnyProviso(TwoRooms(), EmptyAtClose);
    TwoRoomsAre();
    JoinedLate(TwoRooms(), 21, 11, 1, 5, Send);
  }

  lemma AnyProviso(s: Sfu, v: Proviso)
    requires Reachable(s, v)
    ensures Reachable(s, AnyRun)
  {
    hide Init, After, Follows;
    var workers, es :| Leads(workers, es, s, v);
    AnyRunFollows(Init(workers), es);
    assert Leads(workers, es, s, AnyRun);
  }

  lemma {:induction false} AnyRunFollows(s: Sfu, es: seq<Event>)
    ensures Follows(s, es, AnyRun)
  {
    hide After;
    if es == [] {
    } else {
      AnyRunFollows(s, es[..|es| - 1]);
    }
  }

  lemma DisturbanceIsReachable()
    ensures var s := Step(Step(Step(Step(TwoRooms(), CreateTransport(11, 1, 5, Send)), RemovePeer(1, 5)),
                          CreateTransport(12, 1, 5, Recv)), TransportCreated(12));
            Reachable(s, EmptyAtClose) && 11 in s.transports && Step(s, TransportFailed(11)).open != s.open
  {
    hide Step, TwoRooms, Reachable;
    TwoRoomsReached(EmptyAtClose);
    TwoRoomsAre();
    FailureDisturbsAnother(TwoRooms(), 11, 12, 1, 5, EmptyAtClose);
  }
}
