/** What the events of other calls cannot change about a call in flight in the
    sfu process. */
module SfuFrames {
  import opened Wrappers
  import opened SfuRooms

  predicate OfCall(e: Event, k: Call) {
    !e.RemovePeer? && !e.SetRecording? && e.call == k
  }

  predicate NoneOfCall(es: seq<Event>, k: Call) {
    forall i | 0 <= i < |es| :: !OfCall(es[i], k)
  }

  ghost predicate SameAt<V>(m: map<Call, V>, n: map<Call, V>, k: Call) {
    (k in m.Keys <==> k in n.Keys) && (k in m.Keys ==> m[k] == n[k])
  }

  ghost predicate SameCall(s: Sfu, t: Sfu, k: Call) {
    && SameAt(s.callers, t.callers, k) && SameAt(s.creations, t.creations, k) && SameAt(s.wanted, t.wanted, k)
    && SameAt(s.transports, t.transports, k) && SameAt(s.closes, t.closes, k)
  }

  lemma Unchanged(s: Sfu, k: Call)
    ensures SameCall(s, s, k)
  {
  }

  // Much of what a step does touches no call at all.

  ghost predicate Aside(s: Sfu, t: Sfu) {
    && s.callers == t.callers && s.creations == t.creations && s.wanted == t.wanted
    && s.transports == t.transports && s.closes == t.closes
  }

  lemma AsideIsSame(s: Sfu, t: Sfu, k: Call)
    requires Aside(s, t)
    ensures SameCall(s, t, k)
  {
  }

  lemma CallerElsewhere(s: Sfu, t: Sfu, l: Call, c: Caller, k: Call)
    requires Aside(s, t) && l != k
    ensures SameCall(s, t.(callers := s.callers[l := c]), k)
  {
  }

  lemma StartElsewhere(s: Sfu, l: Call, id: RoomId, w: Worker, k: Call)
    requires l != k
    ensures SameCall(s, StartCreation(s, l, id, w), k)
  {
    hide Book;
  }

  lemma GetElsewhere(s: Sfu, l: Call, id: RoomId, w: Worker, k: Call)
    requires l != k
    ensures SameCall(s, BeginGetOrCreate(s, l, id, w), k)
  {
    hide SameCall, StartCreation, LeastLoaded, Aside;
    SelfAside(s);
    Unchanged(s, k);
    StartElsewhere(s, l, id, w, k);
    if id in s.rooms {
      CallerElsewhere(s, s, l, Got(None, s.rooms[id]), k);
    } else if id in s.pendingRooms {
      CallerElsewhere(s, s, l, Waiting(s.pendingRooms[id]), k);
    }
  }

  lemma SelfAside(s: Sfu)
    ensures Aside(s, s)
  {
  }

  lemma RegisterElsewhere(s: Sfu, l: Call, id: RoomId, w: Worker, k: Call)
    requires l != k
    ensures SameCall(s, RegisterRoom(s, l, id, w), k)
  {
  }

  lemma AbandonElsewhere(s: Sfu, l: Call, w: Worker, k: Call)
    requires l != k
    ensures SameCall(s, AbandonCreation(s, l, w), k)
  {
    hide Release;
  }

  lemma ResumeElsewhere(s: Sfu, l: Call, c: Call, creation: Creation, k: Call)
    requires l != k
    ensures SameCall(s, ResumeCaller(s, l, c, creation), k)
  {
    hide Forget, Outcome;
    if creation.CreatingRouter? {
    }
  }

  lemma CloseNowElsewhere(s: Sfu, r: Ref, id: RoomId, w: Worker, closes: map<Call, Ref>, k: Call)
    requires SameAt(s.closes, closes, k)
    ensures SameCall(s, CloseNow(s, r, id, w, closes), k)
  {
    hide Release, TakeDown;
  }

  lemma BeginCloseElsewhere(s: Sfu, l: Call, r: Ref, k: Call)
    requires l != k
    ensures SameCall(s, BeginClose(s, l, r), k)
  {
    hide SameCall, CloseNow;
    Unchanged(s, k);
    if r in s.idOf && r in s.workerOf {
      CloseNowElsewhere(s, r, s.idOf[r], s.workerOf[r], s.closes, k);
    }
    AwaitStopElsewhere(s, l, r, k);
  }

  lemma AwaitStopElsewhere(s: Sfu, l: Call, r: Ref, k: Call)
    requires l != k
    ensures SameCall(s, s.(recording := s.recording - {r}, closes := s.closes[l := r]), k)
  {
  }

  lemma EndCloseElsewhere(s: Sfu, l: Call, r: Ref, k: Call)
    requires l != k
    ensures SameCall(s, EndClose(s, l, r), k)
  {
    hide SameCall, CloseNow;
    Unchanged(s, k);
    if r in s.idOf && r in s.workerOf {
      CloseNowElsewhere(s, r, s.idOf[r], s.workerOf[r], s.closes - {l}, k);
    }
  }

  lemma StopFailedElsewhere(s: Sfu, l: Call, k: Call)
    requires l != k
    ensures SameCall(s, s.(closes := s.closes - {l}), k)
  {
  }

  lemma EvictAside(s: Sfu, r: Ref, p: PeerId)
    ensures Aside(s, Evict(s, r, p))
  {
    hide Close, SlotsOf;
    if p !in PeersIn(s, r) {
    }
  }

  lemma AddPeerElsewhere(s: Sfu, l: Call, r: Ref, p: PeerId, d: Direction, k: Call)
    requires l != k
    ensures SameCall(s, AddPeer(s, l, r, p, d), k)
  {
    hide PeersIn;
  }

  lemma PendingElsewhere(s: Sfu, l: Call, q: Pending, k: Call)
    requires l != k
    ensures SameCall(s, s.(transports := s.transports[l := q]), k)
  {
  }

  lemma BeginTransportElsewhere(s: Sfu, l: Call, r: Ref, p: PeerId, d: Direction, k: Call)
    requires l != k
    ensures SameCall(s, BeginTransport(s, l, r, p, d), k)
  {
    hide PeersIn, SameCall, AddPeer;
    AddPeerElsewhere(s, l, r, p, d, k);
    if p in PeersIn(s, r) {
      PendingElsewhere(s, l, Pending(r, p, PeersIn(s, r)[p], true, d), k);
    }
  }

  lemma DropElsewhere(s: Sfu, t: Sfu, l: Call, k: Call)
    requires Aside(s, t) && l != k
    ensures SameCall(s, t.(transports := t.transports - {l}), k)
  {
  }

  lemma EndTransportElsewhere(s: Sfu, l: Call, q: Pending, k: Call)
    requires l != k
    ensures SameCall(s, EndTransport(s, l, q), k)
  {
    hide SameCall, Current, Install, Aside;
    var s' := s.(transports := s.transports - {l});
    SelfAside(s);
    DropElsewhere(s, s, l, k);
    InstallAside(s', q, s.next);
    ThroughAside(s, s', Install(s', q, s.next), k);
  }

  lemma InstallAside(s: Sfu, q: Pending, t: Transport)
    ensures Aside(s, Install(s, q, t))
  {
    hide Close, SlotsOf;
  }

  lemma ThroughAside(s: Sfu, t: Sfu, u: Sfu, k: Call)
    requires SameCall(s, t, k) && Aside(t, u)
    ensures SameCall(s, u, k)
  {
    hide SameAt;
  }

  lemma FailTransportElsewhere(s: Sfu, l: Call, q: Pending, k: Call)
    requires l != k
    ensures SameCall(s, FailTransport(s, l, q), k)
  {
    hide SameCall, Evict, Aside;
    SelfAside(s);
    EvictAside(s, q.room, q.peerId);
    DropElsewhere(s, s, l, k);
    DropElsewhere(s, Evict(s, q.room, q.peerId), l, k);
  }

  lemma RecordingAside(s: Sfu, recording: set<Ref>)
    ensures Aside(s, s.(recording := recording))
  {
  }

  lemma StepOfOthers(s: Sfu, e: Event, k: Call)
    requires !OfCall(e, k)
    ensures SameCall(s, Step(s, e), k)
  {
    hide SameCall, Aside, BeginGetOrCreate, RegisterRoom, AbandonCreation, ResumeCaller, BeginTransport, EndTransport,
         FailTransport, Evict, BeginClose, EndClose;
    Unchanged(s, k);
    match e {
      case GetOrCreateRoom(l, id, w) => GetElsewhere(s, l, id, w, k);
      case RouterCreated(l) =>
        if l in s.creations && l in s.wanted && s.creations[l].CreatingRouter? {
          RegisterElsewhere(s, l, s.wanted[l], s.creations[l].worker, k);
        }
      case RouterFailed(l) =>
        if l in s.creations && s.creations[l].CreatingRouter? {
          AbandonElsewhere(s, l, s.creations[l].worker, k);
        }
      case Settle(l) =>
        if l in s.callers && s.callers[l].Waiting? && s.callers[l].creation in s.creations {
          ResumeElsewhere(s, l, s.callers[l].creation, s.creations[s.callers[l].creation], k);
        }
      case CreateTransport(l, id, p, d) =>
        if id in s.rooms {
          BeginTransportElsewhere(s, l, s.rooms[id], p, d, k);
        }
      case TransportCreated(l) =>
        if l in s.transports {
          EndTransportElsewhere(s, l, s.transports[l], k);
        }
      case TransportFailed(l) =>
        if l in s.transports {
          FailTransportElsewhere(s, l, s.transports[l], k);
        }
      case RemovePeer(id, p) =>
        if id in s.rooms {
          EvictAside(s, s.rooms[id], p);
          AsideIsSame(s, Evict(s, s.rooms[id], p), k);
        }
      case SetRecording(id, on) =>
        if id in s.rooms {
          var recording := if on then s.recording + {s.rooms[id]} else s.recording - {s.rooms[id]};
          RecordingAside(s, recording);
          AsideIsSame(s, s.(recording := recording), k);
        }
      case CloseRoom(l, id) =>
        if id in s.rooms {
          BeginCloseElsewhere(s, l, s.rooms[id], k);
        }
      case RecordingStopped(l) =>
        if l in s.closes {
          EndCloseElsewhere(s, l, s.closes[l], k);
        }
      case RecordingStopFailed(l) => StopFailedElsewhere(s, l, k);
    }
  }

  // ----- Rooms, and the closes that wait for them -----

  ghost predicate SameRooms(s: Sfu, t: Sfu) {
    s.idOf == t.idOf && s.closed == t.closed && s.closes == t.closes
  }

  lemma EvictRooms(s: Sfu, r: Ref, p: PeerId)
    ensures SameRooms(s, Evict(s, r, p))
  {
    hide Close, SlotsOf;
    if p !in PeersIn(s, r) {
    }
  }

  lemma InstallRooms(s: Sfu, q: Pending, t: Transport)
    ensures SameRooms(s, Install(s, q, t))
  {
    hide Close, SlotsOf;
  }

  lemma StartRooms(s: Sfu, k: Call, id: RoomId, w: Worker)
    ensures SameRooms(s, StartCreation(s, k, id, w)) && SameRooms(s, AbandonCreation(s, k, w))
  {
    hide Book, Release;
  }

  lemma GetRooms(s: Sfu, k: Call, id: RoomId, w: Worker)
    ensures SameRooms(s, BeginGetOrCreate(s, k, id, w))
  {
    hide StartCreation, LeastLoaded;
    StartRooms(s, k, id, w);
    if id in s.rooms {
    } else if id in s.pendingRooms {
    }
  }

  lemma ResumeRooms(s: Sfu, k: Call, c: Call, creation: Creation)
    ensures SameRooms(s, ResumeCaller(s, k, c, creation))
  {
    hide Forget, Outcome;
    if creation.CreatingRouter? {
    }
  }

  lemma AddPeerRooms(s: Sfu, k: Call, r: Ref, p: PeerId, d: Direction)
    ensures SameRooms(s, AddPeer(s, k, r, p, d))
  {
    hide PeersIn;
  }

  lemma BeginTransportRooms(s: Sfu, k: Call, r: Ref, p: PeerId, d: Direction)
    ensures SameRooms(s, BeginTransport(s, k, r, p, d))
  {
    hide AddPeer, PeersIn;
    AddPeerRooms(s, k, r, p, d);
    if p in PeersIn(s, r) {
    }
  }

  lemma TransportRooms(s: Sfu, k: Call, q: Pending)
    ensures SameRooms(s, EndTransport(s, k, q)) && SameRooms(s, FailTransport(s, k, q))
  {
    hide Install, Evict, Current;
    InstallRooms(s.(transports := s.transports - {k}), q, s.next);
    EvictRooms(s, q.room, q.peerId);
  }

  /** Only closeRoom and its resumption close a room or change which closes wait. */
  lemma StepRooms(s: Sfu, e: Event)
    requires !e.RouterCreated? && !e.CloseRoom? && !e.RecordingStopped? && !e.RecordingStopFailed?
    ensures SameRooms(s, Step(s, e))
  {
    hide SameRooms, BeginGetOrCreate, AbandonCreation, ResumeCaller, BeginTransport, EndTransport, FailTransport, Evict;
    SelfRooms(s);
    match e
    case GetOrCreateRoom(k, id, w) => GetRooms(s, k, id, w);
    case RouterFailed(k) =>
      if k in s.creations && s.creations[k].CreatingRouter? {
        StartRooms(s, k, 0, s.creations[k].worker);
      }
    case Settle(k) =>
      if k in s.callers && s.callers[k].Waiting? && s.callers[k].creation in s.creations {
        ResumeRooms(s, k, s.callers[k].creation, s.creations[s.callers[k].creation]);
      }
    case CreateTransport(k, id, p, d) =>
      if id in s.rooms {
        BeginTransportRooms(s, k, s.rooms[id], p, d);
      }
    case TransportCreated(k) =>
      if k in s.transports {
        TransportRooms(s, k, s.transports[k]);
      }
    case TransportFailed(k) =>
      if k in s.transports {
        TransportRooms(s, k, s.transports[k]);
      }
    case RemovePeer(id, p) =>
      if id in s.rooms {
        EvictRooms(s, s.rooms[id], p);
      }
    case SetRecording(id, on) =>
      if id in s.rooms {
        RecordingRooms(s, if on then s.recording + {s.rooms[id]} else s.recording - {s.rooms[id]});
      }
  }

  lemma SelfRooms(s: Sfu)
    ensures SameRooms(s, s)
  {
  }

  lemma RecordingRooms(s: Sfu, recording: set<Ref>)
    ensures SameRooms(s, s.(recording := recording))
  {
  }

  lemma RegisterRooms(s: Sfu, k: Call)
    ensures var t := Step(s, RouterCreated(k));
            && t.closed == s.closed && t.closes == s.closes
            && (t.idOf == s.idOf || (k in s.wanted && t.idOf == s.idOf[s.next := s.wanted[k]]))
  {
  }

  lemma CloseNowIds(s: Sfu, r: Ref, id: RoomId, w: Worker, closes: map<Call, Ref>)
    ensures CloseNow(s, r, id, w, closes).idOf == s.idOf
  {
    hide Release, TakeDown;
  }

  /** What closing now does to the pending closes. */
  lemma CloseNowEffect(s: Sfu, r: Ref, id: RoomId, w: Worker, closes: map<Call, Ref>)
    ensures CloseNow(s, r, id, w, closes).closed == s.closed + {r} && CloseNow(s, r, id, w, closes).closes == closes
  {
    hide Release, TakeDown;
  }

  lemma ClosingIds(s: Sfu, k: Call, r: Ref)
    ensures BeginClose(s, k, r).idOf == s.idOf && EndClose(s, k, r).idOf == s.idOf
  {
    hide CloseNow;
    if r in s.idOf && r in s.workerOf {
      CloseNowIds(s, r, s.idOf[r], s.workerOf[r], s.closes);
      CloseNowIds(s, r, s.idOf[r], s.workerOf[r], s.closes - {k});
      if r in s.recording {
      }
    }
  }

  /** A new room takes the next unused reference; nothing else names objects. */
  lemma StepIds(s: Sfu, e: Event)
    ensures Step(s, e).idOf == s.idOf
            || (e.RouterCreated? && e.call in s.wanted && Step(s, e).idOf == s.idOf[s.next := s.wanted[e.call]])
  {
    hide Step;
    match e
    case RouterCreated(k) => RegisterRooms(s, k);
    case CloseRoom(k, id) => CloseRoomIds(s, k, id);
    case RecordingStopped(k) => StoppedIds(s, k);
    case RecordingStopFailed(k) => StopFailedIds(s, k);
    case _ => StepRooms(s, e);
  }

  lemma CloseRoomIds(s: Sfu, k: Call, id: RoomId)
    ensures Step(s, CloseRoom(k, id)).idOf == s.idOf
  {
    hide BeginClose;
    if id in s.rooms {
      ClosingIds(s, k, s.rooms[id]);
    }
  }

  lemma StoppedIds(s: Sfu, k: Call)
    ensures Step(s, RecordingStopped(k)).idOf == s.idOf
  {
    hide EndClose;
    if k in s.closes {
      ClosingIds(s, k, s.closes[k]);
    }
  }

  lemma StopFailedIds(s: Sfu, k: Call)
    ensures Step(s, RecordingStopFailed(k)).idOf == s.idOf
  {
  }

  // ----- Who is in which room -----

  function Removed(peersOf: map<Ref, map<PeerId, PeerRef>>, r: Ref, p: PeerId): map<Ref, map<PeerId, PeerRef>> {
    if r in peersOf && p in peersOf[r] then peersOf[r := peersOf[r] - {p}] else peersOf
  }

  /** The only events that let somebody into a room or out of one. */
  function PeersAfter(s: Sfu, e: Event): map<Ref, map<PeerId, PeerRef>> {
    match e
    case RouterCreated(k) =>
      if k in s.creations && k in s.wanted && s.creations[k].CreatingRouter?
      then s.peersOf[s.next := map[]] else s.peersOf
    case CreateTransport(k, id, p, d) =>
      if k !in s.transports && k !in s.creator.Values && id in s.rooms && p !in PeersIn(s, s.rooms[id])
      then s.peersOf[s.rooms[id] := PeersIn(s, s.rooms[id])[p := s.next]] else s.peersOf
    case TransportFailed(k) =>
      if k in s.transports && !s.transports[k].existed
      then Removed(s.peersOf, s.transports[k].room, s.transports[k].peerId) else s.peersOf
    case RemovePeer(id, p) => if id in s.rooms then Removed(s.peersOf, s.rooms[id], p) else s.peersOf
    case _ => s.peersOf
  }

  lemma EvictPeers(s: Sfu, r: Ref, p: PeerId)
    ensures Evict(s, r, p).peersOf == Removed(s.peersOf, r, p)
  {
    hide Close, SlotsOf;
    if r in s.peersOf && p in s.peersOf[r] {
    } else {
    }
  }

  lemma StartPeers(s: Sfu, k: Call, id: RoomId, w: Worker)
    ensures StartCreation(s, k, id, w).peersOf == s.peersOf
  {
    hide Book;
  }

  lemma GetPeers(s: Sfu, k: Call, id: RoomId, w: Worker)
    ensures BeginGetOrCreate(s, k, id, w).peersOf == s.peersOf
  {
    hide LeastLoaded, StartCreation;
    StartPeers(s, k, id, w);
    if id in s.rooms {
    } else if id in s.pendingRooms {
    }
  }

  lemma AbandonPeers(s: Sfu, k: Call, w: Worker)
    ensures AbandonCreation(s, k, w).peersOf == s.peersOf
  {
    hide Release;
  }

  lemma ResumePeers(s: Sfu, k: Call, c: Call, creation: Creation)
    ensures ResumeCaller(s, k, c, creation).peersOf == s.peersOf
  {
    hide Forget, Outcome;
    if creation.CreatingRouter? {
    }
  }

  lemma EndTransportPeers(s: Sfu, k: Call, q: Pending)
    ensures EndTransport(s, k, q).peersOf == s.peersOf
  {
    hide Current, Close, SlotsOf;
    if Current(s, q) {
    }
  }

  lemma FailTransportPeers(s: Sfu, k: Call, q: Pending)
    ensures FailTransport(s, k, q).peersOf == if q.existed then s.peersOf else Removed(s.peersOf, q.room, q.peerId)
  {
    hide Evict, Removed;
    EvictPeers(s, q.room, q.peerId);
  }

  lemma CloseNowPeers(s: Sfu, r: Ref, id: RoomId, w: Worker, closes: map<Call, Ref>)
    ensures CloseNow(s, r, id, w, closes).peersOf == s.peersOf
  {
    hide Release, TakeDown;
  }

  lemma ClosingPeers(s: Sfu, k: Call, r: Ref)
    ensures BeginClose(s, k, r).peersOf == s.peersOf && EndClose(s, k, r).peersOf == s.peersOf
  {
    hide CloseNow;
    if r in s.idOf && r in s.workerOf {
      CloseNowPeers(s, r, s.idOf[r], s.workerOf[r], s.closes);
      CloseNowPeers(s, r, s.idOf[r], s.workerOf[r], s.closes - {k});
      if r in s.recording {
      }
    }
  }

  lemma JoinPeers(s: Sfu, k: Call, r: Ref, p: PeerId, d: Direction)
    ensures BeginTransport(s, k, r, p, d).peersOf ==
            if p in PeersIn(s, r) then s.peersOf else s.peersOf[r := PeersIn(s, r)[p := s.next]]
  {
    hide PeersIn;
    if p in PeersIn(s, r) {
    }
  }

  lemma RegisterPeers(s: Sfu, k: Call, id: RoomId, w: Worker)
    ensures RegisterRoom(s, k, id, w).peersOf == s.peersOf[s.next := map[]]
  {
  }

  lemma RecordingPeers(s: Sfu, recording: set<Ref>)
    ensures s.(recording := recording).peersOf == s.peersOf
  {
  }

  predicate MovesPeers(e: Event) {
    e.RouterCreated? || e.CreateTransport? || e.TransportFailed? || e.RemovePeer?
  }

  lemma StepPeers(s: Sfu, e: Event)
    ensures Step(s, e).peersOf == PeersAfter(s, e)
  {
    hide Step;
    if MovesPeers(e) {
      MovingPeers(s, e);
    } else {
      SamePeers(s, e);
    }
  }

  lemma MovingPeers(s: Sfu, e: Event)
    requires MovesPeers(e)
    ensures Step(s, e).peersOf == PeersAfter(s, e)
  {
    hide RegisterRoom, BeginTransport, FailTransport, Evict, Removed, PeersIn;
    match e
    case RouterCreated(k) =>
      if k in s.creations && k in s.wanted && s.creations[k].CreatingRouter? {
        RegisterPeers(s, k, s.wanted[k], s.creations[k].worker);
      }
    case CreateTransport(k, id, p, d) =>
      if k !in s.transports && k !in s.creator.Values && id in s.rooms {
        JoinPeers(s, k, s.rooms[id], p, d);
      }
    case TransportFailed(k) =>
      if k in s.transports {
        FailTransportPeers(s, k, s.transports[k]);
      }
    case RemovePeer(id, p) =>
      if id in s.rooms {
        EvictPeers(s, s.rooms[id], p);
      }
  }

  lemma SamePeers(s: Sfu, e: Event)
    requires !MovesPeers(e)
    ensures Step(s, e).peersOf == s.peersOf
  {
    hide BeginGetOrCreate, AbandonCreation, ResumeCaller, EndTransport, BeginClose, EndClose;
    match e
    case GetOrCreateRoom(k, id, w) => GetPeers(s, k, id, w);
    case RouterFailed(k) =>
      if k in s.creations && s.creations[k].CreatingRouter? {
        AbandonPeers(s, k, s.creations[k].worker);
      }
    case Settle(k) =>
      if k in s.callers && s.callers[k].Waiting? && s.callers[k].creation in s.creations {
        ResumePeers(s, k, s.callers[k].creation, s.creations[s.callers[k].creation]);
      }
    case TransportCreated(k) =>
      if k in s.transports {
        EndTransportPeers(s, k, s.transports[k]);
      }
    case SetRecording(id, on) =>
      if id in s.rooms {
        RecordingPeers(s, if on then s.recording + {s.rooms[id]} else s.recording - {s.rooms[id]});
      }
    case CloseRoom(k, id) =>
      if id in s.rooms {
        ClosingPeers(s, k, s.rooms[id]);
      }
    case RecordingStopped(k) =>
      if k in s.closes {
        ClosingPeers(s, k, s.closes[k]);
      }
    case RecordingStopFailed(k) =>
  }

  lemma {:induction false} OthersKeepCall(s: Sfu, es: seq<Event>, k: Call)
    requires NoneOfCall(es, k)
    ensures SameCall(s, After(s, es), k)
  {
    hide Step;
    if es == [] {
      Unchanged(s, k);
    } else {
      var before := es[..|es| - 1];
      OthersKeepCall(s, before, k);
      StepOfOthers(After(s, before), es[|es| - 1], k);
    }
  }

  lemma {:induction false} AfterConcat(s: Sfu, es: seq<Event>, more: seq<Event>)
    ensures After(s, es + more) == After(After(s, es), more)
  {
    hide Step;
    if more == [] {
      assert es + more == es;
    } else {
      AfterConcat(s, es, more[..|more| - 1]);
      assert (es + more)[..|es + more| - 1] == es + more[..|more| - 1];
    }
  }

  lemma AfterSnoc(s: Sfu, es: seq<Event>, e: Event)
    ensures After(s, es + [e]) == Step(After(s, es), e)
  {
    hide Step;
    assert (es + [e])[..|es + [e]| - 1] == es;
  }
}
