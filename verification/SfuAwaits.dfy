/** What a call finds when it resumes: which room a pending close closes, and
    whether a pending transport still has its peer. */
module SfuAwaits {
  import opened Wrappers
  import opened SfuRooms
  import opened SfuInvariants
  import opened SfuFrames

  lemma Extended(s: Sfu, es: seq<Event>, e: Event, v: Proviso)
    ensures After(s, es + [e]) == Step(After(s, es), e)
    ensures Follows(s, es + [e], v) <==> Follows(s, es, v) && !Breaks(After(s, es), e, v)
  {
    hide Step, Breaks;
    assert (es + [e])[..|es + [e]| - 1] == es;
  }

  lemma ReachableStep(s: Sfu, e: Event, v: Proviso)
    requires Reachable(s, v) && !Breaks(s, e, v)
    ensures Reachable(Step(s, e), v)
  {
    hide After, Follows, Breaks, Step, Init;
    var workers, es :| Leads(workers, es, s, v);
    Extended(Init(workers), es, e, v);
    assert Leads(workers, es + [e], Step(s, e), v);
  }

  /** Nobody is in a room whose close awaits. */
  ghost predicate EmptyCloses(closes: map<Call, Ref>, peersOf: Members) {
    forall k | k in closes :: closes[k] in peersOf && peersOf[closes[k]] == map[]
  }

  // ----- Runs in which no closeRoom comes while another one awaits -----

  /** Every pending close waits for an open room of its own. */
  ghost predicate OpenCloses(closes: map<Call, Ref>, closed: set<Ref>) {
    && (forall k | k in closes :: closes[k] !in closed)
    && forall k, l | k in closes && l in closes && closes[k] == closes[l] :: k == l
  }

  lemma BeginCloseOpen(s: Sfu, k: Call, r: Ref)
    requires OpenCloses(s.closes, s.closed) && r !in s.closes.Values && r !in s.closed && k !in s.closes
    ensures OpenCloses(BeginClose(s, k, r).closes, BeginClose(s, k, r).closed)
  {
    hide CloseNow;
    if r in s.idOf && r in s.workerOf {
      CloseNowEffect(s, r, s.idOf[r], s.workerOf[r], s.closes);
    }
    if r in s.recording {
    }
  }

  lemma EndCloseOpen(s: Sfu, k: Call)
    requires OpenCloses(s.closes, s.closed) && k in s.closes
    ensures OpenCloses(EndClose(s, k, s.closes[k]).closes, EndClose(s, k, s.closes[k]).closed)
  {
    hide CloseNow;
    var r := s.closes[k];
    if r in s.idOf && r in s.workerOf {
      CloseNowEffect(s, r, s.idOf[r], s.workerOf[r], s.closes - {k});
    }
  }

  lemma CloseRoomOpen(s: Sfu, k: Call, id: RoomId)
    requires Always(s) && OpenCloses(s.closes, s.closed) && !Breaks(s, Event.CloseRoom(k, id), OneClose)
    ensures var t := Step(s, Event.CloseRoom(k, id)); OpenCloses(t.closes, t.closed)
  {
    hide OpenCloses, Creating, Sharing, Known, Fresh, Unique, Held, Filled, Serving, NoZombies, BeginClose;
    if k !in s.closes && id in s.rooms {
      BeginCloseOpen(s, k, s.rooms[id]);
    }
  }

  lemma StoppedOpen(s: Sfu, k: Call)
    requires OpenCloses(s.closes, s.closed)
    ensures var t := Step(s, RecordingStopped(k)); OpenCloses(t.closes, t.closed)
    ensures !Breaks(s, RecordingStopped(k), OpenAtClose)
  {
    hide EndClose;
    if k in s.closes {
      EndCloseOpen(s, k);
    }
  }

  lemma OneCloseStep(s: Sfu, e: Event)
    requires Always(s) && OpenCloses(s.closes, s.closed) && !Breaks(s, e, OneClose)
    ensures OpenCloses(Step(s, e).closes, Step(s, e).closed) && !Breaks(s, e, OpenAtClose)
  {
    hide Always, OpenCloses, Step;
    match e
    case RouterCreated(k) => RegisterRooms(s, k);
    case CloseRoom(k, id) => CloseRoomOpen(s, k, id);
    case RecordingStopped(k) => StoppedOpen(s, k);
    case RecordingStopFailed(k) => StopFailedOpen(s, k);
    case _ => StepRooms(s, e);
  }

  lemma StopFailedOpen(s: Sfu, k: Call)
    requires OpenCloses(s.closes, s.closed)
    ensures OpenCloses(Step(s, RecordingStopFailed(k)).closes, Step(s, RecordingStopFailed(k)).closed)
  {
  }

  lemma {:induction false} OneCloseRuns(s: Sfu, es: seq<Event>)
    requires Always(s) && OpenCloses(s.closes, s.closed) && Follows(s, es, OneClose)
    ensures Always(After(s, es)) && OpenCloses(After(s, es).closes, After(s, es).closed)
    ensures Follows(s, es, OpenAtClose)
  {
    hide Always, OpenCloses, Breaks, Step;
    if es == [] {
    } else {
      var before := es[..|es| - 1];
      OneCloseRuns(s, before);
      OneCloseStep(After(s, before), es[|es| - 1]);
      AlwaysStep(After(s, before), es[|es| - 1]);
    }
  }

  lemma OneCloseIsEnough(s: Sfu)
    requires Reachable(s, OneClose)
    ensures Reachable(s, OpenAtClose)
  {
    hide Always, After, Follows, OpenCloses;
    var workers, es :| Leads(workers, es, s, OneClose);
    InitOpen(workers);
    OneCloseRuns(Init(workers), es);
    assert Leads(workers, es, s, OpenAtClose);
  }

  lemma InitOpen(workers: set<Worker>)
    ensures Always(Init(workers)) && OpenCloses(Init(workers).closes, Init(workers).closed)
    ensures EmptyCloses(Init(workers).closes, Init(workers).peersOf)
  {
  }

  // ----- Runs in which no createTransport comes while a close awaits -----

  lemma RemovedEmpty(closes: map<Call, Ref>, peersOf: Members, r: Ref, p: PeerId)
    requires EmptyCloses(closes, peersOf)
    ensures EmptyCloses(closes, Removed(peersOf, r, p))
  {
  }

  lemma PeersAfterEmpty(s: Sfu, e: Event)
    requires EmptyCloses(s.closes, s.peersOf) && !Breaks(s, e, NoLateJoin)
    ensures EmptyCloses(s.closes, PeersAfter(s, e))
  {
    hide Removed;
    match e
    case TransportFailed(k) =>
      if k in s.transports {
        RemovedEmpty(s.closes, s.peersOf, s.transports[k].room, s.transports[k].peerId);
      }
    case RemovePeer(id, p) =>
      if id in s.rooms {
        RemovedEmpty(s.closes, s.peersOf, s.rooms[id], p);
      }
    case _ =>
  }

  lemma BeginCloseEmpty(s: Sfu, k: Call, r: Ref)
    requires EmptyCloses(s.closes, s.peersOf)
    ensures EmptyCloses(BeginClose(s, k, r).closes, s.peersOf)
  {
    hide CloseNow;
    if r in s.idOf && r in s.workerOf {
      CloseNowEffect(s, r, s.idOf[r], s.workerOf[r], s.closes);
    }
    if r in s.recording {
    }
  }

  lemma EndCloseEmpty(s: Sfu, k: Call, r: Ref)
    requires EmptyCloses(s.closes, s.peersOf)
    ensures EmptyCloses(EndClose(s, k, r).closes, s.peersOf)
  {
    hide CloseNow;
    if r in s.idOf && r in s.workerOf {
      CloseNowEffect(s, r, s.idOf[r], s.workerOf[r], s.closes - {k});
    }
  }

  lemma CloseRoomEmpty(s: Sfu, k: Call, id: RoomId)
    requires EmptyCloses(s.closes, s.peersOf)
    ensures EmptyCloses(Step(s, Event.CloseRoom(k, id)).closes, s.peersOf)
  {
    hide EmptyCloses, BeginClose;
    if id in s.rooms {
      BeginCloseEmpty(s, k, s.rooms[id]);
    }
  }

  lemma StoppedEmpty(s: Sfu, k: Call)
    requires EmptyCloses(s.closes, s.peersOf)
    ensures EmptyCloses(Step(s, RecordingStopped(k)).closes, s.peersOf)
    ensures !Breaks(s, RecordingStopped(k), EmptyAtClose)
  {
    hide EndClose;
    if k in s.closes {
      EndCloseEmpty(s, k, s.closes[k]);
    }
  }

  lemma StopFailedEmpty(s: Sfu, k: Call)
    requires EmptyCloses(s.closes, s.peersOf)
    ensures EmptyCloses(Step(s, RecordingStopFailed(k)).closes, s.peersOf)
  {
  }

  lemma NoLateJoinStep(s: Sfu, e: Event)
    requires EmptyCloses(s.closes, s.peersOf) && !Breaks(s, e, NoLateJoin)
    ensures EmptyCloses(Step(s, e).closes, Step(s, e).peersOf) && !Breaks(s, e, EmptyAtClose)
  {
    hide EmptyCloses, Step, PeersAfter;
    StepPeers(s, e);
    PeersAfterEmpty(s, e);
    match e
    case RouterCreated(k) => RegisterRooms(s, k);
    case CloseRoom(k, id) => SamePeers(s, e); CloseRoomEmpty(s, k, id);
    case RecordingStopped(k) => SamePeers(s, e); StoppedEmpty(s, k);
    case RecordingStopFailed(k) => SamePeers(s, e); StopFailedEmpty(s, k);
    case _ => StepRooms(s, e);
  }

  lemma {:induction false} NoLateJoinRuns(s: Sfu, es: seq<Event>)
    requires EmptyCloses(s.closes, s.peersOf) && Follows(s, es, NoLateJoin)
    ensures EmptyCloses(After(s, es).closes, After(s, es).peersOf) && Follows(s, es, EmptyAtClose)
  {
    hide EmptyCloses, Breaks, Step;
    if es == [] {
    } else {
      var before := es[..|es| - 1];
      NoLateJoinRuns(s, before);
      NoLateJoinStep(After(s, before), es[|es| - 1]);
    }
  }

  lemma NoLateJoinIsEnough(s: Sfu)
    requires Reachable(s, NoLateJoin)
    ensures Reachable(s, EmptyAtClose)
  {
    hide Always, After, Follows, EmptyCloses, OpenCloses;
    var workers, es :| Leads(workers, es, s, NoLateJoin);
    InitOpen(workers);
    NoLateJoinRuns(Init(workers), es);
    assert Leads(workers, es, s, EmptyAtClose);
  }

  // ----- A pending transport and its peer -----

  /** The event removes peer `p` from room object `r`. */
  predicate Evicts(s: Sfu, e: Event, r: Ref, p: PeerId) {
    || (e.RemovePeer? && e.peerId == p && e.id in s.rooms && s.rooms[e.id] == r)
    || Discards(s, e, r, p)
  }

  /** A createTransport call that had brought in a peer `p` fails. */
  predicate Discards(s: Sfu, e: Event, r: Ref, p: PeerId) {
    && e.TransportFailed? && e.call in s.transports
    && var q := s.transports[e.call]; !q.existed && q.room == r && q.peerId == p
  }

  predicate Stays(s: Sfu, es: seq<Event>, r: Ref, p: PeerId) {
    es == [] || (Stays(s, es[..|es| - 1], r, p) && !Evicts(After(s, es[..|es| - 1]), es[|es| - 1], r, p))
  }

  /** A peer object is in its room until it is removed, and never again after. */
  lemma CurrentStep(s: Sfu, e: Event, q: Pending)
    requires Always(s) && q.peer in s.slots
    ensures Current(Step(s, e), q) <==> Current(s, q) && !Evicts(s, e, q.room, q.peerId)
  {
    hide Named, Creating, Sharing, Unique, Held, Filled, Serving, NoZombies, Step, PeersAfter, Evicts, Sits;
    StepPeers(s, e);
    CurrentAfter(s, e, q);
    Sitting(s, q);
    Sitting(Step(s, e), q);
  }

  predicate Sits(peersOf: Members, q: Pending) {
    q.room in peersOf && q.peerId in peersOf[q.room] && peersOf[q.room][q.peerId] == q.peer
  }

  lemma CurrentAfter(s: Sfu, e: Event, q: Pending)
    requires Known(s.closes, s.peersOf, s.idOf) && q.peer in s.slots
    requires Fresh(s.next, s.idOf, s.peersOf, s.slots, s.open, s.madeFor, s.transports)
    ensures Sits(PeersAfter(s, e), q) <==> Sits(s.peersOf, q) && !Evicts(s, e, q.room, q.peerId)
  {
    hide Removed, Sits, Fresh, Known, PeersIn;
    NewRoomSits(s.next, s.idOf, s.closes, s.peersOf, q, s.slots, s.open, s.madeFor, s.transports);
    match e {
      case CreateTransport(k, id, p, d) =>
        if id in s.rooms && p !in PeersIn(s, s.rooms[id]) {
          NewPeerSits(s, s.rooms[id], p, q);
        }
      case TransportFailed(k) =>
        if k in s.transports {
          RemovedSits(s.peersOf, s.transports[k].room, s.transports[k].peerId, q);
        }
      case RemovePeer(id, p) =>
        if id in s.rooms {
          RemovedSits(s.peersOf, s.rooms[id], p, q);
        }
      case _ =>
    }
  }

  lemma Sitting(s: Sfu, q: Pending)
    ensures Sits(s.peersOf, q) <==> Current(s, q)
  {
  }

  lemma NewRoomSits(next: int, idOf: map<Ref, RoomId>, closes: map<Call, Ref>, peersOf: Members, q: Pending,
                    slots: map<PeerRef, Slots>, open: map<Transport, Ref>, madeFor: map<Transport, Pending>,
                    transports: map<Call, Pending>)
    requires Fresh(next, idOf, peersOf, slots, open, madeFor, transports) && Known(closes, peersOf, idOf)
    ensures Sits(peersOf[next := map[]], q) <==> Sits(peersOf, q)
  {
    assert next !in idOf.Keys;
  }

  lemma NewPeerSits(s: Sfu, r: Ref, p: PeerId, q: Pending)
    requires Fresh(s.next, s.idOf, s.peersOf, s.slots, s.open, s.madeFor, s.transports) && q.peer in s.slots
    requires p !in PeersIn(s, r)
    ensures Sits(s.peersOf[r := PeersIn(s, r)[p := s.next]], q) <==> Sits(s.peersOf, q)
  {
  }

  lemma RemovedSits(peersOf: Members, r: Ref, p: PeerId, q: Pending)
    ensures Sits(Removed(peersOf, r, p), q) <==> Sits(peersOf, q) && !(q.room == r && q.peerId == p)
  {
  }

  /** While its call waits, a peer object is in its room exactly if it was at the
      start and nobody removed it since; another peer under the same id is not it. */
  lemma {:induction false} CurrentExactlyIfNotRemoved(s: Sfu, k: Call, es: seq<Event>)
    requires Always(s) && k in s.transports && NoneOfCall(es, k)
    ensures var u := After(s, es);
            && Always(u) && k in u.transports && u.transports[k] == s.transports[k]
            && (Current(u, s.transports[k]) <==>
                Current(s, s.transports[k]) && Stays(s, es, s.transports[k].room, s.transports[k].peerId))
  {
    hide Always, Step, Current, Evicts;
    if es == [] {
    } else {
      var before, q := es[..|es| - 1], s.transports[k];
      CurrentExactlyIfNotRemoved(s, k, before);
      PeerOfCall(After(s, before), k);
      CurrentStep(After(s, before), es[|es| - 1], q);
      AlwaysStep(After(s, before), es[|es| - 1]);
      StepOfOthers(After(s, before), es[|es| - 1], k);
    }
  }

  lemma PeerOfCall(s: Sfu, k: Call)
    requires Always(s) && k in s.transports
    ensures s.transports[k].peer in s.slots
  {
    hide Named, Creating, Sharing, Known, Unique, Held, Filled, Serving, NoZombies;
  }

  // ----- A closed room stays closed -----

  lemma ClosingGrows(s: Sfu, k: Call, r: Ref)
    ensures s.closed <= BeginClose(s, k, r).closed && s.closed <= EndClose(s, k, r).closed
  {
    hide CloseNow;
    if r in s.idOf && r in s.workerOf {
      CloseNowEffect(s, r, s.idOf[r], s.workerOf[r], s.closes);
      CloseNowEffect(s, r, s.idOf[r], s.workerOf[r], s.closes - {k});
      if r in s.recording {
      }
    }
  }

  lemma CloseRoomGrows(s: Sfu, k: Call, id: RoomId)
    ensures s.closed <= Step(s, Event.CloseRoom(k, id)).closed
  {
    hide BeginClose;
    if id in s.rooms {
      ClosingGrows(s, k, s.rooms[id]);
    }
  }

  lemma StoppedGrows(s: Sfu, k: Call)
    ensures s.closed <= Step(s, RecordingStopped(k)).closed
  {
    hide EndClose;
    if k in s.closes {
      ClosingGrows(s, k, s.closes[k]);
    }
  }

  lemma StopFailedGrows(s: Sfu, k: Call)
    ensures s.closed <= Step(s, RecordingStopFailed(k)).closed
  {
  }

  lemma ClosedGrows(s: Sfu, e: Event)
    ensures s.closed <= Step(s, e).closed
  {
    hide Step;
    match e
    case RouterCreated(k) => RegisterRooms(s, k);
    case CloseRoom(k, id) => CloseRoomGrows(s, k, id);
    case RecordingStopped(k) => StoppedGrows(s, k);
    case RecordingStopFailed(k) => StopFailedGrows(s, k);
    case _ => StepRooms(s, e);
  }

  predicate NeverDiscarded(s: Sfu, es: seq<Event>, r: Ref, p: PeerId) {
    es == [] || (NeverDiscarded(s, es[..|es| - 1], r, p) && !Discards(After(s, es[..|es| - 1]), es[|es| - 1], r, p))
  }

  lemma StrandedStep(s: Sfu, e: Event, q: Pending)
    requires Always(s) && q.room in s.closed && q.peer in s.slots
    ensures Current(Step(s, e), q) <==> Current(s, q) && !Discards(s, e, q.room, q.peerId)
  {
    hide Creating, Sharing, Known, Fresh, Unique, Held, Filled, Serving, NoZombies, Step;
    CurrentStep(s, e, q);
  }

  /** Once its room is closed, a peer object is in it exactly until it is discarded. */
  lemma {:induction false} StrandedRun(s: Sfu, q: Pending, es: seq<Event>)
    requires Always(s) && q.room in s.closed && Current(s, q) && q.peer in s.slots
    ensures var u := After(s, es);
            && Always(u) && q.room in u.closed && q.peer in u.slots.Keys
            && (Current(u, q) <==> NeverDiscarded(s, es, q.room, q.peerId))
  {
    hide Always, Step, Current, Discards;
    if es == [] {
    } else {
      var before := es[..|es| - 1];
      StrandedRun(s, q, before);
      StrandedStep(After(s, before), es[|es| - 1], q);
      AlwaysStep(After(s, before), es[|es| - 1]);
      ClosedGrows(After(s, before), es[|es| - 1]);
      SlotsGrow(After(s, before), es[|es| - 1]);
    }
  }

  // ----- Slots are never dropped -----

  lemma StartSlots(s: Sfu, k: Call, id: RoomId, w: Worker)
    ensures StartCreation(s, k, id, w).slots == s.slots
  {
    hide Book;
  }

  lemma CallerSlots(s: Sfu, k: Call, id: RoomId, w: Worker)
    ensures BeginGetOrCreate(s, k, id, w).slots == s.slots
  {
    hide LeastLoaded, StartCreation;
    StartSlots(s, k, id, w);
    if id in s.rooms {
    } else if id in s.pendingRooms {
    }
  }

  lemma ResumeSlots(s: Sfu, k: Call, c: Call, creation: Creation)
    ensures ResumeCaller(s, k, c, creation).slots == s.slots
  {
    hide Forget, Outcome;
    if creation.CreatingRouter? {
    }
  }

  lemma CloseNowSlots(s: Sfu, r: Ref, id: RoomId, w: Worker, closes: map<Call, Ref>)
    ensures CloseNow(s, r, id, w, closes).slots == s.slots
  {
    hide Release, TakeDown;
  }

  lemma ClosingSlots(s: Sfu, k: Call, r: Ref)
    ensures BeginClose(s, k, r).slots == s.slots && EndClose(s, k, r).slots == s.slots
  {
    hide CloseNow;
    if r in s.idOf && r in s.workerOf {
      CloseNowSlots(s, r, s.idOf[r], s.workerOf[r], s.closes);
      CloseNowSlots(s, r, s.idOf[r], s.workerOf[r], s.closes - {k});
      if r in s.recording {
      }
    }
  }

  lemma EvictSlots(s: Sfu, r: Ref, p: PeerId)
    ensures Evict(s, r, p).slots == s.slots
  {
    hide Close, SlotsOf;
  }

  lemma FailTransportSlots(s: Sfu, k: Call, q: Pending)
    ensures FailTransport(s, k, q).slots == s.slots
  {
    hide Evict;
    EvictSlots(s, q.room, q.peerId);
  }

  lemma InstallSlots(s: Sfu, q: Pending, t: Transport)
    ensures s.slots.Keys <= Install(s, q, t).slots.Keys
  {
    hide Close, SlotsOf;
  }

  lemma DropSlots(s: Sfu, k: Call)
    ensures s.(transports := s.transports - {k}).slots == s.slots
  {
  }

  lemma EndTransportSlots(s: Sfu, k: Call, q: Pending)
    ensures s.slots.Keys <= EndTransport(s, k, q).slots.Keys
  {
    hide Install, Current;
    DropSlots(s, k);
    InstallSlots(s.(transports := s.transports - {k}), q, s.next);
  }

  lemma AddPeerSlots(s: Sfu, k: Call, r: Ref, p: PeerId, d: Direction)
    ensures s.slots.Keys <= AddPeer(s, k, r, p, d).slots.Keys
  {
    hide PeersIn;
  }

  lemma BeginTransportSlots(s: Sfu, k: Call, r: Ref, p: PeerId, d: Direction)
    ensures s.slots.Keys <= BeginTransport(s, k, r, p, d).slots.Keys
  {
    hide AddPeer;
    AddPeerSlots(s, k, r, p, d);
    if p in PeersIn(s, r) {
    }
  }

  lemma RegistrationSlots(s: Sfu, k: Call, id: RoomId, w: Worker)
    ensures RegisterRoom(s, k, id, w).slots == s.slots && AbandonCreation(s, k, w).slots == s.slots
  {
    hide Release;
  }

  predicate OfTransports(e: Event) {
    e.CreateTransport? || e.TransportCreated? || e.TransportFailed? || e.RemovePeer?
  }

  lemma SlotsGrow(s: Sfu, e: Event)
    ensures s.slots.Keys <= Step(s, e).slots.Keys
  {
    hide Step;
    if OfTransports(e) {
      PeersSlots(s, e);
    } else {
      RoomsSlots(s, e);
    }
  }

  lemma RoomsSlots(s: Sfu, e: Event)
    requires !OfTransports(e)
    ensures Step(s, e).slots == s.slots
  {
    hide BeginGetOrCreate, RegisterRoom, AbandonCreation, ResumeCaller, BeginClose, EndClose;
    match e
    case GetOrCreateRoom(k, id, w) => CallerSlots(s, k, id, w);
    case RouterCreated(k) =>
      if k in s.creations && k in s.wanted && s.creations[k].CreatingRouter? {
        RegistrationSlots(s, k, s.wanted[k], s.creations[k].worker);
      }
    case RouterFailed(k) =>
      if k in s.creations && s.creations[k].CreatingRouter? {
        RegistrationSlots(s, k, 0, s.creations[k].worker);
      }
    case Settle(k) =>
      if k in s.callers && s.callers[k].Waiting? && s.callers[k].creation in s.creations {
        ResumeSlots(s, k, s.callers[k].creation, s.creations[s.callers[k].creation]);
      }
    case CloseRoom(k, id) =>
      if id in s.rooms {
        ClosingSlots(s, k, s.rooms[id]);
      }
    case RecordingStopped(k) =>
      if k in s.closes {
        ClosingSlots(s, k, s.closes[k]);
      }
    case _ =>
  }

  lemma PeersSlots(s: Sfu, e: Event)
    requires OfTransports(e)
    ensures s.slots.Keys <= Step(s, e).slots.Keys
  {
    hide BeginTransport, EndTransport, FailTransport, Evict;
    match e
    case CreateTransport(k, id, p, d) =>
      if id in s.rooms {
        BeginTransportSlots(s, k, s.rooms[id], p, d);
      }
    case TransportCreated(k) =>
      if k in s.transports {
        EndTransportSlots(s, k, s.transports[k]);
      }
    case TransportFailed(k) =>
      if k in s.transports {
        FailTransportSlots(s, k, s.transports[k]);
      }
    case RemovePeer(id, p) =>
      if id in s.rooms {
        EvictSlots(s, s.rooms[id], p);
      }
  }
}
