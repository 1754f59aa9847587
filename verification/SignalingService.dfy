/** SignalingService: join and leave, step by step against a deployment in which
    everything else may happen at every await. */
module SignalingService {
  import opened Wrappers
  import opened RoomProtocol
  import opened RoomInvariants
  import opened RoomTheorems
  import opened RoomFrames
  import opened RoomSteps
  import opened Deployment
  import Rooms = RoomsService

  /** `Threw` says whether the peer was left behind in the peers hash. */
  datatype JoinResult =
    | Entered(existingPeers: set<PeerId>, existingProducers: set<ProducerId>)
    | Thrown(ghostPeer: bool)
    | StillWaiting(creator: PeerId)

  function PositionAfter(r: JoinResult): Pc {
    match r
    case Entered(_, _) => JoinSocket
    case Thrown(_) => Rejected
    case StillWaiting(creator) => AwaitRoom(creator)
  }

  /** What the handler's reads of the producers of `done` add up to. */
  ghost predicate Collected(got: map<Look, set<ProducerId>>, p: PeerId, done: set<PeerId>, producers: set<ProducerId>) {
    && (forall o | o in done :: Look(p, o) in got.Keys)
    && producers == set o, r | o in done && Look(p, o) in got && r in got[Look(p, o)] :: r
  }

  lemma CollectedOneMore(s: State, t: State, p: PeerId, done: set<PeerId>, o: PeerId,
                         producers: set<ProducerId>, more: set<ProducerId>)
    requires Collected(s.existingProducers, p, done, producers) && Rooms.ReadOne(s, t, p, o, more) && o !in done
    ensures Collected(t.existingProducers, p, done + {o}, producers + more)
  {
  }

  /** The fetches go out together and land in any order; the first that fails ends the wait. */
  method GetAllProducers(d: Deployment, p: PeerId, otherPeers: set<PeerId>)
    returns (ok: bool, producers: set<ProducerId>)
    requires d.Valid() && At(d.Value(), p, FetchProducers(otherPeers, {}))
    requires p in d.rest.existingPeers && d.rest.existingPeers[p] == otherPeers
    modifies d, d.redis, d.sfu
    ensures d.Valid() && old(d.run) <= d.run
    ensures At(d.Value(), p, if ok then JoinSocket else UndoPeer)
    ensures ok ==> p in d.rest.existingPeers && d.rest.existingPeers[p] == otherPeers
                   && Collected(d.rest.existingProducers, p, otherPeers, producers)
  {
    hide After, Step, Collected, Rooms.ReadOne, At;
    producers := {};
    var done := {};
    assert Collected(d.rest.existingProducers, p, done, producers) by { NothingCollected(d.rest.existingProducers, p); }
    while done != otherPeers
      invariant d.Valid() && old(d.run) <= d.run && done <= otherPeers
      invariant At(d.Value(), p, FetchProducers(otherPeers, done))
                && Collected(d.rest.existingProducers, p, done, producers)
      invariant p in d.rest.existingPeers && d.rest.existingPeers[p] == otherPeers
      decreases |otherPeers - done|
    {
      SomeMember(otherPeers - done);
      var o :| o in otherPeers - done;
      ghost var was := d.Value();
      var more;
      ok, more := Rooms.GetProducers(d, p, otherPeers, done, o);
      if !ok {
        return;
      }
      CollectedOneMore(was, d.Value(), p, done, o, producers, more);
      KeptPeers(was, d.Value(), p, o, more);
      producers, done := producers + more, done + {o};
    }
    FetchedAllStep(d.Value(), p, otherPeers);
    d.Commit(d.Value(), Exec(p));
    return true, producers;
  }

  lemma CollectedStays(got: map<Look, set<ProducerId>>, now: map<Look, set<ProducerId>>, p: PeerId,
                       done: set<PeerId>, producers: set<ProducerId>)
    requires Collected(got, p, done, producers) && SameLooks(got, now, p)
    ensures Collected(now, p, done, producers)
  {
  }

  lemma NothingCollected(got: map<Look, set<ProducerId>>, p: PeerId)
    ensures Collected(got, p, {}, {})
  {
  }

  lemma KeptPeers(s: State, t: State, p: PeerId, o: PeerId, producers: set<ProducerId>)
    requires Rooms.ReadOne(s, t, p, o, producers) && p in s.existingPeers
    ensures p in t.existingPeers && t.existingPeers[p] == s.existingPeers[p]
  {
  }

  /** What the answer of join promises, whatever ran during it: the peers named
      are exactly the others that were members when the hash was read, the
      producers are all that were read from theirs, and the joiner is in. */
  ghost predicate Answered(d: Deployment, p: PeerId, existingPeers: set<PeerId>, existingProducers: set<ProducerId>)
    reads d, d.redis
  {
    && p in d.redis.peers && p in d.rest.h.read
    && p in d.rest.existingPeers && d.rest.existingPeers[p] == existingPeers
    && (forall o :: o in existingPeers <==> o != p && MemberAt(d.rest.h.added, d.rest.h.removed, o, d.rest.h.read[p]))
    && Collected(d.rest.existingProducers, p, existingPeers, existingProducers)
  }

  method Join(d: Deployment, p: PeerId) returns (r: JoinResult)
    requires d.Valid() && At(d.Value(), p, Pc.GetRoom)
    modifies d, d.redis, d.sfu
    ensures d.Valid() && old(d.run) <= d.run && At(d.Value(), p, PositionAfter(r))
    ensures r.Entered? ==> Answered(d, p, r.existingPeers, r.existingProducers)
    ensures !r.Entered? ==> (p in d.redis.peers <==> r.Thrown? && r.ghostPeer)
  {
    hide After, d.Valid, d.Value, At, Answered, Collected;
    var lookup := Rooms.GetOrCreateRoom(d, p);
    match lookup {
      case Threw => return Thrown(false);
      case Waiting(creator) => return StillWaiting(creator);
      case Found =>
    }
    var ok, added := Rooms.AddPeer(d, p);
    if !ok {
      return Thrown(added);
    }
    var otherPeers, existingProducers;
    ok, otherPeers := Rooms.GetOtherPeers(d, p);
    if ok {
      ok, existingProducers := GetAllProducers(d, p, otherPeers);
    }
    if !ok {
      var undone := Rooms.UndoAdd(d, p);
      return Thrown(!undone);
    }
    JoinAnswer(d, p, otherPeers, existingProducers);
    return Entered(otherPeers, existingProducers);
  }

  lemma JoinAnswer(d: Deployment, p: PeerId, existingPeers: set<PeerId>, existingProducers: set<ProducerId>)
    requires d.Valid() && At(d.Value(), p, JoinSocket)
    requires p in d.rest.existingPeers && d.rest.existingPeers[p] == existingPeers
    requires Collected(d.rest.existingProducers, p, existingPeers, existingProducers)
    ensures Answered(d, p, existingPeers, existingProducers)
  {
    hide After, Collected, Clocked, Producers, Fetches, FetchOrder, ProducerNews, PeerNews, Requests, Pcs, MemberAt;
    Rooms.PlaceInHash(d, p, JoinSocket);
    AfterKeeps(d.run);
  }

  // ----- leave -----

  /** The awaited removal at the sfu; a failure is logged and leave goes on. */
  method SfuRemovePeer(d: Deployment, p: PeerId, n: Node) returns (ok: bool)
    requires d.Valid() && At(d.Value(), p, LeaveSfu(n))
    modifies d, d.redis, d.sfu
    ensures d.Valid() && old(d.run) <= d.run && At(d.Value(), p, LeaveCheck(n))
    ensures ok && n in d.sfu.mediaRooms ==> p !in d.sfu.mediaRooms[n]
  {
    hide After, Step, SameOwn;
    ok := d.Await(p, LeaveSfu(n));
    if ok {
      var was := d.Value();
      d.sfu.RemovePeer(n, p);
      LeaveSfuStep(was, p, n);
      d.Commit(was, Exec(p));
    }
  }

  /** The close at the sfu, which nobody waits for. */
  method SfuCloseRoom(d: Deployment, p: PeerId, n: Node) returns (ok: bool)
    requires d.Valid() && At(d.Value(), p, SfuClose(n))
    modifies d, d.redis, d.sfu
    ensures d.Valid() && old(d.run) <= d.run && At(d.Value(), p, Left) && p !in d.redis.peers
    ensures ok && n in d.sfu.mediaRooms ==> d.sfu.mediaRooms[n] != {}
    ensures Came(d.Value(), p, SfuClose(n)) && !Rooms.EndedEarly(d.Value(), p)
  {
    hide After, Step, SameOwn;
    ok := d.Await(p, SfuClose(n));
    if ok {
      var was := d.Value();
      var closed := d.sfu.CloseRoom(n);
      SfuCloseStep(was, p, n);
      d.Commit(was, Exec(p));
    }
  }

  datatype LeaveResult = NoRecord | Failed | Occupied | Closed

  /** How a leave ended, by its last event and the command it was at: at its GET
      without a record, at its check or its script with somebody in the hash, at a
      command that was rejected, or with its close, which may have got lost. */
  ghost predicate EndedAs(s: State, run: seq<Event>, p: PeerId, r: LeaveResult) {
    match r
    case NoRecord => Came(s, p, LeaveGet) && LastWas(run, Exec(p))
    case Occupied =>
      p in s.cameFrom && (s.cameFrom[p].LeaveCheck? || s.cameFrom[p].LeaveScript?) && LastWas(run, Exec(p))
    case Failed => Rooms.RejectedAtLast(s, run, p)
    case Closed => exists n :: Came(s, p, SfuClose(n))
  }

  lemma EndsRejected(s: State, run: seq<Event>, p: PeerId)
    requires Rooms.RejectedAtLast(s, run, p)
    ensures EndedAs(s, run, p, LeaveResult.Failed)
  {
  }

  lemma EndsUnrecorded(s: State, run: seq<Event>, p: PeerId)
    requires Came(s, p, LeaveGet) && LastWas(run, Exec(p))
    ensures EndedAs(s, run, p, NoRecord)
  {
  }

  lemma EndsOccupied(s: State, run: seq<Event>, p: PeerId, n: Node, keys: set<PeerId>)
    requires (Came(s, p, LeaveCheck(n)) || Came(s, p, LeaveScript(n, keys))) && LastWas(run, Exec(p))
    ensures EndedAs(s, run, p, Occupied)
  {
  }

  lemma EndsClosed(s: State, run: seq<Event>, p: PeerId, n: Node)
    requires Came(s, p, SfuClose(n))
    ensures EndedAs(s, run, p, LeaveResult.Closed)
  {
  }

  /** leave always ends. Its peer is still in the peers hash exactly if it ended at
      its GET, without a record or rejected, or at its HDEL. */
  method Leave(d: Deployment, p: PeerId) returns (r: LeaveResult)
    requires d.Valid() && At(d.Value(), p, LeaveGet)
    modifies d, d.redis, d.sfu
    ensures d.Valid() && old(d.run) <= d.run && At(d.Value(), p, Left)
    ensures p in d.redis.peers <==> Rooms.EndedEarly(d.Value(), p)
    ensures EndedAs(d.Value(), d.run, p, r)
    ensures r == NoRecord ==> d.redis.room == None
    ensures r == Occupied ==> d.redis.peers != {}
  {
    hide After, d.Valid, d.Value, At, Rooms.RejectedAtLast, Rooms.EndedEarly, Rooms.Deleted, Rooms.Cleaning, LastWas,
         EndedAs, Came;
    var ok, room := Rooms.Get(d, p);
    if !ok {
      EndsRejected(d.Value(), d.run, p);
      return LeaveResult.Failed;
    }
    if room.None? {
      EndsUnrecorded(d.Value(), d.run, p);
      return NoRecord;
    }
    var n := room.value;
    ok := Rooms.RemovePeer(d, p, n);
    if !ok {
      EndsRejected(d.Value(), d.run, p);
      return LeaveResult.Failed;
    }
    var removed := SfuRemovePeer(d, p, n);

    var isRoomEmpty, closed;
    ok, isRoomEmpty := Rooms.IsEmpty(d, p, n);
    if !ok {
      EndsRejected(d.Value(), d.run, p);
      return LeaveResult.Failed;
    }
    if !isRoomEmpty {
      EndsOccupied(d.Value(), d.run, p, n, {});
      return Occupied;
    }
    ghost var at, keys;
    ok, closed, at, keys := Rooms.CloseRoom(d, p, n);
    if !ok {
      EndsRejected(d.Value(), d.run, p);
      return LeaveResult.Failed;
    }
    if !closed {
      EndsOccupied(d.Value(), d.run, p, n, keys);
      return Occupied;
    }
    var sfuClosed := SfuCloseRoom(d, p, n);
    EndsClosed(d.Value(), d.run, p, n);
    return LeaveResult.Closed;
  }

  // ----- produce -----

  /** At event `i` of the run, a command of the request found what it looked for. */
  ghost predicate Served(run: seq<Event>, r: ProducerId, from: nat, i: nat) {
    from <= i < |run| && run[i] == Serve(r)
  }

  ghost function StateAt(run: seq<Event>, i: nat): State
    requires i <= |run|
  {
    After(INIT, run[..i])
  }

  /** One after the other: the owner was in the peers hash, the record named a node,
      and that node had a MediaRoom. */
  ghost predicate ChecksPassed(run: seq<Event>, r: ProducerId, from: nat, checked: nat, resolved: nat, asked: nat) {
    && Served(run, r, from, checked) && r.owner in StateAt(run, checked).peers
    && Served(run, r, checked + 1, resolved) && StateAt(run, resolved).room.Some?
    && Served(run, r, resolved + 1, asked) && StateAt(run, resolved).room.value in StateAt(run, asked).mediaRooms
  }

  lemma PassedBefore(was: seq<Event>, run: seq<Event>, r: ProducerId, from: nat, checked: nat, resolved: nat,
                     asked: nat)
    requires was <= run && ChecksPassed(was, r, from, checked, resolved, asked)
    ensures ChecksPassed(run, r, from, checked, resolved, asked)
  {
    hide StateAt;
    ServedBefore(was, run, checked);
    ServedBefore(was, run, resolved);
    ServedBefore(was, run, asked);
  }

  lemma ServedBefore(was: seq<Event>, run: seq<Event>, i: nat)
    requires was <= run && i < |was|
    ensures run[i] == was[i] && StateAt(run, i) == StateAt(was, i)
  {
    hide After;
    assert run[..i] == was[..i];
  }

  /** The request of a socket in the room; `r` is the id the sfu will give it. The
      peer is looked up (at event `checked`), then the node (`resolved`), then the
      sfu is asked (`asked`), and only then the producer is recorded. */
  method Produce(d: Deployment, r: ProducerId)
    returns (ok: bool, ghost checked: nat, ghost resolved: nat, ghost asked: nat)
    requires d.Valid() && RequestAt(d.Value(), r, Producer, CheckPeer)
    modifies d, d.redis, d.sfu
    ensures d.Valid() && old(d.run) <= d.run
    ensures RequestAt(d.Value(), r, Producer, if ok then Broadcast else Refused)
    ensures ok <==> r in d.rest.h.recorded
    ensures ok ==> ChecksPassed(d.run, r, |old(d.run)|, checked, resolved, asked)
  {
    hide After, d.Valid, d.Value, RequestAt, StateAt, Served, ChecksPassed;
    checked, resolved, asked := 0, 0, 0;
    ok, checked := GetPeer(d, r);
    if !ok {
      return;
    }
    ghost var run1 := d.run;
    var n;
    ok, n, resolved := ResolveSfuNode(d, r);
    if !ok {
      return;
    }
    ghost var run2 := d.run;
    ok, asked := SfuProduce(d, r, n);
    if !ok {
      return;
    }
    ghost var run3 := d.run;
    Checks(run1, run2, run3, r, n, |old(d.run)|, checked, resolved, asked);
    ok := AddProducer(d, r);
    PassedBefore(run3, d.run, r, |old(d.run)|, checked, resolved, asked);
  }

  lemma Checks(run1: seq<Event>, run2: seq<Event>, run3: seq<Event>, r: ProducerId, n: Node, from: nat, checked: nat,
               resolved: nat, asked: nat)
    requires run1 <= run2 <= run3 && Served(run1, r, from, checked) && r.owner in StateAt(run1, checked).peers
    requires Served(run2, r, |run1|, resolved) && StateAt(run2, resolved).room == Some(n)
    requires Served(run3, r, |run2|, asked) && n in StateAt(run3, asked).mediaRooms
    ensures ChecksPassed(run3, r, from, checked, resolved, asked)
  {
    hide StateAt;
    ServedBefore(run1, run3, checked);
    ServedBefore(run2, run3, resolved);
  }

  method GetPeer(d: Deployment, r: ProducerId) returns (ok: bool, ghost at: nat)
    requires d.Valid() && RequestAt(d.Value(), r, Producer, CheckPeer)
    modifies d, d.redis, d.sfu
    ensures d.Valid() && old(d.run) <= d.run
    ensures RequestAt(d.Value(), r, Producer, if ok then ResolveNode else Refused)
    ensures r !in d.rest.h.recorded
    ensures ok ==> Served(d.run, r, |old(d.run)|, at) && r.owner in StateAt(d.run, at).peers
  {
    hide After, Step;
    at := 0;
    ok := d.AwaitFor(r, Producer, CheckPeer);
    if ok {
      var was := d.Value();
      at := |d.run|;
      assert d.run[..at] == d.run;
      ok := d.redis.HExistsPeer(r.owner);
      CheckPeerStep(was, r, Producer);
      d.Commit(was, Serve(r));
    }
  }

  method ResolveSfuNode(d: Deployment, r: ProducerId) returns (ok: bool, n: Node, ghost at: nat)
    requires d.Valid() && RequestAt(d.Value(), r, Producer, ResolveNode)
    modifies d, d.redis, d.sfu
    ensures d.Valid() && old(d.run) <= d.run
    ensures RequestAt(d.Value(), r, Producer, if ok then CallSfu(n) else Refused)
    ensures r !in d.rest.h.recorded
    ensures ok ==> Served(d.run, r, |old(d.run)|, at) && StateAt(d.run, at).room == Some(n)
  {
    hide After, Step;
    n, at := 0, 0;
    ok := d.AwaitFor(r, Producer, ResolveNode);
    if ok {
      var was := d.Value();
      at := |d.run|;
      assert d.run[..at] == d.run;
      var room := d.redis.Get();
      ResolveNodeStep(was, r, Producer);
      d.Commit(was, Serve(r));
      if room.None? {
        return false, 0, 0;
      }
      n := room.value;
    }
  }

  method SfuProduce(d: Deployment, r: ProducerId, n: Node) returns (ok: bool, ghost at: nat)
    requires d.Valid() && RequestAt(d.Value(), r, Producer, CallSfu(n))
    modifies d, d.redis, d.sfu
    ensures d.Valid() && old(d.run) <= d.run
    ensures RequestAt(d.Value(), r, Producer, if ok then Record else Refused)
    ensures r !in d.rest.h.recorded
    ensures ok ==> Served(d.run, r, |old(d.run)|, at) && n in StateAt(d.run, at).mediaRooms
  {
    hide After, Step;
    at := 0;
    ok := d.AwaitFor(r, Producer, CallSfu(n));
    if ok {
      var was := d.Value();
      at := |d.run|;
      assert d.run[..at] == d.run;
      ok := n in d.sfu.mediaRooms;
      ProduceStep(was, r, n);
      d.Commit(was, Serve(r));
    }
  }

  method AddProducer(d: Deployment, r: ProducerId) returns (ok: bool)
    requires d.Valid() && RequestAt(d.Value(), r, Producer, Record)
    modifies d, d.redis, d.sfu
    ensures d.Valid() && old(d.run) <= d.run
    ensures RequestAt(d.Value(), r, Producer, if ok then Broadcast else Refused)
    ensures ok <==> r in d.rest.h.recorded
    ensures ok ==> r.owner in d.redis.producers && r in d.redis.producers[r.owner]
  {
    hide After, Step;
    ok := d.AwaitFor(r, Producer, Record);
    if ok {
      var was := d.Value();
      d.redis.HSetProducer(r);
      RecordProducerStep(was, r, Producer);
      d.Commit(was, Serve(r));
    }
  }
}
