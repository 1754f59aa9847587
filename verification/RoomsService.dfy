/** RoomsService: the Redis side of a room, written command by command. A method
    returns false, or None, where the original throws. */
module RoomsService {
  import opened Wrappers
  import opened RoomProtocol
  import opened RoomInvariants
  import opened RoomTheorems
  import opened RoomFrames
  import opened RoomSteps
  import opened Deployment

  lemma PlaceInHash(d: Deployment, p: PeerId, pc: Pc)
    requires d.Valid() && At(d.Value(), p, pc)
    ensures Placed(pc, p in d.redis.peers)
  {
    hide After;
    assert Leads(INIT, d.run, d.Value());
    HandlerMembership(d.Value(), p);
  }

  /** Others run while handler `p` waits. */
  method WaitForTurn(d: Deployment, p: PeerId, pc: Pc)
    requires d.Valid() && At(d.Value(), p, pc)
    modifies d, d.redis, d.sfu
    ensures d.Valid() && old(d.run) <= d.run && At(d.Value(), p, pc)
  {
    hide After;
    d.Turn(p);
  }

  /** The leave ended at its GET or at its HDEL. */
  ghost predicate EndedEarly(s: State, p: PeerId) {
    p in s.cameFrom && (s.cameFrom[p].LeaveGet? || s.cameFrom[p].LeavePeer?)
  }

  /** The leave ended because its last command was rejected. */
  ghost predicate RejectedAtLast(s: State, run: seq<Event>, p: PeerId) {
    && p in s.cameFrom && (Departing(s.cameFrom[p]) || Closing(s.cameFrom[p]))
    && !s.cameFrom[p].LeaveSfu? && !s.cameFrom[p].SfuClose?
    && if s.cameFrom[p].LeaveClean? then exists o :: o in s.cameFrom[p].keys && LastWas(run, FailClean(p, o))
       else LastWas(run, Fail(p))
  }

  // ----- Single commands: an await, the command, and the way on -----

  /** GET room:<id>, for leave */
  method Get(d: Deployment, p: PeerId) returns (ok: bool, room: Option<Node>)
    requires d.Valid() && At(d.Value(), p, LeaveGet)
    modifies d, d.redis, d.sfu
    ensures d.Valid() && old(d.run) <= d.run
    ensures At(d.Value(), p, if ok then (if room.Some? then LeavePeer(room.value) else Left) else Left)
    ensures ok ==> room == d.redis.room
    ensures p in d.redis.peers && LastWas(d.run, if ok then Exec(p) else Fail(p))
    ensures !ok || room.None? ==> Came(d.Value(), p, LeaveGet) && EndedEarly(d.Value(), p)
    ensures !ok ==> RejectedAtLast(d.Value(), d.run, p)
  {
    hide After, Step, SameOwn;
    ok := d.Await(p, LeaveGet);
    if !ok {
      return false, None;
    }
    var was := d.Value();
    room := d.redis.Get();
    LeaveGetStep(was, p);
    d.Commit(was, Exec(p));
  }

  /** HSET and EXPIRE; lifetimes are not modelled */
  method HSet(d: Deployment, p: PeerId) returns (ok: bool)
    requires d.Valid() && At(d.Value(), p, Pc.AddPeer)
    modifies d, d.redis, d.sfu
    ensures d.Valid() && old(d.run) <= d.run
    ensures At(d.Value(), p, if ok then ExpirePeers else Rejected)
    ensures p in d.redis.peers <==> ok
  {
    hide After, Step, SameOwn;
    ok := d.Await(p, Pc.AddPeer);
    if !ok {
      return;
    }
    var was := d.Value();
    d.redis.HSetPeer(p);
    AddPeerStep(was, p);
    d.Commit(was, Exec(p));
  }

  method Expire(d: Deployment, p: PeerId) returns (ok: bool)
    requires d.Valid() && At(d.Value(), p, ExpirePeers)
    modifies d, d.redis, d.sfu
    ensures d.Valid() && old(d.run) <= d.run
    ensures At(d.Value(), p, if ok then ReadPeers else Rejected)
    ensures p in d.redis.peers
  {
    hide After, Step, SameOwn;
    ok := d.Await(p, ExpirePeers);
    if !ok {
      return;
    }
    var was := d.Value();
    ExpirePeersStep(was, p);
    d.Commit(was, Exec(p));
  }

  /** HDEL and DEL, in the rollback of join */
  method HDelUndo(d: Deployment, p: PeerId) returns (ok: bool)
    requires d.Valid() && At(d.Value(), p, UndoPeer)
    modifies d, d.redis, d.sfu
    ensures d.Valid() && old(d.run) <= d.run
    ensures At(d.Value(), p, if ok then UndoProducers else Rejected)
    ensures p in d.redis.peers <==> !ok
  {
    hide After, Step, SameOwn;
    ok := d.Await(p, UndoPeer);
    if !ok {
      return;
    }
    var was := d.Value();
    d.redis.HDelPeer(p);
    UndoPeerStep(was, p);
    d.Commit(was, Exec(p));
  }

  method DelUndo(d: Deployment, p: PeerId) returns (ok: bool)
    requires d.Valid() && At(d.Value(), p, UndoProducers)
    modifies d, d.redis, d.sfu
    ensures d.Valid() && old(d.run) <= d.run
    ensures At(d.Value(), p, Rejected)
    ensures p !in d.redis.peers
    ensures ok ==> p !in d.redis.producers
  {
    hide After, Step, SameOwn;
    ok := d.Await(p, UndoProducers);
    if !ok {
      return;
    }
    var was := d.Value();
    d.redis.DelProducers(p);
    UndoProducersStep(was, p);
    d.Commit(was, Exec(p));
  }

  /** HDEL and DEL, in leave */
  method HDel(d: Deployment, p: PeerId, n: Node) returns (ok: bool)
    requires d.Valid() && At(d.Value(), p, LeavePeer(n))
    modifies d, d.redis, d.sfu
    ensures d.Valid() && old(d.run) <= d.run
    ensures At(d.Value(), p, if ok then LeaveProducers(n) else Left)
    ensures p in d.redis.peers <==> !ok
    ensures !ok ==> Came(d.Value(), p, LeavePeer(n)) && LastWas(d.run, Fail(p))
  {
    hide After, Step, SameOwn;
    ok := d.Await(p, LeavePeer(n));
    if !ok {
      return;
    }
    var was := d.Value();
    d.redis.HDelPeer(p);
    LeavePeerStep(was, p, n);
    d.Commit(was, Exec(p));
  }

  method Del(d: Deployment, p: PeerId, n: Node) returns (ok: bool)
    requires d.Valid() && At(d.Value(), p, LeaveProducers(n))
    modifies d, d.redis, d.sfu
    ensures d.Valid() && old(d.run) <= d.run
    ensures At(d.Value(), p, if ok then LeaveSfu(n) else Left)
    ensures p !in d.redis.peers
    ensures ok ==> p !in d.redis.producers
    ensures !ok ==> Came(d.Value(), p, LeaveProducers(n)) && LastWas(d.run, Fail(p))
  {
    hide After, Step, SameOwn;
    ok := d.Await(p, LeaveProducers(n));
    if !ok {
      return;
    }
    var was := d.Value();
    d.redis.DelProducers(p);
    LeaveProducersStep(was, p, n);
    d.Commit(was, Exec(p));
  }

  method HLen(d: Deployment, p: PeerId, n: Node) returns (ok: bool, count: nat)
    requires d.Valid() && At(d.Value(), p, LeaveCheck(n))
    modifies d, d.redis, d.sfu
    ensures d.Valid() && old(d.run) <= d.run
    ensures At(d.Value(), p, if ok then (if count == 0 then LeaveKeys(n) else Left) else Left)
    ensures p !in d.redis.peers
    ensures ok ==> count == |d.redis.peers|
    ensures !ok || count > 0 ==> Came(d.Value(), p, LeaveCheck(n))
    ensures LastWas(d.run, if ok then Exec(p) else Fail(p))
  {
    hide After, Step, SameOwn;
    ok := d.Await(p, LeaveCheck(n));
    if !ok {
      return false, 0;
    }
    var was := d.Value();
    count := d.redis.HLenPeers();
    LeaveCheckStep(was, p, n);
    d.Commit(was, Exec(p));
  }

  method HKeys(d: Deployment, p: PeerId, n: Node) returns (ok: bool, keys: set<PeerId>, ghost at: nat)
    requires d.Valid() && At(d.Value(), p, LeaveKeys(n))
    modifies d, d.redis, d.sfu
    ensures d.Valid() && old(d.run) <= d.run
    ensures At(d.Value(), p, if ok then LeaveScript(n, keys) else Left)
    ensures p !in d.redis.peers
    ensures !ok ==> Came(d.Value(), p, LeaveKeys(n)) && LastWas(d.run, Fail(p))
    ensures |old(d.run)| <= at <= |d.run| && (ok ==> keys == After(INIT, d.run[..at]).peers)
  {
    hide After, Step, SameOwn;
    ok := d.Await(p, LeaveKeys(n));
    if !ok {
      return false, {}, |d.run|;
    }
    var was := d.Value();
    at := |d.run|;
    keys := d.redis.AllPeers();
    assert d.run[..at] == d.run;
    LeaveKeysStep(was, p, n);
    d.Commit(was, Exec(p));
  }

  method Script(d: Deployment, p: PeerId, n: Node, keys: set<PeerId>) returns (ok: bool, closed: int)
    requires d.Valid() && At(d.Value(), p, LeaveScript(n, keys))
    modifies d, d.redis, d.sfu
    ensures d.Valid() && old(d.run) <= d.run
    ensures At(d.Value(), p, if ok then (if closed == 1 then LeaveClean(n, keys) else Left) else Left)
    ensures p !in d.redis.peers
    ensures closed in {0, 1}
    ensures ok ==> (closed == 1 <==> d.redis.peers == {})
    ensures !ok || closed == 0 ==> Came(d.Value(), p, LeaveScript(n, keys))
    ensures LastWas(d.run, if ok then Exec(p) else Fail(p))
    ensures ok && closed == 1 ==> d.redis.room == None
  {
    hide After, d.Valid, d.Value, At, Came, SameOwn;
    ok := d.Await(p, LeaveScript(n, keys));
    if !ok {
      return false, 0;
    }
    closed := RunScript(d, p, n, keys);
  }

  method RunScript(d: Deployment, p: PeerId, n: Node, keys: set<PeerId>) returns (closed: int)
    requires d.Valid() && At(d.Value(), p, LeaveScript(n, keys))
    modifies d, d.redis
    ensures d.Valid() && d.run == old(d.run) + [Exec(p)] && d.redis.peers == old(d.redis.peers)
    ensures At(d.Value(), p, if closed == 1 then LeaveClean(n, keys) else Left) && closed in {0, 1}
    ensures if closed == 1 then d.redis.peers == {} && d.redis.room == None
            else d.redis.peers != {} && Came(d.Value(), p, LeaveScript(n, keys))
  {
    hide After, Step;
    var was := d.Value();
    closed := d.redis.CloseRoomIfEmpty();
    LeaveScriptStep(was, p, n, keys);
    d.Commit(was, Exec(p));
  }

  method DelOf(d: Deployment, p: PeerId, n: Node, keys: set<PeerId>, o: PeerId) returns (ok: bool)
    requires d.Valid() && At(d.Value(), p, LeaveClean(n, keys)) && o in keys
    modifies d, d.redis, d.sfu
    ensures d.Valid() && old(d.run) <= d.run
    ensures At(d.Value(), p, if ok then LeaveClean(n, keys - {o}) else Left)
    ensures p !in d.redis.peers
    ensures |old(d.run)| < |d.run| && LastWas(d.run, if ok then Clean(p, o) else FailClean(p, o))
    ensures !ok ==> Came(d.Value(), p, LeaveClean(n, keys)) && !EndedEarly(d.Value(), p)
    ensures !ok ==> StrayOf(d.Value(), p) == keys - {o}
  {
    hide After, d.Valid, d.Value, At, Came, EndedEarly;
    WaitForTurn(d, p, LeaveClean(n, keys));
    PlaceInHash(d, p, LeaveClean(n, keys));
    ok := *;
    if ok {
      LandDel(d, p, n, keys, o);
    } else {
      RejectDel(d, p, n, keys, o);
    }
  }

  method LandDel(d: Deployment, p: PeerId, n: Node, keys: set<PeerId>, o: PeerId)
    requires d.Valid() && At(d.Value(), p, LeaveClean(n, keys)) && o in keys
    modifies d, d.redis`producers
    ensures d.Valid() && d.run == old(d.run) + [Clean(p, o)]
    ensures At(d.Value(), p, LeaveClean(n, keys - {o}))
  {
    hide After, Step;
    var was := d.Value();
    d.redis.DelProducers(o);
    CleanStep(was, p, n, keys, o);
    d.Commit(was, Clean(p, o));
  }

  method RejectDel(d: Deployment, p: PeerId, n: Node, keys: set<PeerId>, o: PeerId)
    requires d.Valid() && At(d.Value(), p, LeaveClean(n, keys)) && o in keys
    modifies d
    ensures d.Valid() && d.run == old(d.run) + [FailClean(p, o)]
    ensures At(d.Value(), p, Left) && Came(d.Value(), p, LeaveClean(n, keys)) && !EndedEarly(d.Value(), p)
    ensures StrayOf(d.Value(), p) == keys - {o}
  {
    hide After, Step;
    var was := d.Value();
    FailCleanStep(was, p, n, keys, o);
    d.Commit(was, FailClean(p, o));
  }

  /** getOtherPeers: HGETALL, less the caller */
  method GetOtherPeers(d: Deployment, p: PeerId) returns (ok: bool, others: set<PeerId>)
    requires d.Valid() && At(d.Value(), p, ReadPeers)
    modifies d, d.redis, d.sfu
    ensures d.Valid() && old(d.run) <= d.run
    ensures At(d.Value(), p, if ok then FetchProducers(others, {}) else UndoPeer)
    ensures ok ==> p in d.rest.existingPeers && d.rest.existingPeers[p] == others
    ensures ok ==> others == d.redis.peers - {p}
  {
    hide After, Step, SameOwn;
    ok := d.Await(p, ReadPeers);
    if !ok {
      return false, {};
    }
    var all := d.redis.AllPeers();
    others := all - {p};
    ReadPeersStep(d.Value(), p);
    d.Commit(d.Value(), Exec(p));
  }

  /** getProducers of another peer: HGETALL */
  method GetProducers(d: Deployment, p: PeerId, others: set<PeerId>, done: set<PeerId>, o: PeerId)
    returns (ok: bool, producers: set<ProducerId>)
    requires d.Valid() && At(d.Value(), p, FetchProducers(others, done)) && o in others - done
    modifies d, d.redis, d.sfu
    ensures d.Valid() && old(d.run) <= d.run
    ensures At(d.Value(), p, if ok then FetchProducers(others, done + {o}) else UndoPeer)
    ensures ok ==> ReadOne(old(d.Value()), d.Value(), p, o, producers)
    ensures ok ==> producers == if o in d.redis.producers then d.redis.producers[o] else {}
  {
    hide After, Step, SameOwn, ReadOne;
    ok := d.Await(p, FetchProducers(others, done));
    if !ok {
      return false, {};
    }
    producers := d.redis.AllProducers(o);
    ghost var was := d.Value();
    FetchStep(was, p, others, done, o);
    d.Commit(d.Value(), Fetch(p, o));
    Reading(old(d.Value()), was, d.Value(), p, o, producers);
  }

  /** The handler's reads are those it had and the one of `o`. */
  ghost predicate ReadOne(s: State, t: State, p: PeerId, o: PeerId, producers: set<ProducerId>) {
    && SameAt(s.existingPeers, t.existingPeers, p)
    && Look(p, o) in t.existingProducers && t.existingProducers[Look(p, o)] == producers
    && (forall q :: q != o && Look(p, q) in s.existingProducers.Keys ==>
          Look(p, q) in t.existingProducers.Keys && t.existingProducers[Look(p, q)] == s.existingProducers[Look(p, q)])
  }

  lemma Reading(s: State, was: State, t: State, p: PeerId, o: PeerId, producers: set<ProducerId>)
    requires SameOwn(s, was, p) && t.existingPeers == was.existingPeers
    requires t.existingProducers == was.existingProducers[Look(p, o) := producers]
    ensures ReadOne(s, t, p, o, producers)
  {
  }

  // ----- The service -----

  // getOrCreateRoom

  method GetForJoin(d: Deployment, p: PeerId) returns (ok: bool, room: Option<Node>)
    requires d.Valid() && At(d.Value(), p, Pc.GetRoom)
    modifies d, d.redis, d.sfu
    ensures d.Valid() && old(d.run) <= d.run && p !in d.redis.peers
    ensures At(d.Value(), p, if !ok then Rejected else if room.Some? then RefreshRoom else MissedRoom)
    ensures ok ==> room == d.redis.room
    ensures !ok ==> Came(d.Value(), p, Pc.GetRoom)
  {
    hide After, Step, SameOwn;
    ok := d.Await(p, Pc.GetRoom);
    if !ok {
      return false, None;
    }
    var was := d.Value();
    room := d.redis.Get();
    GetRoomStep(was, p);
    d.Commit(was, Exec(p));
  }

  method ExpireRoom(d: Deployment, p: PeerId) returns (ok: bool)
    requires d.Valid() && At(d.Value(), p, RefreshRoom)
    modifies d, d.redis, d.sfu
    ensures d.Valid() && old(d.run) <= d.run && p !in d.redis.peers
    ensures At(d.Value(), p, if ok then Pc.AddPeer else Rejected) && Came(d.Value(), p, RefreshRoom)
  {
    hide After, Step, SameOwn;
    ok := d.Await(p, RefreshRoom);
    if !ok {
      return;
    }
    var was := d.Value();
    RefreshRoomStep(was, p);
    d.Commit(was, Exec(p));
  }

  /** pendingRooms: share the creation of this instance that is in flight, or start one. */
  method FindPending(d: Deployment, p: PeerId) returns (started: bool, creator: PeerId)
    requires d.Valid() && At(d.Value(), p, MissedRoom)
    modifies d, d.redis, d.sfu
    ensures d.Valid() && old(d.run) <= d.run && At(d.Value(), p, AwaitRoom(creator))
    ensures started ==> creator == p && CreationAt(d.Value(), p, Picking)
    ensures started <==> old(d.rest.clients)[p].instance !in old(d.rest.pendingRooms)
    ensures !started ==> creator == old(d.rest.pendingRooms)[old(d.rest.clients)[p].instance]
    ensures d.redis.peers == old(d.redis.peers)
  {
    hide After, Step, SameOwn;
    var was := d.Value();
    AtMeans(was, p, MissedRoom);
    var i := d.rest.clients[p].instance;
    started := i !in d.rest.pendingRooms;
    creator := if started then p else d.rest.pendingRooms[i];
    MissedRoomStep(was, p);
    d.Commit(was, Exec(p));
  }

  /** An await of createRoom: others run, then it goes on or throws. */
  method AwaitCreation(d: Deployment, p: PeerId, creation: Creation) returns (ok: bool)
    requires d.Valid() && At(d.Value(), p, AwaitRoom(p)) && CreationAt(d.Value(), p, creation) && !creation.Created?
    modifies d, d.redis, d.sfu
    ensures d.Valid() && old(d.run) <= d.run
    ensures At(d.Value(), p, AwaitRoom(p)) && CreationAt(d.Value(), p, if ok then creation else Failed)
  {
    hide After, Step;
    d.Turn(p);
    ok := *;
    if !ok {
      var was := d.Value();
      FailCreationStep(was, p);
      d.Commit(was, FailCreation(p));
    }
  }

  method PickLeastLoaded(d: Deployment, p: PeerId) returns (ok: bool, n: Node)
    requires d.Valid() && At(d.Value(), p, AwaitRoom(p)) && CreationAt(d.Value(), p, Picking)
    modifies d, d.redis, d.sfu
    ensures d.Valid() && old(d.run) <= d.run
    ensures At(d.Value(), p, AwaitRoom(p)) && CreationAt(d.Value(), p, if ok then Creating(n) else Failed)
    ensures ok ==> |old(d.run)| < |d.run| && d.run[|d.run| - 1] == PickNode(p, n)
  {
    hide After, Step;
    n := *;
    ok := AwaitCreation(d, p, Picking);
    if ok {
      var was := d.Value();
      PickStep(was, p, n);
      d.Commit(was, PickNode(p, n));
    }
  }

  method CreateOrGetMediaRoom(d: Deployment, p: PeerId, n: Node) returns (ok: bool)
    requires d.Valid() && At(d.Value(), p, AwaitRoom(p)) && CreationAt(d.Value(), p, Creating(n))
    modifies d, d.redis, d.sfu
    ensures d.Valid() && old(d.run) <= d.run
    ensures At(d.Value(), p, AwaitRoom(p)) && CreationAt(d.Value(), p, if ok then Creation.Recording(n) else Failed)
    ensures ok ==> n in d.sfu.mediaRooms
  {
    hide After, Step;
    ok := AwaitCreation(d, p, Creating(n));
    if ok {
      var was := d.Value();
      d.sfu.CreateOrGetMediaRoom(n);
      CreateStep(was, p, n);
      d.Commit(was, ExecCreation(p));
    }
  }

  method SetRoom(d: Deployment, p: PeerId, n: Node) returns (ok: bool)
    requires d.Valid() && At(d.Value(), p, AwaitRoom(p)) && CreationAt(d.Value(), p, Creation.Recording(n))
    modifies d, d.redis, d.sfu
    ensures d.Valid() && old(d.run) <= d.run
    ensures At(d.Value(), p, AwaitRoom(p)) && CreationAt(d.Value(), p, if ok then Created else Failed)
    ensures ok ==> d.redis.room == Some(n)
  {
    hide After, Step;
    ok := AwaitCreation(d, p, Creation.Recording(n));
    if ok {
      var was := d.Value();
      d.redis.Set(n);
      RecordStep(was, p, n);
      d.Commit(was, ExecCreation(p));
    }
  }

  /** createRoom: the record names the node that was picked. */
  method CreateRoom(d: Deployment, p: PeerId) returns (ok: bool, sfuNode: Node, ghost at: nat)
    requires d.Valid() && At(d.Value(), p, AwaitRoom(p)) && CreationAt(d.Value(), p, Picking)
    modifies d, d.redis, d.sfu
    ensures d.Valid() && old(d.run) <= d.run && At(d.Value(), p, AwaitRoom(p))
    ensures CreationAt(d.Value(), p, if ok then Created else Failed)
    ensures ok ==> d.redis.room == Some(sfuNode)
    ensures ok ==> |old(d.run)| <= at < |d.run| && d.run[at] == PickNode(p, sfuNode)
  {
    hide After, d.Valid, d.Value, At, CreationAt;
    ok, sfuNode := PickLeastLoaded(d, p);
    at := if ok then |d.run| - 1 else 0;
    if !ok {
      return;
    }
    ghost var picked := d.run;
    ok := CreateOrGetMediaRoom(d, p, sfuNode);
    if !ok {
      return;
    }
    ghost var made := d.run;
    ok := SetRoom(d, p, sfuNode);
    assert d.run[at] == made[at] == picked[at];
  }

  /** `Waiting` is a caller whose shared creation has not settled yet. */
  datatype Lookup = Found | Threw | Waiting(creator: PeerId)

  function PositionOf(l: Lookup): Pc {
    match l
    case Found => Pc.AddPeer
    case Threw => Rejected
    case Waiting(creator) => AwaitRoom(creator)
  }

  /** The answer is that of the awaited creation. */
  ghost predicate SettledAs(s: State, p: PeerId, l: Lookup, creator: PeerId) {
    match l
    case Found => Came(s, p, AwaitRoom(creator)) && CreationAt(s, creator, Created)
    case Threw => Came(s, p, AwaitRoom(creator)) && CreationAt(s, creator, Failed)
    case Waiting(c) => c == creator
  }

  /** `await creation`, by the creator and by those who share it */
  method AwaitShared(d: Deployment, p: PeerId, creator: PeerId) returns (l: Lookup)
    requires d.Valid() && At(d.Value(), p, AwaitRoom(creator))
    modifies d, d.redis, d.sfu
    ensures d.Valid() && old(d.run) <= d.run && At(d.Value(), p, PositionOf(l)) && p !in d.redis.peers
    ensures SettledAs(d.Value(), p, l, creator)
  {
    hide After, d.Valid, d.Value, At, SameOwn, SettledAs;
    WaitForTurn(d, p, AwaitRoom(creator));
    PlaceInHash(d, p, AwaitRoom(creator));
    l := ResumeShared(d, p, creator);
  }

  /** The awaited creation has settled, or the caller goes on waiting. */
  method ResumeShared(d: Deployment, p: PeerId, creator: PeerId) returns (l: Lookup)
    requires d.Valid() && At(d.Value(), p, AwaitRoom(creator))
    modifies d, d.redis, d.sfu
    ensures d.Valid() && old(d.run) <= d.run && At(d.Value(), p, PositionOf(l)) && d.redis.peers == old(d.redis.peers)
    ensures SettledAs(d.Value(), p, l, creator)
  {
    hide After, Step;
    if creator !in d.rest.creations || d.rest.creations[creator] !in {Created, Failed} {
      return Waiting(creator);
    }
    var was := d.Value();
    l := if d.rest.creations[creator] == Created then Found else Threw;
    ResumeStep(was, p, creator);
    d.Commit(was, Exec(p));
  }

  /** Found behind the record's EXPIRE, thrown at the record's GET or EXPIRE, or as
      the creation that was shared or started went. */
  ghost predicate LookedUp(s: State, p: PeerId, l: Lookup) {
    || (l.Found? && Came(s, p, RefreshRoom))
    || (l.Threw? && (Came(s, p, Pc.GetRoom) || Came(s, p, RefreshRoom)))
    || exists creator :: SettledAs(s, p, l, creator)
  }

  method GetOrCreateRoom(d: Deployment, p: PeerId) returns (l: Lookup)
    requires d.Valid() && At(d.Value(), p, Pc.GetRoom)
    modifies d, d.redis, d.sfu
    ensures d.Valid() && old(d.run) <= d.run && At(d.Value(), p, PositionOf(l)) && p !in d.redis.peers
    ensures LookedUp(d.Value(), p, l)
  {
    hide After, d.Valid, d.Value, At, CreationAt, SettledAs;
    var ok, existing := GetForJoin(d, p);
    if !ok {
      return Threw;
    }
    if existing.Some? {
      ok := ExpireRoom(d, p);
      return if ok then Found else Threw;
    }
    var started, creator := FindPending(d, p);
    if started {
      var _, _, _ := CreateRoom(d, p);
    }
    l := AwaitShared(d, p, creator);
  }

  /** addPeer; `added` tells whether the peer is in the hash, also when it throws. */
  method AddPeer(d: Deployment, p: PeerId) returns (ok: bool, added: bool)
    requires d.Valid() && At(d.Value(), p, Pc.AddPeer)
    modifies d, d.redis, d.sfu
    ensures d.Valid() && old(d.run) <= d.run
    ensures At(d.Value(), p, if ok then ReadPeers else Rejected)
    ensures (ok ==> added) && (p in d.redis.peers <==> added)
  {
    hide After, d.Valid, d.Value, At;
    ok := HSet(d, p);
    added := ok;
    if ok {
      ok := Expire(d, p);
    }
  }

  /** removePeer, in the rollback of join */
  method UndoAdd(d: Deployment, p: PeerId) returns (ok: bool)
    requires d.Valid() && At(d.Value(), p, UndoPeer)
    modifies d, d.redis, d.sfu
    ensures d.Valid() && old(d.run) <= d.run && At(d.Value(), p, Rejected)
    ensures p in d.redis.peers <==> !ok
  {
    hide After, d.Valid, d.Value, At;
    ok := HDelUndo(d, p);
    if ok {
      var deleted := DelUndo(d, p);
    }
  }

  /** removePeer, in leave */
  method RemovePeer(d: Deployment, p: PeerId, n: Node) returns (ok: bool)
    requires d.Valid() && At(d.Value(), p, LeavePeer(n))
    modifies d, d.redis, d.sfu
    ensures d.Valid() && old(d.run) <= d.run
    ensures At(d.Value(), p, if ok then LeaveSfu(n) else Left)
    ensures ok ==> p !in d.redis.peers
    ensures ok ==> p !in d.redis.producers
    ensures !ok ==> (p in d.redis.peers <==> EndedEarly(d.Value(), p)) && RejectedAtLast(d.Value(), d.run, p)
  {
    hide After, d.Valid, d.Value, At, AfterFailure;
    ok := HDel(d, p, n);
    if !ok {
      return;
    }
    ok := Del(d, p, n);
    if ok {
      PlaceInHash(d, p, LeaveSfu(n));
    }
  }

  method IsEmpty(d: Deployment, p: PeerId, n: Node) returns (ok: bool, empty: bool)
    requires d.Valid() && At(d.Value(), p, LeaveCheck(n))
    modifies d, d.redis, d.sfu
    ensures d.Valid() && old(d.run) <= d.run
    ensures At(d.Value(), p, if ok && empty then LeaveKeys(n) else Left)
    ensures p !in d.redis.peers
    ensures ok ==> (empty <==> d.redis.peers == {})
    ensures !ok || !empty ==> Came(d.Value(), p, LeaveCheck(n)) && !EndedEarly(d.Value(), p)
    ensures if ok then LastWas(d.run, Exec(p)) else RejectedAtLast(d.Value(), d.run, p)
  {
    hide After, d.Valid, d.Value, At, AfterFailure;
    var count;
    ok, count := HLen(d, p, n);
    empty := count == 0;
  }

  /** closeRoom: the script decides; the keys read before it, at `at`, are deleted
      after it. If a deletion is rejected the rest are on their way. */
  method CloseRoom(d: Deployment, p: PeerId, n: Node)
    returns (ok: bool, closed: bool, ghost at: nat, ghost keys: set<PeerId>)
    requires d.Valid() && At(d.Value(), p, LeaveKeys(n))
    modifies d, d.redis, d.sfu
    ensures d.Valid() && old(d.run) <= d.run
    ensures At(d.Value(), p, if ok && closed then SfuClose(n) else Left)
    ensures p !in d.redis.peers
    ensures !ok || !closed ==> !EndedEarly(d.Value(), p)
    ensures !ok ==> RejectedAtLast(d.Value(), d.run, p)
    ensures ok && !closed ==> d.redis.peers != {} && Came(d.Value(), p, LeaveScript(n, keys)) && LastWas(d.run, Exec(p))
    ensures |old(d.run)| <= at <= |d.run|
    ensures ok && closed ==> keys == After(INIT, d.run[..at]).peers && Deleted(d.run, at, p, keys, {})
    ensures !ok && Cleaning(d.Value(), p) ==>
              && keys == After(INIT, d.run[..at]).peers
              && exists o :: LastWas(d.run, FailClean(p, o)) && Deleted(d.run, at, p, keys, StrayOf(d.Value(), p) + {o})
  {
    hide After, d.Valid, d.Value, At, AfterFailure;
    closed := false;
    var peerIds, answer;
    ok, peerIds, at := HKeys(d, p, n);
    keys := peerIds;
    if !ok {
      return;
    }
    ghost var read := d.run;
    ok, answer := Script(d, p, n, peerIds);
    if !ok || answer == 0 {
      return;
    }
    ok := DeleteProducers(d, p, n, peerIds, at);
    closed := ok;
    assert d.run[..at] == read[..at];
  }

  /** The leave ended among its deletions. */
  ghost predicate Cleaning(s: State, p: PeerId) {
    p in s.cameFrom && s.cameFrom[p].LeaveClean?
  }

  /** From `at` on all keys but those still to do were deleted, each by a command of
      its own. */
  ghost predicate Deleted(run: seq<Event>, at: nat, p: PeerId, keys: set<PeerId>, todo: set<PeerId>) {
    forall o | o in keys && o !in todo :: exists i :: at <= i < |run| && run[i] == Clean(p, o)
  }

  lemma OneMoreDeleted(before: seq<Event>, run: seq<Event>, at: nat, p: PeerId, keys: set<PeerId>, todo: set<PeerId>,
                       o: PeerId)
    requires before <= run && Deleted(before, at, p, keys, todo) && at < |run| && LastWas(run, Clean(p, o))
    ensures Deleted(run, at, p, keys, todo - {o})
  {
    StillDeleted(before, run, at, p, keys, todo);
    var last := |run| - 1;
    assert at <= last < |run| && run[last] == Clean(p, o);
  }

  lemma StillDeleted(before: seq<Event>, run: seq<Event>, at: nat, p: PeerId, keys: set<PeerId>, todo: set<PeerId>)
    requires before <= run && Deleted(before, at, p, keys, todo)
    ensures Deleted(run, at, p, keys, todo)
  {
    forall q | q in keys && q !in todo ensures exists i :: at <= i < |run| && run[i] == Clean(p, q) {
      var i :| at <= i < |before| && before[i] == Clean(p, q);
      assert run[i] == Clean(p, q);
    }
  }

  lemma NothingDeleted(run: seq<Event>, at: nat, p: PeerId, keys: set<PeerId>)
    ensures Deleted(run, at, p, keys, keys)
  {
  }

  /** The deletions go out together and land in any order; the first that fails ends the wait. */
  method DeleteProducers(d: Deployment, p: PeerId, n: Node, peerIds: set<PeerId>, ghost at: nat) returns (ok: bool)
    requires d.Valid() && At(d.Value(), p, LeaveClean(n, peerIds)) && at <= |d.run|
    modifies d, d.redis, d.sfu
    ensures d.Valid() && old(d.run) <= d.run
    ensures At(d.Value(), p, if ok then SfuClose(n) else Left)
    ensures p !in d.redis.peers && (!ok ==> !EndedEarly(d.Value(), p))
    ensures ok ==> Deleted(d.run, at, p, peerIds, {})
    ensures !ok ==> RejectedAtLast(d.Value(), d.run, p)
                    && exists o :: LastWas(d.run, FailClean(p, o))
                                   && Deleted(d.run, at, p, peerIds, StrayOf(d.Value(), p) + {o})
  {
    hide After, d.Valid, d.Value, At, AfterFailure, Deleted, EndedEarly;
    var todo := peerIds;
    NothingDeleted(d.run, at, p, peerIds);
    while todo != {}
      invariant d.Valid() && old(d.run) <= d.run && At(d.Value(), p, LeaveClean(n, todo))
      invariant at <= |d.run| && Deleted(d.run, at, p, peerIds, todo)
      decreases |todo|
    {
      SomeMember(todo);
      var o :| o in todo;
      ghost var before := d.run;
      ok := DelOf(d, p, n, todo, o);
      if !ok {
        StillDeleted(before, d.run, at, p, peerIds, todo);
        assert StrayOf(d.Value(), p) + {o} == todo;
        return;
      }
      OneMoreDeleted(before, d.run, at, p, peerIds, todo, o);
      todo := todo - {o};
    }
    ghost var before := d.run;
    AllDeleted(d, p, n);
    StillDeleted(before, d.run, at, p, peerIds, {});
    return true;
  }

  method AllDeleted(d: Deployment, p: PeerId, n: Node)
    requires d.Valid() && At(d.Value(), p, LeaveClean(n, {}))
    modifies d, d.redis, d.sfu
    ensures d.Valid() && old(d.run) <= d.run && At(d.Value(), p, SfuClose(n)) && p !in d.redis.peers
  {
    hide After, Step;
    PlaceInHash(d, p, LeaveClean(n, {}));
    CleanedAllStep(d.Value(), p, n);
    d.Commit(d.Value(), Exec(p));
  }
}
