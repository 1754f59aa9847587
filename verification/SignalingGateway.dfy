/** SignalingGateway: what the handlers of join, produce and disconnect do around
    the service's methods. */
module SignalingGateway {
  import opened Wrappers
  import opened RoomProtocol
  import opened RoomInvariants
  import opened RoomFrames
  import opened RoomSteps
  import opened Deployment
  import RoomEnds
  import Service = SignalingService

  /** The handler still holds what its join answered. */
  ghost predicate Holds(d: Deployment, p: PeerId, existingPeers: set<PeerId>, existingProducers: set<ProducerId>)
    reads d
  {
    && p in d.rest.existingPeers && d.rest.existingPeers[p] == existingPeers
    && Service.Collected(d.rest.existingProducers, p, existingPeers, existingProducers)
  }

  lemma HoldsStays(s: State, d: Deployment, p: PeerId, existingPeers: set<PeerId>, existingProducers: set<ProducerId>)
    requires p in s.existingPeers && s.existingPeers[p] == existingPeers
    requires Service.Collected(s.existingProducers, p, existingPeers, existingProducers) && SameOwn(s, d.Value(), p)
    ensures Holds(d, p, existingPeers, existingProducers)
  {
    hide Service.Collected;
    Service.CollectedStays(s.existingProducers, d.rest.existingProducers, p, existingPeers, existingProducers);
  }

  /** Everybody else in the socket room has been told of `p`. */
  ghost predicate NewPeerTold(s: State, p: PeerId) {
    forall q | q in s.sockets && q != p :: q in s.peerNews && p in s.peerNews[q]
  }

  lemma EmitReaches(was: State, s: State, p: PeerId)
    requires Inv(was) && s.sockets == was.sockets && s.peerNews == Tell(was.peerNews, was.sockets, p, p)
    ensures NewPeerTold(s, p)
  {
    hide Clocked, Membership, Reads, Producers, Fetches, FetchOrder, ProducerNews, Requests, Pcs;
    assert was.sockets <= was.peerNews.Keys;
  }

  /** join: the service's join, then the socket room, then newPeer to the others
      and the backfill to the joiner. */
  method Join(d: Deployment, p: PeerId) returns (r: Service.JoinResult)
    requires d.Valid() && At(d.Value(), p, Pc.GetRoom)
    modifies d, d.redis, d.sfu
    ensures d.Valid() && old(d.run) <= d.run
    ensures At(d.Value(), p, if r.Entered? then Joined else Service.PositionAfter(r))
    ensures r.Entered? ==> Holds(d, p, r.existingPeers, r.existingProducers)
    ensures r.Entered? ==> p in d.rest.producerNews && r.existingProducers <= d.rest.producerNews[p]
    ensures r.Entered? ==> NewPeerTold(d.Value(), p)
    ensures !r.Entered? ==> (p in d.redis.peers <==> r.Thrown? && r.ghostPeer)
  {
    r := Service.Join(d, p);
    hide After, d.Valid, d.Value, At, Service.Collected, NewPeerTold;
    if r.Entered? {
      EnterSocketRoom(d, p, r.existingPeers, r.existingProducers);
      Announce(d, p, r.existingPeers, r.existingProducers);
    }
  }

  /** client.join */
  method EnterSocketRoom(d: Deployment, p: PeerId, ghost existingPeers: set<PeerId>,
                         ghost existingProducers: set<ProducerId>)
    requires d.Valid() && At(d.Value(), p, JoinSocket) && Holds(d, p, existingPeers, existingProducers)
    modifies d, d.redis, d.sfu
    ensures d.Valid() && old(d.run) <= d.run && At(d.Value(), p, Pc.Announce)
    ensures Holds(d, p, existingPeers, existingProducers)
  {
    hide After, Step, Service.Collected;
    ghost var before := d.Value();
    d.Turn(p);
    HoldsStays(before, d, p, existingPeers, existingProducers);
    var was := d.Value();
    JoinSocketStep(was, p);
    d.Commit(was, Exec(p));
  }

  method Announce(d: Deployment, p: PeerId, ghost existingPeers: set<PeerId>, ghost existingProducers: set<ProducerId>)
    requires d.Valid() && At(d.Value(), p, Pc.Announce) && Holds(d, p, existingPeers, existingProducers)
    modifies d, d.redis, d.sfu
    ensures d.Valid() && old(d.run) <= d.run && At(d.Value(), p, Joined)
    ensures Holds(d, p, existingPeers, existingProducers)
    ensures p in d.rest.producerNews && existingProducers <= d.rest.producerNews[p]
    ensures NewPeerTold(d.Value(), p)
  {
    hide After, Step, Service.Collected, Inv, NewPeerTold, Tell;
    ghost var before := d.Value();
    d.Turn(p);
    HoldsStays(before, d, p, existingPeers, existingProducers);
    var was := d.Value();
    AnnounceStep(was, p);
    AfterKeeps(d.run);
    d.Commit(was, Exec(p));
    EmitReaches(was, d.Value(), p);
    BackfillReached(d, p, existingPeers, existingProducers);
  }

  lemma BackfillReached(d: Deployment, p: PeerId, existingPeers: set<PeerId>, existingProducers: set<ProducerId>)
    requires d.Valid() && At(d.Value(), p, Joined) && Holds(d, p, existingPeers, existingProducers)
    ensures p in d.rest.producerNews && existingProducers <= d.rest.producerNews[p]
  {
    hide After, Clocked, Membership, FetchOrder, PeerNews, Requests;
    AfterKeeps(d.run);
    var s := d.Value();
    assert PcOk(s.h, s.existingPeers, p, s.clients[p].pc);
    assert p in s.h.announced;
    assert p in s.producerNews.Keys;
    forall r | r in existingProducers ensures r in s.producerNews[p] {
      assert Backfilled(s.existingPeers, s.existingProducers, p, r);
    }
  }

  /** Whose handler is between its client.join and its disconnect. */
  ghost function InRoom(clients: map<PeerId, Client>): set<PeerId> {
    set q | q in clients && RoomEnds.InRoom(clients[q].pc)
  }

  /** handleDisconnect of a socket that has joined. Unless the leave threw, exactly
      those in the room when it has ended (the run up to `ended`) and the gateway has
      had its turn are told with peerClosed. */
  method HandleDisconnect(d: Deployment, p: PeerId)
    returns (r: Service.LeaveResult, told: set<PeerId>, ghost ended: nat)
    requires d.Valid() && At(d.Value(), p, Joined)
    modifies d, d.redis, d.sfu
    ensures d.Valid() && old(d.run) <= d.run && At(d.Value(), p, Left)
    ensures p in d.redis.peers <==> Service.Rooms.EndedEarly(d.Value(), p)
    ensures |old(d.run)| < ended <= |d.run| && Service.EndedAs(d.Value(), d.run[..ended], p, r)
    ensures r == Service.NoRecord ==> Service.StateAt(d.run, ended).room == None
    ensures r == Service.Occupied ==> Service.StateAt(d.run, ended).peers != {}
    ensures told == if r == Service.LeaveResult.Failed then {} else InRoom(d.rest.clients)
  {
    hide After, Step, Service.Rooms.EndedEarly, Service.EndedAs, At;
    var was := d.Value();
    DisconnectStep(was, p);
    d.Commit(was, Disconnect(p));
    r := Service.Leave(d, p);
    ghost var run, left := d.run, d.Value();
    ended := |run|;
    told := Farewell(d, p);
    if r == Service.LeaveResult.Failed {
      told := {};
    }
    assert d.run[..ended] == run;
    EndedSame(left, d.Value(), run, p, r);
  }

  lemma EndedSame(s: State, t: State, run: seq<Event>, p: PeerId, r: Service.LeaveResult)
    requires Service.EndedAs(s, run, p, r) && SameAt(s.cameFrom, t.cameFrom, p)
    ensures Service.EndedAs(t, run, p, r)
  {
    assert p in s.cameFrom.Keys;
    if r.Closed? {
      var n :| Came(s, p, SfuClose(n));
      assert Came(t, p, SfuClose(n));
    }
  }

  /** client.to(roomId).emit('peerClosed'), once the gateway gets its turn */
  method Farewell(d: Deployment, p: PeerId) returns (told: set<PeerId>)
    requires d.Valid() && At(d.Value(), p, Left)
    modifies d, d.redis, d.sfu
    ensures d.Valid() && old(d.run) <= d.run && At(d.Value(), p, Left)
    ensures SameAt(old(d.Value()).cameFrom, d.rest.cameFrom, p)
    ensures p in d.redis.peers <==> Service.Rooms.EndedEarly(d.Value(), p)
    ensures told == InRoom(d.rest.clients)
  {
    hide After;
    d.Turn(p);
    assert Leads(INIT, d.run, d.Value());
    RoomEnds.EndedLeaveLeavesGhost(d.Value(), p);
    told := d.rest.sockets - {p};
    forall q ensures q in told <==> q in InRoom(d.rest.clients) {
      RoomEnds.SocketsInRoom(d.Value(), q);
    }
  }

  /** produce: recorded first, then broadcast; a producer that was broadcast was recorded before. */
  method Produce(d: Deployment, r: ProducerId) returns (ok: bool)
    requires d.Valid() && r !in d.rest.requests && At(d.Value(), r.owner, Joined)
    modifies d, d.redis, d.sfu
    ensures d.Valid() && old(d.run) <= d.run
    ensures RequestAt(d.Value(), r, Producer, if ok then Answered else Refused)
    ensures ok ==> r in d.rest.h.recorded && r in d.rest.h.cast
  {
    hide After, d.Valid, d.Value, At, RequestAt, Service.ChecksPassed;
    Ask(d, r);
    ghost var checked, resolved, asked;
    ok, checked, resolved, asked := Service.Produce(d, r);
    if ok {
      ok := Broadcast(d, r);
    }
  }

  method Ask(d: Deployment, r: ProducerId)
    requires d.Valid() && r !in d.rest.requests && At(d.Value(), r.owner, Joined)
    modifies d, d.redis, d.sfu
    ensures d.Valid() && old(d.run) <= d.run && RequestAt(d.Value(), r, Producer, CheckPeer)
  {
    hide After, Step;
    var was := d.Value();
    AskStep(was, r, Producer);
    d.Commit(was, Event.Ask(r, Producer));
  }

  /** addProducer's EXPIRE can still reject the request before it is broadcast. */
  method Broadcast(d: Deployment, r: ProducerId) returns (ok: bool)
    requires d.Valid() && RequestAt(d.Value(), r, Producer, RequestPc.Broadcast)
    modifies d, d.redis, d.sfu
    ensures d.Valid() && old(d.run) <= d.run
    ensures RequestAt(d.Value(), r, Producer, if ok then Answered else Refused)
    ensures ok ==> r in d.rest.h.recorded && r in d.rest.h.cast
  {
    hide After, Step, Inv;
    ok := d.AwaitFor(r, Producer, RequestPc.Broadcast);
    if ok {
      var was := d.Value();
      BroadcastStep(was, r, Producer);
      d.Commit(was, Serve(r));
      assert Leads(INIT, d.run, d.Value());
      CastWasRecorded(d.Value(), r);
    }
  }

  lemma CastWasRecorded(s: State, r: ProducerId)
    requires Reachable(s) && r in s.h.cast
    ensures r in s.h.recorded
  {
    ReachableKeeps(s);
    hide After, Clocked, Membership, RoomInvariants.Reads, Producers, Fetches, FetchOrder, ProducerNews, PeerNews, Pcs;
    assert r in s.h.cast.Keys;
    assert r in s.h.recorded.Keys;
  }
}
