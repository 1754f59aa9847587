/** The mutable pieces the realtime handlers run against: Redis, the sfu nodes,
    and everything else of the room protocol, together with the event loop that
    lets others run at every await. */
module Deployment {
  import opened Wrappers
  import opened RoomProtocol
  import opened RoomInvariants
  import opened RoomFrames
  import opened RoomSteps
  import RoomTheorems

  /** The keys of one room id, and the commands the services issue on them. */
  class Redis {
    var room: Option<Node>                       // room:<id>
    var peers: set<PeerId>                       // room:<id>:peers
    var producers: map<PeerId, set<ProducerId>>  // peer:<id>:<peer>:producers

    method Get() returns (r: Option<Node>)
      ensures r == room
    {
      return room;
    }

    method Set(node: Node)
      modifies `room
      ensures room == Some(node)
    {
      room := Some(node);
    }

    method HSetPeer(p: PeerId)
      modifies `peers
      ensures peers == old(peers) + {p}
    {
      peers := peers + {p};
    }

    method HDelPeer(p: PeerId)
      modifies `peers
      ensures peers == old(peers) - {p}
    {
      peers := peers - {p};
    }

    method HExistsPeer(p: PeerId) returns (found: bool)
      ensures found <==> p in peers
    {
      return p in peers;
    }

    /** HGETALL and HKEYS */
    method AllPeers() returns (all: set<PeerId>)
      ensures all == peers
    {
      return peers;
    }

    method HLenPeers() returns (n: nat)
      ensures n == |peers|
    {
      return |peers|;
    }

    method HSetProducer(r: ProducerId)
      modifies `producers
      ensures var hash := if r.owner in old(producers) then old(producers)[r.owner] else {};
              producers == old(producers)[r.owner := hash + {r}]
    {
      var hash := if r.owner in producers then producers[r.owner] else {};
      producers := producers[r.owner := hash + {r}];
    }

    method AllProducers(owner: PeerId) returns (all: set<ProducerId>)
      ensures all == if owner in producers then producers[owner] else {}
    {
      return if owner in producers then producers[owner] else {};
    }

    method DelProducers(owner: PeerId)
      modifies `producers
      ensures producers == old(producers) - {owner}
    {
      producers := producers - {owner};
    }

    /** The Lua script: it runs as one command. */
    method CloseRoomIfEmpty() returns (closed: int)
      modifies `peers, `room
      ensures closed == if old(peers) == {} then 1 else 0
      ensures peers == old(peers) && room == if old(peers) == {} then None else old(room)
    {
      if |peers| > 0 {
        return 0;
      }
      peers := {};
      room := None;
      return 1;
    }
  }

  /** The MediaRooms of the room id, node by node. */
  class SfuNodes {
    var mediaRooms: map<Node, set<PeerId>>

    method CreateOrGetMediaRoom(n: Node)
      modifies this
      ensures mediaRooms == if n in old(mediaRooms) then old(mediaRooms) else old(mediaRooms)[n := {}]
    {
      if n !in mediaRooms {
        mediaRooms := mediaRooms[n := {}];
      }
    }

    method RemovePeer(n: Node, p: PeerId)
      modifies this
      ensures mediaRooms == if n in old(mediaRooms) then old(mediaRooms)[n := old(mediaRooms)[n] - {p}]
                            else old(mediaRooms)
    {
      if n !in mediaRooms {
        return;
      }
      mediaRooms := mediaRooms[n := mediaRooms[n] - {p}];
    }

    method CloseRoom(n: Node) returns (closed: bool)
      modifies this
      ensures mediaRooms == if n in old(mediaRooms) && old(mediaRooms)[n] == {} then old(mediaRooms) - {n}
                            else old(mediaRooms)
      ensures closed <==> n !in mediaRooms
    {
      if n !in mediaRooms {
        return true;
      }
      if mediaRooms[n] != {} {
        return false;
      }
      mediaRooms := mediaRooms - {n};
      return true;
    }
  }

  ghost predicate LastWas(run: seq<Event>, e: Event) {
    |run| > 0 && run[|run| - 1] == e
  }

  /** One deployment serving one room id. `rest` is everything but the Redis keys
      and the MediaRooms: the handlers' own variables, the socket rooms, and the
      record of when things happened. */
  class Deployment {
    const redis: Redis
    const sfu: SfuNodes
    var rest: State
    ghost var run: seq<Event>

    function Value(): State
      reads this, redis, sfu
    {
      rest.(room := redis.room, peers := redis.peers, producers := redis.producers, mediaRooms := sfu.mediaRooms)
    }

    /** The fields are what the protocol makes of everything that happened. */
    ghost predicate Valid()
      reads this, redis, sfu
    {
      Value() == After(INIT, run)
    }

    constructor ()
      ensures Valid() && run == []
    {
      var keys := new Redis;
      var nodes := new SfuNodes;
      keys.room, keys.peers, keys.producers := None, {}, map[];
      nodes.mediaRooms := map[];
      redis, sfu, rest, run := keys, nodes, INIT, [];
    }

    /** Before a command of handler `p` takes effect, whatever others do. */
    method Turn(p: PeerId)
      requires Valid()
      modifies this, redis, sfu
      ensures Valid() && old(run) <= run && SameOwn(old(Value()), Value(), p)
    {
      hide After, NoneBy, SameOwn;
      var others: seq<Event> := *;
      if NoneBy(others, p) {
        AfterConcat(INIT, run, others);
        OthersKeepOwn(Value(), others, p);
        Become(After(Value(), others));
        run := run + others;
      } else {
        Unchanged(Value(), p);
      }
    }

    /** A command handler `p` waits for: others run, then it either reaches its
        server (true) or is rejected. Either way the handler's place in the
        peers hash is what its position says. */
    method Await(p: PeerId, pc: Pc) returns (ok: bool)
      requires Valid() && At(Value(), p, pc)
      modifies this, redis, sfu
      ensures Valid() && old(run) <= run
      ensures At(Value(), p, if ok then pc else AfterFailure(pc))
      ensures !ok ==> LastWas(run, Fail(p)) && (AfterFailure(pc) != pc ==> Came(Value(), p, pc))
      ensures ok ==> SameOwn(old(Value()), Value(), p)
      ensures RoomTheorems.Placed(pc, p in redis.peers)
    {
      hide After, AfterFailure, Step, RoomTheorems.Placed;
      Turn(p);
      assert Leads(INIT, run, Value());
      RoomTheorems.HandlerMembership(Value(), p);
      ok := *;
      if !ok {
        FailStep(Value(), p, pc);
        Commit(Value(), Fail(p));
      }
    }

    /** The same for a request: whatever others do, also its own socket. */
    method TurnFor(r: ProducerId)
      requires Valid()
      modifies this, redis, sfu
      ensures Valid() && old(run) <= run && SameAt(old(rest.requests), rest.requests, r)
    {
      hide After, NoneByRequest, SameAt;
      var others: seq<Event> := *;
      if NoneByRequest(others, r) {
        AfterConcat(INIT, run, others);
        OthersKeepRequest(Value(), others, r);
        Become(After(Value(), others));
        run := run + others;
      } else {
        RequestUnchanged(rest.requests, r);
      }
    }

    method AwaitFor(r: ProducerId, kind: Kind, pc: RequestPc) returns (ok: bool)
      requires Valid() && RequestAt(Value(), r, kind, pc) && !pc.Answered?
      modifies this, redis, sfu
      ensures Valid() && old(run) <= run && RequestAt(Value(), r, kind, if ok then pc else Refused)
      ensures !pc.Broadcast? && !pc.Refused? ==> r !in rest.h.recorded
    {
      hide After, Step;
      TurnFor(r);
      assert Leads(INIT, run, Value());
      NotRecordedYet(Value(), r, kind, pc);
      ok := *;
      if !ok {
        FailRequestStep(Value(), r, kind, pc);
        Commit(Value(), FailRequest(r));
      }
    }

    method Become(s: State)
      modifies `rest, redis, sfu
      ensures Value() == s
    {
      rest := s;
      redis.room, redis.peers, redis.producers := s.room, s.peers, s.producers;
      sfu.mediaRooms := s.mediaRooms;
    }

    /** The command has had its effect on the shared keys; the handler moves on. */
    method Commit(was: State, e: Event)
      requires was == After(INIT, run)
      requires var now := Step(was, e);
               && redis.room == now.room && redis.peers == now.peers && redis.producers == now.producers
               && sfu.mediaRooms == now.mediaRooms
      modifies `rest, `run
      ensures Valid() && run == old(run) + [e] && Value() == Step(was, e)
    {
      hide After, Step;
      AfterSnoc(INIT, run, e);
      rest := Step(was, e);
      run := run + [e];
    }
  }

  /** Up to its HSET a request has recorded nothing. */
  lemma NotRecordedYet(s: State, r: ProducerId, kind: Kind, pc: RequestPc)
    requires Reachable(s) && RequestAt(s, r, kind, pc)
    ensures pc.CheckPeer? || pc.ResolveNode? || pc.CallSfu? || pc.Record? ==> r !in s.h.recorded
  {
    hide After, Clocked, Membership, RoomInvariants.Reads, Producers, Fetches, FetchOrder, ProducerNews, PeerNews, Pcs;
    ReachableKeeps(s);
  }

  lemma RequestUnchanged(requests: map<ProducerId, Request>, r: ProducerId)
    ensures SameAt(requests, requests, r)
  {
  }
}
