/** What the room protocol promises in every run: any number of sockets on any
    number of instances, any interleaving of their commands, any failures. */
module RoomTheorems {
  import opened Wrappers
  import opened RoomProtocol
  import opened RoomInvariants

  /** Issue #24: the peers hash is at all times exactly the peers whose own HSET
      has run and whose own HDEL has not; no close ever takes anyone else out. */
  lemma PeerConservation(s: State, p: PeerId)
    requires Reachable(s)
    ensures p in s.peers <==> p in s.h.added && p !in s.h.removed
  {
    ReachableKeeps(s);
    assert p in s.h.added.Keys <==> p in s.h.added;
  }

  /** A handler that has not reached its HSET, or is behind its HDEL, is not in the
      peers hash; one in between is, whatever the others do meanwhile. */
  ghost predicate Placed(pc: Pc, member: bool) {
    && (Outside(pc) || AfterRemoval(pc) ==> !member)
    && (!Outside(pc) && BeforeRemoval(pc) ==> member)
  }

  lemma HandlerMembership(s: State, p: PeerId)
    requires Reachable(s) && p in s.clients
    ensures Placed(s.clients[p].pc, p in s.peers)
  {
    hide After, Clocked, Reads, Producers, Fetches, FetchOrder, ProducerNews, PeerNews, Requests;
    ReachableKeeps(s);
    assert PcOk(s.h, s.existingPeers, p, s.clients[p].pc);
    assert p in s.h.added.Keys - s.h.removed.Keys <==> p in s.h.added && p !in s.h.removed;
  }

  /** `existingPeers` is precisely the other peers that were members at the
      moment of the read, also for peers that have left since. */
  lemma ReadSawMembers(s: State, j: PeerId, o: PeerId)
    requires Reachable(s) && j in s.h.read
    ensures j in s.existingPeers
    ensures o in s.existingPeers[j] <==> o != j && MemberAt(s.h.added, s.h.removed, o, s.h.read[j])
  {
    hide After;
    ReachableKeeps(s);
  }

  /** Of two joiners that both read the peers hash while both were members, at
      least one was told of the other in `existingPeers`, whatever closes and
      leaves ran before, between and after the reads. */
  lemma MutualVisibility(s: State, p: PeerId, q: PeerId)
    requires Reachable(s) && p != q && p in s.h.read && q in s.h.read && ReadBeforeLeaving(s.h, p, q)
    ensures p in s.existingPeers && q in s.existingPeers
    ensures q in s.existingPeers[p] || p in s.existingPeers[q]
  {
    hide After;
    ReachableKeeps(s);
    ReadersWereAdded(s, p);
    ReadersWereAdded(s, q);
    ReadFact(s, p, q);
    ReadFact(s, q, p);
  }

  lemma ReadersWereAdded(s: State, j: PeerId)
    requires Inv(s) && j in s.h.read
    ensures j in s.h.added
  {
    hide Clocked, Producers, Fetches, FetchOrder, ProducerNews, PeerNews, Requests, Pcs, Membership;
  }

  ghost predicate ReadBeforeLeaving(h: History, p: PeerId, q: PeerId)
    requires p in h.read && q in h.read
  {
    && (p in h.removed ==> h.read[p] < h.removed[p] && h.read[q] < h.removed[p])
    && (q in h.removed ==> h.read[p] < h.removed[q] && h.read[q] < h.removed[q])
  }

  lemma MemberFact(s: State, o: PeerId)
    requires Inv(s) && o in s.peers
    ensures o in s.h.added && o !in s.h.removed
  {
    hide Clocked, RoomInvariants.Reads, Producers, Fetches, FetchOrder, ProducerNews, PeerNews, Requests, Pcs;
    assert o in s.h.added.Keys - s.h.removed.Keys;
  }

  lemma ReadFact(s: State, j: PeerId, o: PeerId)
    requires Inv(s) && j in s.h.read && o in s.h.added && o != j
    requires o in s.h.removed ==> s.h.read[j] < s.h.removed[o]
    ensures j in s.existingPeers && j in s.h.added && s.h.added[j] < s.h.read[j]
    ensures o in s.existingPeers[j] <==> s.h.added[o] < s.h.read[j]
  {
    hide Clocked, Producers, Fetches, FetchOrder, ProducerNews, PeerNews, Requests, Pcs, Membership;
  }

  ghost predicate Knows(s: State, p: PeerId, q: PeerId)
    requires p in s.existingPeers && p in s.peerNews
  {
    q in s.existingPeers[p] || q in s.peerNews[p]
  }

  /** Two members in the socket room: one of them has not heard of the other
      exactly when the other was added after the first one's read and announced
      before the first one's socket entered. */
  lemma PeerMissWindow(s: State, p: PeerId, q: PeerId)
    requires Reachable(s) && p != q && p in s.peers && q in s.peers && p in s.sockets && q in s.h.announced
    ensures p in s.existingPeers && p in s.peerNews && p in s.h.read && q in s.h.added && p in s.h.socket
    ensures !Knows(s, p, q) <==> s.h.read[p] <= s.h.added[q] && s.h.announced[q] <= s.h.socket[p]
  {
    hide After;
    ReachableKeeps(s);
    InRoomMeansRead(s, p);
    ReadFact(s, p, q);
    PeerNewsFact(s, p, q);
  }

  lemma InRoomMeansRead(s: State, p: PeerId)
    requires Inv(s) && p in s.h.socket
    ensures p in s.existingPeers && p in s.h.read && p in s.peerNews && p in s.producerNews
    ensures forall o | o in s.existingPeers[p] :: Look(p, o) in s.existingProducers
  {
    hide Clocked, Membership, Producers, Requests, Reads;
    PcFact(s, p);
  }

  lemma PeerNewsFact(s: State, p: PeerId, q: PeerId)
    requires Inv(s) && p in s.sockets && q in s.h.announced && q != p
    ensures p in s.peerNews && p in s.h.socket
    ensures q in s.peerNews[p] <==> s.h.socket[p] < s.h.announced[q]
  {
    hide Clocked, Membership, Reads, Producers, Fetches, ProducerNews, Requests, Pcs;
  }

  /** When the joiner looked for producers of `o`: at its read of that peer's
      hash, or if it did not see the peer, at its read of the peers hash. */
  ghost function LookedAt(s: State, j: PeerId, o: PeerId): int
    requires j in s.existingPeers && j in s.h.read
    requires o in s.existingPeers[j] ==> Look(j, o) in s.h.fetched
  {
    if o in s.existingPeers[j] then s.h.fetched[Look(j, o)] else s.h.read[j]
  }

  /** A joiner still in the room, and a broadcast producer whose owner is still
      a member: the joiner missed it exactly when the producer was recorded
      after the joiner looked and broadcast before its socket entered. */
  lemma ProducerMissWindow(s: State, j: PeerId, r: ProducerId)
    requires Reachable(s) && j in s.sockets && j in s.h.announced && r in s.h.cast && r.owner in s.peers && r.owner != j
    ensures && j in s.producerNews && j in s.existingPeers && j in s.h.read && j in s.h.socket && r in s.h.recorded
            && (r.owner in s.existingPeers[j] ==> Look(j, r.owner) in s.h.fetched)
    ensures r !in s.producerNews[j] <==>
            LookedAt(s, j, r.owner) <= s.h.recorded[r] && s.h.cast[r] <= s.h.socket[j]
  {
    hide After;
    ReachableKeeps(s);
    InRoomMeansRead(s, j);
    NewsFact(s, j, r);
    BackfillFact(s, j, r);
  }

  lemma NewsFact(s: State, j: PeerId, r: ProducerId)
    requires Inv(s) && j in s.sockets && j in s.h.announced && r in s.h.cast && r.owner != j
    ensures j in s.producerNews && j in s.h.socket && r in s.h.recorded && r in s.requests
    ensures r in s.producerNews[j] <==>
            s.h.socket[j] < s.h.cast[r] || Backfilled(s.existingPeers, s.existingProducers, j, r)
  {
    hide Clocked, Membership, Reads, Producers, Fetches, PeerNews, Pcs, Backfilled;
    assert Heard(s.h.socket, s.h.cast, j, r) <==> s.h.socket[j] < s.h.cast[r];
  }

  lemma BackfillFact(s: State, j: PeerId, r: ProducerId)
    requires Inv(s) && r in s.h.recorded && r.owner in s.peers && r.owner != j && j in s.existingPeers
    requires forall o | o in s.existingPeers[j] :: Look(j, o) in s.existingProducers
    ensures j in s.h.read && (r.owner in s.existingPeers[j] ==> Look(j, r.owner) in s.h.fetched)
    ensures Backfilled(s.existingPeers, s.existingProducers, j, r) <==> s.h.recorded[r] < LookedAt(s, j, r.owner)
  {
    hide Clocked, Membership, PeerNews, ProducerNews, Pcs, Requests, Reads;
    MembershipFact(s);
    ReadKeys(s);
    if r.owner !in s.existingPeers[j] {
      MemberFact(s, r.owner);
      ReadFact(s, j, r.owner);
    }
  }

  lemma ReadKeys(s: State)
    requires Inv(s)
    ensures s.h.read.Keys == s.existingPeers.Keys
  {
  }

  /** A missed producer was recorded after the joiner's read of the peers hash. */
  lemma MissedProducerIsLate(s: State, j: PeerId, r: ProducerId)
    requires Reachable(s) && j in s.sockets && j in s.h.announced && r in s.h.cast && r.owner in s.peers && r.owner != j
    requires j in s.producerNews && r !in s.producerNews[j]
    ensures j in s.h.read && r in s.h.recorded && j in s.h.socket &&
            s.h.read[j] <= s.h.recorded[r] && s.h.cast[r] <= s.h.socket[j]
  {
    hide After;
    ProducerMissWindow(s, j, r);
    ReachableKeeps(s);
    LateFact(s, j, r);
  }

  lemma LateFact(s: State, j: PeerId, r: ProducerId)
    requires Inv(s) && r in s.h.recorded && r.owner in s.peers && r.owner != j && j in s.h.read
    ensures j in s.existingPeers && r.owner in s.h.added
    ensures r.owner !in s.existingPeers[j] ==> s.h.read[j] <= s.h.recorded[r]
    ensures Look(j, r.owner) in s.h.fetched ==> s.h.read[j] < s.h.fetched[Look(j, r.owner)]
  {
    hide Clocked, PeerNews, ProducerNews, Pcs, Requests, Fetches, Reads, Membership;
    MemberFact(s, r.owner);
    ReadFact(s, j, r.owner);
  }

  /** A producer a joiner knows of without having been in the room for its
      broadcast was handed over from a peer that was a member at the read. */
  lemma BackfillCameFromMembers(s: State, j: PeerId, r: ProducerId)
    requires Reachable(s) && j in s.producerNews && r in s.producerNews[j] && !Heard(s.h.socket, s.h.cast, j, r)
    ensures && j in s.h.read && MemberAt(s.h.added, s.h.removed, r.owner, s.h.read[j])
            && Look(j, r.owner) in s.h.fetched && r in s.h.recorded
            && s.h.recorded[r] < s.h.fetched[Look(j, r.owner)]
  {
    hide After;
    ReachableKeeps(s);
    BackfillOrigin(s, j, r);
  }

  lemma BackfillOrigin(s: State, j: PeerId, r: ProducerId)
    requires Inv(s) && j in s.producerNews && r in s.producerNews[j] && !Heard(s.h.socket, s.h.cast, j, r)
    ensures j in s.h.read && MemberAt(s.h.added, s.h.removed, r.owner, s.h.read[j])
    ensures Look(j, r.owner) in s.h.fetched && r in s.h.recorded && s.h.recorded[r] < s.h.fetched[Look(j, r.owner)]
  {
    hide Clocked, PeerNews, Pcs, Requests, Membership, Heard, Producers;
    assert Backfilled(s.existingPeers, s.existingProducers, j, r);
  }
}
