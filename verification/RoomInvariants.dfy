/** What every event of the room protocol keeps. Each fact speaks of the few
    maps it needs, so an event that leaves those alone keeps it for free. */
module RoomInvariants {
  import opened Wrappers
  import opened RoomProtocol

  type Times = map<PeerId, int>

  // ----- What the shared state says about the past -----

  ghost predicate Earlier<K>(m: map<K, int>, clock: int) {
    forall k | k in m :: m[k] < clock
  }

  ghost predicate Clocked(h: History) {
    && Earlier(h.added, h.clock) && Earlier(h.removed, h.clock) && Earlier(h.read, h.clock)
    && Earlier(h.fetched, h.clock)
    && Earlier(h.socket, h.clock) && Earlier(h.announced, h.clock)
    && Earlier(h.recorded, h.clock) && Earlier(h.cast, h.clock)
  }

  /** The peers hash is the peers added and not removed. */
  ghost predicate Membership(peers: set<PeerId>, added: Times, removed: Times) {
    peers == added.Keys - removed.Keys && removed.Keys <= added.Keys
  }

  ghost predicate MemberAt(added: Times, removed: Times, o: PeerId, t: int) {
    o in added && added[o] < t && (o in removed ==> t < removed[o])
  }

  /** A read of the peers hash saw exactly the members of that moment. */
  ghost predicate Reads(added: Times, removed: Times, read: Times, existing: map<PeerId, set<PeerId>>) {
    && read.Keys == existing.Keys
    && (forall j | j in read :: j in added && added[j] < read[j])
    && forall j, o | j in read :: o in existing[j] <==> o != j && MemberAt(added, removed, o, read[j])
  }

  /** A member's producers hash is the producers recorded for it. */
  ghost predicate Producers(peers: set<PeerId>, added: Times, producers: map<PeerId, set<ProducerId>>,
                            recorded: map<ProducerId, int>)
  {
    && (forall r | r in recorded :: r.owner in added && added[r.owner] < recorded[r])
    && (forall o, r | o in producers && r in producers[o] :: r in recorded && r.owner == o)
    && forall r | r in recorded && r.owner in peers :: r.owner in producers && r in producers[r.owner]
  }

  /** A read of a member's producers hash saw exactly the producers recorded by then. */
  ghost predicate Fetches(peers: set<PeerId>, recorded: map<ProducerId, int>, fetched: map<Look, int>,
                          got: map<Look, set<ProducerId>>)
  {
    && fetched.Keys == got.Keys
    && (forall f, r | f in got && r in got[f] :: r in recorded && r.owner == f.owner && recorded[r] < fetched[f])
    && forall f, r | f in got && r in recorded && r.owner == f.owner && f.owner in peers && recorded[r] < fetched[f] ::
         r in got[f]
  }

  /** Producers are fetched after the peers hash is read. */
  ghost predicate FetchOrder(read: Times, fetched: map<Look, int>) {
    forall f | f in fetched :: f.reader in read && read[f.reader] < fetched[f]
  }

  ghost predicate Backfilled(existing: map<PeerId, set<PeerId>>, got: map<Look, set<ProducerId>>,
                             j: PeerId, r: ProducerId)
  {
    j in existing && r.owner in existing[j] && Look(j, r.owner) in got && r in got[Look(j, r.owner)]
  }

  ghost predicate Heard(socket: Times, cast: map<ProducerId, int>, j: PeerId, r: ProducerId) {
    j in socket && r in cast && socket[j] < cast[r]
  }

  /** What a socket was told of producers: its backfill and the later broadcasts. */
  ghost predicate ProducerNews(existing: map<PeerId, set<PeerId>>, got: map<Look, set<ProducerId>>,
                               sockets: set<PeerId>, socket: Times, announced: Times,
                               cast: map<ProducerId, int>, news: map<PeerId, set<ProducerId>>)
  {
    && socket.Keys == news.Keys && sockets <= socket.Keys && announced.Keys <= socket.Keys
    && (forall j, r | j in news && r in news[j] ::
          Heard(socket, cast, j, r) || (j in announced && Backfilled(existing, got, j, r)))
    && (forall j, r | j in sockets && Heard(socket, cast, j, r) && r.owner != j :: r in news[j])
    && forall j, r | j in announced && Backfilled(existing, got, j, r) :: r in news[j]
  }

  /** What a socket was told of peers: the announcements made once it was in. */
  ghost predicate PeerNews(sockets: set<PeerId>, socket: Times, announced: Times, news: map<PeerId, set<PeerId>>) {
    && socket.Keys == news.Keys && sockets <= socket.Keys
    && (forall j, q | j in news && q in news[j] :: q in announced && socket[j] < announced[q])
    && forall j, q | j in sockets && q in announced && q != j && socket[j] < announced[q] :: q in news[j]
  }

  // ----- What a handler's position says about the past -----

  predicate Outside(pc: Pc) {
    pc.GetRoom? || pc.RefreshRoom? || pc.MissedRoom? || pc.AwaitRoom? || pc.AddPeer?
  }

  predicate BeforeRead(pc: Pc) {
    Outside(pc) || pc.ExpirePeers? || pc.ReadPeers?
  }

  predicate BeforeSocket(pc: Pc) {
    BeforeRead(pc) || pc.FetchProducers? || pc.UndoPeer? || pc.UndoProducers? || pc.Rejected? || pc.JoinSocket?
  }

  predicate BeforeRemoval(pc: Pc) {
    BeforeRead(pc) || pc.FetchProducers? || pc.UndoPeer? || pc.JoinSocket? || pc.Announce? || pc.Joined?
    || pc.LeaveGet? || pc.LeavePeer?
  }

  predicate AfterRemoval(pc: Pc) {
    pc.UndoProducers? || pc.LeaveProducers? || pc.LeaveSfu? || Closing(pc)
  }

  ghost predicate FetchedAll(h: History, p: PeerId, done: set<PeerId>) {
    forall o | o in done :: Look(p, o) in h.fetched
  }

  ghost predicate PcOk(h: History, existing: map<PeerId, set<PeerId>>, p: PeerId, pc: Pc) {
    && (Outside(pc) ==> p !in h.added)
    && (!Outside(pc) && !pc.Rejected? ==> p in h.added)
    && (BeforeRead(pc) ==> p !in h.read)
    && (BeforeSocket(pc) ==> p !in h.socket)
    && (pc.FetchProducers? ==> p in existing && existing[p] == pc.others && FetchedAll(h, p, pc.done))
    && (!BeforeSocket(pc) || pc.JoinSocket? ==> p in existing && FetchedAll(h, p, existing[p]))
    && (!BeforeSocket(pc) ==> p in h.socket)
    && (BeforeSocket(pc) || pc.Announce? ==> p !in h.announced)
    && (!BeforeSocket(pc) && !pc.Announce? ==> p in h.announced)
    && (BeforeRemoval(pc) ==> p !in h.removed)
    && (AfterRemoval(pc) ==> p in h.removed)
    && (pc.LeaveScript? ==> pc.keys <= h.added.Keys)
    && (pc.LeaveClean? ==> pc.keys <= h.removed.Keys)
  }

  ghost predicate Pcs(clients: map<PeerId, Client>, h: History, existing: map<PeerId, set<PeerId>>) {
    && h.read.Keys == existing.Keys
    && h.added.Keys <= clients.Keys && h.read.Keys <= clients.Keys && h.socket.Keys <= clients.Keys
    && h.announced.Keys <= clients.Keys && h.removed.Keys <= clients.Keys
    && forall p | p in clients :: PcOk(h, existing, p, clients[p].pc)
  }

  ghost predicate Requests(requests: map<ProducerId, Request>, added: Times,
                           recorded: map<ProducerId, int>, cast: map<ProducerId, int>)
  {
    && recorded.Keys <= requests.Keys && cast.Keys <= recorded.Keys
    && (forall r | r in requests && !requests[r].pc.CheckPeer? && !requests[r].pc.Refused? :: r.owner in added)
    && (forall r | r in requests && requests[r].pc.Broadcast? :: r in recorded && r !in cast)
    && forall r | r in requests && (requests[r].pc.CheckPeer? || requests[r].pc.ResolveNode?
                                    || requests[r].pc.CallSfu? || requests[r].pc.Record?) ::
         r !in recorded
  }

  /** What is still to be deleted are hashes of peers already removed. */
  ghost predicate Strays(stray: map<PeerId, set<PeerId>>, removed: Times) {
    forall p | p in stray :: stray[p] <= removed.Keys
  }

  ghost predicate Inv(s: State) {
    && Clocked(s.h)
    && Membership(s.peers, s.h.added, s.h.removed)
    && Reads(s.h.added, s.h.removed, s.h.read, s.existingPeers)
    && Producers(s.peers, s.h.added, s.producers, s.h.recorded)
    && Fetches(s.peers, s.h.recorded, s.h.fetched, s.existingProducers)
    && FetchOrder(s.h.read, s.h.fetched)
    && ProducerNews(s.existingPeers, s.existingProducers, s.sockets, s.h.socket, s.h.announced, s.h.cast,
                    s.producerNews)
    && PeerNews(s.sockets, s.h.socket, s.h.announced, s.peerNews)
    && Requests(s.requests, s.h.added, s.h.recorded, s.h.cast)
    && Pcs(s.clients, s.h, s.existingPeers)
    && Strays(s.stray, s.h.removed)
  }

  lemma InitInv()
    ensures Inv(INIT)
  {
  }

  // ----- Moving one handler -----

  /** The same was and is recorded about `q`, apart from new removals and fetches. */
  ghost predicate Kept(h: History, existing: map<PeerId, set<PeerId>>,
                       h': History, existing': map<PeerId, set<PeerId>>, q: PeerId)
  {
    && (q in h.added <==> q in h'.added)
    && (q in h.removed <==> q in h'.removed)
    && (q in h.read <==> q in h'.read)
    && (q in h.socket <==> q in h'.socket)
    && (q in h.announced <==> q in h'.announced)
    && (q in existing <==> q in existing') && (q in existing ==> existing[q] == existing'[q])
  }

  ghost predicate OthersKept(h: History, existing: map<PeerId, set<PeerId>>,
                             h': History, existing': map<PeerId, set<PeerId>>, p: PeerId)
  {
    && h.removed.Keys <= h'.removed.Keys && h.fetched.Keys <= h'.fetched.Keys && h.added.Keys <= h'.added.Keys
    && h'.read.Keys == existing'.Keys
    && forall q | q != p :: Kept(h, existing, h', existing', q)
  }

  lemma PcsMove(clients: map<PeerId, Client>, h: History, existing: map<PeerId, set<PeerId>>,
                h': History, existing': map<PeerId, set<PeerId>>, p: PeerId, c: Client)
    requires Pcs(clients, h, existing) && OthersKept(h, existing, h', existing', p)
    requires PcOk(h', existing', p, c.pc)
    ensures Pcs(clients[p := c], h', existing')
  {
    forall q | q in clients && q != p ensures PcOk(h', existing', q, clients[q].pc) {
      assert Kept(h, existing, h', existing', q);
      PcOkKept(h, existing, h', existing', q, clients[q].pc);
    }
    forall q | q != p
      ensures q in h'.added || q in h'.removed || q in h'.read || q in h'.socket || q in h'.announced ==> q in clients
    {
      assert Kept(h, existing, h', existing', q);
    }
  }

  lemma PcOkKept(h: History, existing: map<PeerId, set<PeerId>>,
                 h': History, existing': map<PeerId, set<PeerId>>, q: PeerId, pc: Pc)
    requires Kept(h, existing, h', existing', q) && PcOk(h, existing, q, pc)
    requires h.removed.Keys <= h'.removed.Keys && h.fetched.Keys <= h'.fetched.Keys && h.added.Keys <= h'.added.Keys
    ensures PcOk(h', existing', q, pc)
  {
  }

  lemma GotoKeeps(s: State, p: PeerId, pc: Pc)
    requires Inv(s) && p in s.clients && PcOk(s.h, s.existingPeers, p, pc)
    ensures Inv(Goto(s, p, s.clients[p], pc))
  {
    PcsMove(s.clients, s.h, s.existingPeers, s.h, s.existingPeers, p, s.clients[p].(pc := pc));
  }

  lemma AddToPeersKeeps(s: State, p: PeerId)
    requires Inv(s) && p in s.clients && s.clients[p].pc.AddPeer?
    ensures Inv(Goto(AddToPeers(s, p), p, s.clients[p], ExpirePeers))
  {
    hide Membership, Reads, Producers, Fetches, FetchOrder, ProducerNews, PeerNews, Requests, Pcs, Strays;
    AddStamps(s.h, p);
    AddPcs(s.clients, s.h, s.existingPeers, p);
    AddMembership(s.peers, s.h.added, s.h.removed, p, s.h.clock);
    AddReads(s.h.added, s.h.removed, s.h.read, s.existingPeers, p, s.h.clock);
    AddProducers(s.peers, s.h.added, s.producers, s.h.recorded, p, s.h.clock);
    AddFetches(s.peers, s.h.added, s.producers, s.h.recorded, s.h.fetched, s.existingProducers, p);
    AddRequests(s.requests, s.h.added, s.h.recorded, s.h.cast, p, s.h.clock);
  }

  function Added(h: History, p: PeerId): History {
    h.(added := h.added[p := h.clock], clock := h.clock + 1)
  }

  lemma AddStamps(h: History, p: PeerId)
    requires Clocked(h)
    ensures Clocked(Added(h, p))
  {
  }

  lemma AddPcs(clients: map<PeerId, Client>, h: History, existing: map<PeerId, set<PeerId>>, p: PeerId)
    requires Pcs(clients, h, existing) && p in clients && clients[p].pc.AddPeer?
    ensures p !in h.added && p !in h.read && p !in h.removed
    ensures Pcs(clients[p := clients[p].(pc := ExpirePeers)], Added(h, p), existing)
  {
    assert PcOk(h, existing, p, AddPeer);
    PcsMove(clients, h, existing, Added(h, p), existing, p, clients[p].(pc := ExpirePeers));
  }

  lemma AddMembership(peers: set<PeerId>, added: Times, removed: Times, p: PeerId, now: int)
    requires Membership(peers, added, removed) && p !in added
    ensures Membership(peers + {p}, added[p := now], removed)
  {
  }

  lemma AddRequests(requests: map<ProducerId, Request>, added: Times, recorded: map<ProducerId, int>,
                    cast: map<ProducerId, int>, p: PeerId, now: int)
    requires Requests(requests, added, recorded, cast)
    ensures Requests(requests, added[p := now], recorded, cast)
  {
  }

  lemma AddReads(added: Times, removed: Times, read: Times, existing: map<PeerId, set<PeerId>>, p: PeerId, now: int)
    requires Reads(added, removed, read, existing) && p !in added && p !in read && Earlier(read, now)
    ensures Reads(added[p := now], removed, read, existing)
  {
    forall j, o | j in read
      ensures MemberAt(added[p := now], removed, o, read[j]) == MemberAt(added, removed, o, read[j])
    {
    }
  }

  lemma AddProducers(peers: set<PeerId>, added: Times, producers: map<PeerId, set<ProducerId>>,
                     recorded: map<ProducerId, int>, p: PeerId, now: int)
    requires Producers(peers, added, producers, recorded) && p !in added
    ensures Producers(peers + {p}, added[p := now], producers, recorded)
  {
  }

  lemma AddFetches(peers: set<PeerId>, added: Times, producers: map<PeerId, set<ProducerId>>,
                   recorded: map<ProducerId, int>, fetched: map<Look, int>,
                   got: map<Look, set<ProducerId>>, p: PeerId)
    requires Producers(peers, added, producers, recorded) && p !in added
    requires Fetches(peers, recorded, fetched, got)
    ensures Fetches(peers + {p}, recorded, fetched, got)
  {
  }

  // ----- HDEL on the peers hash -----

  function Removed(h: History, p: PeerId): History {
    h.(removed := h.removed[p := h.clock], clock := h.clock + 1)
  }

  lemma RemoveFromPeersKeeps(s: State, p: PeerId, pc: Pc)
    requires Inv(s) && p in s.clients
    requires (s.clients[p].pc.UndoPeer? && pc.UndoProducers?) || (s.clients[p].pc.LeavePeer? && pc.LeaveProducers?)
    ensures Inv(Goto(RemoveFromPeers(s, p), p, s.clients[p], pc))
  {
    hide Membership, Reads, Producers, Fetches, FetchOrder, ProducerNews, PeerNews, Requests, Pcs, Strays;
    RemoveStamps(s.h, p);
    RemovePcs(s.clients, s.h, s.existingPeers, p, pc);
    RemoveMembership(s.peers, s.h.added, s.h.removed, p, s.h.clock);
    RemoveReads(s.h.added, s.h.removed, s.h.read, s.existingPeers, p, s.h.clock);
    RemoveProducers(s.peers, s.h.added, s.producers, s.h.recorded, p);
    RemoveFetches(s.peers, s.h.recorded, s.h.fetched, s.existingProducers, p);
    RemoveStrays(s.stray, s.h.removed, p, s.h.clock);
  }

  lemma RemoveStrays(stray: map<PeerId, set<PeerId>>, removed: Times, p: PeerId, now: int)
    requires Strays(stray, removed)
    ensures Strays(stray, removed[p := now])
  {
  }

  lemma RemoveMembership(peers: set<PeerId>, added: Times, removed: Times, p: PeerId, now: int)
    requires Membership(peers, added, removed) && p in added
    ensures Membership(peers - {p}, added, removed[p := now])
  {
  }

  lemma RemoveStamps(h: History, p: PeerId)
    requires Clocked(h)
    ensures Clocked(Removed(h, p))
  {
  }

  lemma RemovePcs(clients: map<PeerId, Client>, h: History, existing: map<PeerId, set<PeerId>>, p: PeerId, pc: Pc)
    requires Pcs(clients, h, existing) && p in clients
    requires (clients[p].pc.UndoPeer? && pc.UndoProducers?) || (clients[p].pc.LeavePeer? && pc.LeaveProducers?)
    ensures p in h.added && p !in h.removed
    ensures Pcs(clients[p := clients[p].(pc := pc)], Removed(h, p), existing)
  {
    assert PcOk(h, existing, p, clients[p].pc);
    PcsMove(clients, h, existing, Removed(h, p), existing, p, clients[p].(pc := pc));
  }

  lemma RemoveReads(added: Times, removed: Times, read: Times, existing: map<PeerId, set<PeerId>>, p: PeerId, now: int)
    requires Reads(added, removed, read, existing) && p !in removed && Earlier(read, now)
    ensures Reads(added, removed[p := now], read, existing)
  {
  }

  lemma RemoveProducers(peers: set<PeerId>, added: Times, producers: map<PeerId, set<ProducerId>>,
                        recorded: map<ProducerId, int>, p: PeerId)
    requires Producers(peers, added, producers, recorded)
    ensures Producers(peers - {p}, added, producers, recorded)
  {
  }

  lemma RemoveFetches(peers: set<PeerId>, recorded: map<ProducerId, int>, fetched: map<Look, int>,
                      got: map<Look, set<ProducerId>>, p: PeerId)
    requires Fetches(peers, recorded, fetched, got)
    ensures Fetches(peers - {p}, recorded, fetched, got)
  {
  }

  // ----- HGETALL on the peers hash -----

  function WithRead(h: History, p: PeerId): History {
    h.(read := h.read[p := h.clock], clock := h.clock + 1)
  }

  lemma ReadOthersKeeps(s: State, p: PeerId)
    requires Inv(s) && p in s.clients && s.clients[p].pc.ReadPeers?
    ensures Inv(Goto(ReadOthers(s, p), p, s.clients[p], FetchProducers(s.peers - {p}, {})))
  {
    hide Membership, Reads, Producers, Fetches, FetchOrder, ProducerNews, PeerNews, Requests, Pcs, Strays;
    ReadStamps(s.h, p);
    ReadPcs(s.clients, s.h, s.existingPeers, p, s.peers - {p});
    ReadOrder(s.h.read, s.h.fetched, p, s.h.clock);
    ReadReads(s.peers, s.h.added, s.h.removed, s.h.read, s.existingPeers, p, s.h.clock);
    ReadNews(s.existingPeers, s.existingProducers, s.sockets, s.h.socket, s.h.announced, s.h.cast, s.producerNews,
             p, s.peers - {p});
  }

  lemma ReadStamps(h: History, p: PeerId)
    requires Clocked(h)
    ensures Clocked(WithRead(h, p))
  {
  }

  lemma ReadPcs(clients: map<PeerId, Client>, h: History, existing: map<PeerId, set<PeerId>>, p: PeerId,
                others: set<PeerId>)
    requires Pcs(clients, h, existing) && p in clients && clients[p].pc.ReadPeers?
    ensures p in h.added && p !in h.announced && p !in h.read
    ensures Pcs(clients[p := clients[p].(pc := FetchProducers(others, {}))], WithRead(h, p), existing[p := others])
  {
    assert PcOk(h, existing, p, ReadPeers);
    PcsMove(clients, h, existing, WithRead(h, p), existing[p := others], p,
            clients[p].(pc := FetchProducers(others, {})));
  }

  lemma ReadOrder(read: Times, fetched: map<Look, int>, p: PeerId, now: int)
    requires FetchOrder(read, fetched) && p !in read
    ensures FetchOrder(read[p := now], fetched)
  {
  }

  lemma ReadReads(peers: set<PeerId>, added: Times, removed: Times, read: Times,
                  existing: map<PeerId, set<PeerId>>, p: PeerId, now: int)
    requires Membership(peers, added, removed) && Reads(added, removed, read, existing)
    requires p in added && Earlier(added, now) && Earlier(removed, now)
    ensures Reads(added, removed, read[p := now], existing[p := peers - {p}])
  {
    forall o ensures MemberAt(added, removed, o, now) <==> o in peers {
      assert o in peers <==> o in added.Keys - removed.Keys;
    }
  }

  lemma ReadNews(existing: map<PeerId, set<PeerId>>, got: map<Look, set<ProducerId>>,
                 sockets: set<PeerId>, socket: Times, announced: Times, cast: map<ProducerId, int>,
                 news: map<PeerId, set<ProducerId>>, p: PeerId, others: set<PeerId>)
    requires ProducerNews(existing, got, sockets, socket, announced, cast, news) && p !in announced
    ensures ProducerNews(existing[p := others], got, sockets, socket, announced, cast, news)
  {
    forall j, r | j in announced
      ensures Backfilled(existing, got, j, r) == Backfilled(existing[p := others], got, j, r)
    {
    }
  }

  // ----- HGETALL on a producers hash -----

  function WithFetch(h: History, p: PeerId, o: PeerId): History {
    h.(fetched := h.fetched[Look(p, o) := h.clock], clock := h.clock + 1)
  }

  lemma FetchFromKeeps(s: State, p: PeerId, o: PeerId)
    requires Inv(s) && p in s.clients && s.clients[p].pc.FetchProducers?
    ensures Inv(Goto(FetchFrom(s, p, o), p, s.clients[p], s.clients[p].pc.(done := s.clients[p].pc.done + {o})))
  {
    hide Membership, Reads, Producers, Fetches, FetchOrder, ProducerNews, PeerNews, Requests, Pcs, Strays;
    FetchStamps(s.h, p, o);
    FetchPcs(s.clients, s.h, s.existingPeers, p, o);
    FetchAfterRead(s.h.read, s.h.fetched, Look(p, o), s.h.clock);
    FetchFetches(s.peers, s.h.added, s.producers, s.h.recorded, s.h.fetched, s.existingProducers, Look(p, o), s.h.clock,
                 ProducersOf(s, o));
    FetchNews(s.existingPeers, s.existingProducers, s.sockets, s.h.socket, s.h.announced, s.h.cast, s.producerNews,
              p, o, ProducersOf(s, o));
  }

  lemma FetchStamps(h: History, p: PeerId, o: PeerId)
    requires Clocked(h)
    ensures Clocked(WithFetch(h, p, o))
  {
  }

  lemma FetchPcs(clients: map<PeerId, Client>, h: History, existing: map<PeerId, set<PeerId>>, p: PeerId, o: PeerId)
    requires Pcs(clients, h, existing) && p in clients && clients[p].pc.FetchProducers?
    ensures p !in h.announced && p in h.read
    ensures Pcs(clients[p := clients[p].(pc := clients[p].pc.(done := clients[p].pc.done + {o}))],
                WithFetch(h, p, o), existing)
  {
    assert PcOk(h, existing, p, clients[p].pc);
    PcsMove(clients, h, existing, WithFetch(h, p, o), existing, p,
            clients[p].(pc := clients[p].pc.(done := clients[p].pc.done + {o})));
  }

  lemma FetchAfterRead(read: Times, fetched: map<Look, int>, f: Look, now: int)
    requires FetchOrder(read, fetched) && f.reader in read && Earlier(read, now)
    ensures FetchOrder(read, fetched[f := now])
  {
  }

  /** A read finds recorded producers only. */
  lemma FetchRecorded(peers: set<PeerId>, added: Times, producers: map<PeerId, set<ProducerId>>,
                      recorded: map<ProducerId, int>, fetched: map<Look, int>, got: map<Look, set<ProducerId>>,
                      f: Look, now: int, ids: set<ProducerId>)
    requires Producers(peers, added, producers, recorded) && Earlier(recorded, now)
    requires Fetches(peers, recorded, fetched, got)
    requires ids == if f.owner in producers then producers[f.owner] else {}
    ensures forall g, r | g in got[f := ids] && r in got[f := ids][g] ::
              r in recorded && r.owner == g.owner && recorded[r] < fetched[f := now][g]
  {
  }

  /** A read of a member's hash finds all that are recorded. */
  lemma FetchComplete(peers: set<PeerId>, added: Times, producers: map<PeerId, set<ProducerId>>,
                      recorded: map<ProducerId, int>, fetched: map<Look, int>, got: map<Look, set<ProducerId>>,
                      f: Look, now: int, ids: set<ProducerId>)
    requires Producers(peers, added, producers, recorded) && Fetches(peers, recorded, fetched, got)
    requires ids == if f.owner in producers then producers[f.owner] else {}
    ensures forall g, r | g in got[f := ids] && r in recorded && r.owner == g.owner && g.owner in peers
                          && recorded[r] < fetched[f := now][g] :: r in got[f := ids][g]
  {
  }

  lemma FetchFetches(peers: set<PeerId>, added: Times, producers: map<PeerId, set<ProducerId>>,
                     recorded: map<ProducerId, int>, fetched: map<Look, int>, got: map<Look, set<ProducerId>>,
                     f: Look, now: int, ids: set<ProducerId>)
    requires Producers(peers, added, producers, recorded) && Earlier(recorded, now)
    requires Fetches(peers, recorded, fetched, got)
    requires ids == if f.owner in producers then producers[f.owner] else {}
    ensures Fetches(peers, recorded, fetched[f := now], got[f := ids])
  {
    FetchRecorded(peers, added, producers, recorded, fetched, got, f, now, ids);
    FetchComplete(peers, added, producers, recorded, fetched, got, f, now, ids);
    hide Producers;
  }

  lemma FetchNews(existing: map<PeerId, set<PeerId>>, got: map<Look, set<ProducerId>>,
                  sockets: set<PeerId>, socket: Times, announced: Times, cast: map<ProducerId, int>,
                  news: map<PeerId, set<ProducerId>>, p: PeerId, o: PeerId, ids: set<ProducerId>)
    requires ProducerNews(existing, got, sockets, socket, announced, cast, news) && p !in announced
    ensures ProducerNews(existing, got[Look(p, o) := ids], sockets, socket, announced, cast, news)
  {
    forall j, r | j in announced
      ensures Backfilled(existing, got, j, r) == Backfilled(existing, got[Look(p, o) := ids], j, r)
    {
    }
  }

  // ----- DEL on a producers hash -----

  lemma DropProducersKeeps(s: State, o: PeerId)
    requires Inv(s) && o in s.h.removed
    ensures Inv(DropProducers(s, o))
  {
    DropOne(s.peers, s.h.added, s.producers, s.h.recorded, o);
  }

  lemma DropOne(peers: set<PeerId>, added: Times, producers: map<PeerId, set<ProducerId>>,
                recorded: map<ProducerId, int>, o: PeerId)
    requires Producers(peers, added, producers, recorded) && o !in peers
    ensures Producers(peers, added, producers - {o}, recorded)
  {
  }

  // ----- HSET on a producers hash -----

  function WithRecord(h: History, r: ProducerId): History {
    h.(recorded := h.recorded[r := h.clock], clock := h.clock + 1)
  }

  lemma AddProducerKeeps(s: State, r: ProducerId)
    requires Inv(s) && r in s.requests && s.requests[r].pc.Record?
    ensures Inv(Advance(AddProducer(s, r), r, s.requests[r], Broadcast))
  {
    hide Membership, Reads, Producers, Fetches, FetchOrder, ProducerNews, PeerNews, Requests, Pcs, Strays;
    RecordStamps(s.h, r);
    RecordRequests(s.requests, s.h.added, s.h.recorded, s.h.cast, r, s.h.clock);
    RecordProducers(s.peers, s.h.added, s.producers, s.h.recorded, r, s.h.clock, ProducersOf(s, r.owner));
    RecordFetches(s.peers, s.h.recorded, s.h.fetched, s.existingProducers, r, s.h.clock);
    RecordPcs(s.clients, s.h, s.existingPeers, r);
  }

  lemma RecordPcs(clients: map<PeerId, Client>, h: History, existing: map<PeerId, set<PeerId>>, r: ProducerId)
    requires Pcs(clients, h, existing)
    ensures Pcs(clients, WithRecord(h, r), existing)
  {
    forall p | p in clients ensures PcOk(WithRecord(h, r), existing, p, clients[p].pc) {
      PcOkKept(h, existing, WithRecord(h, r), existing, p, clients[p].pc);
    }
  }

  lemma RecordStamps(h: History, r: ProducerId)
    requires Clocked(h)
    ensures Clocked(WithRecord(h, r))
  {
  }

  lemma RecordRequests(requests: map<ProducerId, Request>, added: Times, recorded: map<ProducerId, int>,
                       cast: map<ProducerId, int>, r: ProducerId, now: int)
    requires Requests(requests, added, recorded, cast) && r in requests && requests[r].pc.Record?
    ensures r !in recorded && r.owner in added
    ensures Requests(requests[r := requests[r].(pc := Broadcast)], added, recorded[r := now], cast)
  {
  }

  lemma RecordProducers(peers: set<PeerId>, added: Times, producers: map<PeerId, set<ProducerId>>,
                        recorded: map<ProducerId, int>, r: ProducerId, now: int, ids: set<ProducerId>)
    requires Producers(peers, added, producers, recorded) && Earlier(added, now) && r.owner in added
    requires ids == if r.owner in producers then producers[r.owner] else {}
    ensures Producers(peers, added, producers[r.owner := ids + {r}], recorded[r := now])
  {
  }

  lemma RecordFetches(peers: set<PeerId>, recorded: map<ProducerId, int>, fetched: map<Look, int>,
                      got: map<Look, set<ProducerId>>, r: ProducerId, now: int)
    requires Fetches(peers, recorded, fetched, got) && r !in recorded && Earlier(fetched, now)
    ensures Fetches(peers, recorded[r := now], fetched, got)
  {
  }

  // ----- The socket.io room -----

  function WithSocket(h: History, p: PeerId): History {
    h.(socket := h.socket[p := h.clock], clock := h.clock + 1)
  }

  lemma EnterSocketRoomKeeps(s: State, p: PeerId)
    requires Inv(s) && p in s.clients && s.clients[p].pc.JoinSocket?
    ensures Inv(Goto(EnterSocketRoom(s, p), p, s.clients[p], Announce))
  {
    hide Membership, Reads, Producers, Fetches, FetchOrder, ProducerNews, PeerNews, Requests, Pcs, Strays;
    SocketStamps(s.h, p);
    SocketPcs(s.clients, s.h, s.existingPeers, p);
    SocketProducerNews(s.existingPeers, s.existingProducers, s.sockets, s.h.socket, s.h.announced, s.h.cast,
                       s.producerNews, p, s.h.clock);
    SocketPeerNews(s.sockets, s.h.socket, s.h.announced, s.peerNews, p, s.h.clock);
  }

  lemma SocketStamps(h: History, p: PeerId)
    requires Clocked(h)
    ensures Clocked(WithSocket(h, p))
  {
  }

  lemma SocketPcs(clients: map<PeerId, Client>, h: History, existing: map<PeerId, set<PeerId>>, p: PeerId)
    requires Pcs(clients, h, existing) && p in clients && clients[p].pc.JoinSocket?
    ensures p !in h.socket
    ensures Pcs(clients[p := clients[p].(pc := Announce)], WithSocket(h, p), existing)
  {
    assert PcOk(h, existing, p, JoinSocket);
    PcsMove(clients, h, existing, WithSocket(h, p), existing, p, clients[p].(pc := Announce));
  }

  lemma SocketProducerNews(existing: map<PeerId, set<PeerId>>, got: map<Look, set<ProducerId>>,
                           sockets: set<PeerId>, socket: Times, announced: Times, cast: map<ProducerId, int>,
                           news: map<PeerId, set<ProducerId>>, p: PeerId, now: int)
    requires ProducerNews(existing, got, sockets, socket, announced, cast, news) && p !in socket && Earlier(cast, now)
    ensures ProducerNews(existing, got, sockets + {p}, socket[p := now], announced, cast, news[p := {}])
  {
    forall j, r | j != p ensures Heard(socket, cast, j, r) == Heard(socket[p := now], cast, j, r) {
    }
  }

  lemma SocketPeerNews(sockets: set<PeerId>, socket: Times, announced: Times, news: map<PeerId, set<PeerId>>,
                       p: PeerId, now: int)
    requires PeerNews(sockets, socket, announced, news) && Earlier(announced, now)
    ensures PeerNews(sockets + {p}, socket[p := now], announced, news[p := {}])
  {
  }

  function WithAnnouncement(h: History, p: PeerId): History {
    h.(announced := h.announced[p := h.clock], clock := h.clock + 1)
  }

  lemma AnnounceKeeps(s: State, p: PeerId)
    requires Inv(s) && p in s.clients && s.clients[p].pc.Announce?
    ensures Inv(Goto(AnnouncePeer(s, p), p, s.clients[p], Joined))
  {
    hide Membership, Reads, Producers, Fetches, FetchOrder, ProducerNews, PeerNews, Requests, Pcs, Strays;
    AnnounceStamps(s.h, p);
    AnnouncePcs(s.clients, s.h, s.existingPeers, p);
    AnnounceProducerNews(s, p);
    AnnouncePeerNews(s.sockets, s.h.socket, s.h.announced, s.peerNews, p, s.h.clock);
  }

  lemma AnnounceStamps(h: History, p: PeerId)
    requires Clocked(h)
    ensures Clocked(WithAnnouncement(h, p))
  {
  }

  lemma AnnouncePcs(clients: map<PeerId, Client>, h: History, existing: map<PeerId, set<PeerId>>, p: PeerId)
    requires Pcs(clients, h, existing) && p in clients && clients[p].pc.Announce?
    ensures p !in h.announced && p in h.socket
    ensures Pcs(clients[p := clients[p].(pc := Joined)], WithAnnouncement(h, p), existing)
  {
    assert PcOk(h, existing, p, Announce);
    PcsMove(clients, h, existing, WithAnnouncement(h, p), existing, p, clients[p].(pc := Joined));
  }

  lemma AnnounceProducerNews(s: State, p: PeerId)
    requires ProducerNews(s.existingPeers, s.existingProducers, s.sockets, s.h.socket, s.h.announced, s.h.cast,
                          s.producerNews)
    requires Fetches(s.peers, s.h.recorded, s.h.fetched, s.existingProducers) && p in s.h.socket
    ensures ProducerNews(s.existingPeers, s.existingProducers, s.sockets, s.h.socket,
                         s.h.announced[p := s.h.clock], s.h.cast,
                         s.producerNews[p := NewsOf(s, p) + Backfill(s, p)])
  {
    forall r ensures r in Backfill(s, p) <==> Backfilled(s.existingPeers, s.existingProducers, p, r) {
      if r in Backfill(s, p) {
        var o :| o in s.existingPeers[p] && Look(p, o) in s.existingProducers && r in s.existingProducers[Look(p, o)];
        assert r.owner == o;
      }
    }
  }

  lemma AnnouncePeerNews(sockets: set<PeerId>, socket: Times, announced: Times, news: map<PeerId, set<PeerId>>,
                         p: PeerId, now: int)
    requires PeerNews(sockets, socket, announced, news) && p !in announced && Earlier(socket, now)
    ensures PeerNews(sockets, socket, announced[p := now],
                     Tell(news, sockets, p, p))
  {
  }

  function WithCast(h: History, r: ProducerId): History {
    h.(cast := h.cast[r := h.clock], clock := h.clock + 1)
  }

  lemma BroadcastKeeps(s: State, r: ProducerId)
    requires Inv(s) && r in s.requests && s.requests[r].pc.Broadcast?
    ensures Inv(Advance(BroadcastProducer(s, r), r, s.requests[r], Answered))
  {
    hide Membership, Reads, Producers, Fetches, FetchOrder, ProducerNews, PeerNews, Requests, Pcs, Strays;
    CastStamps(s.h, r);
    CastRequests(s.requests, s.h.added, s.h.recorded, s.h.cast, r, s.h.clock);
    CastNews(s.existingPeers, s.existingProducers, s.sockets, s.h.socket, s.h.announced, s.h.cast, s.producerNews,
             r, s.h.clock);
    CastPcs(s.clients, s.h, s.existingPeers, r);
  }

  lemma CastPcs(clients: map<PeerId, Client>, h: History, existing: map<PeerId, set<PeerId>>, r: ProducerId)
    requires Pcs(clients, h, existing)
    ensures Pcs(clients, WithCast(h, r), existing)
  {
    forall p | p in clients ensures PcOk(WithCast(h, r), existing, p, clients[p].pc) {
      PcOkKept(h, existing, WithCast(h, r), existing, p, clients[p].pc);
    }
  }

  lemma CastStamps(h: History, r: ProducerId)
    requires Clocked(h)
    ensures Clocked(WithCast(h, r))
  {
  }

  lemma CastRequests(requests: map<ProducerId, Request>, added: Times, recorded: map<ProducerId, int>,
                     cast: map<ProducerId, int>, r: ProducerId, now: int)
    requires Requests(requests, added, recorded, cast) && r in requests && requests[r].pc.Broadcast?
    ensures r !in cast
    ensures Requests(requests[r := requests[r].(pc := Answered)], added, recorded, cast[r := now])
  {
  }

  lemma CastNews(existing: map<PeerId, set<PeerId>>, got: map<Look, set<ProducerId>>,
                 sockets: set<PeerId>, socket: Times, announced: Times, cast: map<ProducerId, int>,
                 news: map<PeerId, set<ProducerId>>, r: ProducerId, now: int)
    requires ProducerNews(existing, got, sockets, socket, announced, cast, news) && r !in cast && Earlier(socket, now)
    ensures ProducerNews(existing, got, sockets, socket, announced, cast[r := now], Tell(news, sockets, r.owner, r))
  {
    var cast', news' := cast[r := now], Tell(news, sockets, r.owner, r);
    hide Backfilled;
    forall j, r' | r' != r ensures Heard(socket, cast, j, r') == Heard(socket, cast', j, r') {
    }
    forall j, r' | j in news' && r' in news'[j]
      ensures Heard(socket, cast', j, r') || (j in announced && Backfilled(existing, got, j, r'))
    {
      assert r' == r || r' in news[j];
    }
    forall j, r' | j in sockets && Heard(socket, cast', j, r') && r'.owner != j ensures r' in news'[j] {
      assert r' == r || Heard(socket, cast, j, r');
    }
  }

  // ----- Every event -----

  /** All that the facts speak of is the same. */
  ghost predicate SameFacts(s: State, t: State) {
    && s.peers == t.peers && s.producers == t.producers && s.clients == t.clients && s.requests == t.requests
    && s.existingPeers == t.existingPeers && s.existingProducers == t.existingProducers
    && s.sockets == t.sockets && s.producerNews == t.producerNews && s.peerNews == t.peerNews && s.stray == t.stray
    && SameTimes(s.h, t.h)
  }

  ghost predicate SameTimes(h: History, g: History) {
    && h.clock == g.clock && h.added == g.added && h.removed == g.removed && h.read == g.read && h.fetched == g.fetched
    && h.socket == g.socket && h.announced == g.announced && h.recorded == g.recorded && h.cast == g.cast
  }

  /** Bookkeeping none of the facts mention. */
  lemma BookkeepingKeeps(s: State, t: State)
    requires Inv(s) && SameFacts(s, t)
    ensures Inv(t)
  {
    hide Membership, Reads, Producers, Fetches, FetchOrder, ProducerNews, PeerNews, Requests, Pcs, Strays;
    ClockKept(s.h, t.h);
    PcsKept(s.clients, s.h, t.h, s.existingPeers);
  }

  lemma ClockKept(h: History, g: History)
    requires Clocked(h) && SameTimes(h, g)
    ensures Clocked(g)
  {
  }

  lemma PcsKept(clients: map<PeerId, Client>, h: History, g: History, existing: map<PeerId, set<PeerId>>)
    requires Pcs(clients, h, existing) && SameTimes(h, g)
    ensures Pcs(clients, g, existing)
  {
    forall p | p in clients ensures PcOk(g, existing, p, clients[p].pc) {
      PcOkKept(h, existing, g, existing, p, clients[p].pc);
    }
  }

  lemma SfuRemoveSame(s: State, n: Node, p: PeerId)
    ensures SameFacts(s, SfuRemovePeer(s, n, p))
  {
  }

  lemma SfuCloseSame(s: State, n: Node, p: PeerId)
    ensures SameFacts(s, SfuCloseRoom(s, n, p))
  {
  }

  lemma SfuTransportSame(s: State, n: Node, p: PeerId)
    ensures SameFacts(s, SfuCreateTransport(s, n, p))
  {
    if n in s.mediaRooms {
    }
  }

  lemma FailureSame(h: History, p: PeerId, pc: Pc)
    ensures SameTimes(h, NoteFailure(h, p, pc))
  {
  }

  lemma HistorySame(s: State, h: History)
    requires SameTimes(s.h, h)
    ensures SameFacts(s, s.(h := h))
  {
  }

  lemma PendingSame(s: State, pending: map<Instance, PeerId>, creations: map<PeerId, Creation>)
    ensures SameFacts(s, s.(pendingRooms := pending))
            && SameFacts(s, s.(pendingRooms := pending, creations := creations))
  {
  }

  lemma ScriptSame(s: State)
    ensures SameFacts(s, CloseIfEmpty(s))
  {
    if s.peers == {} {
    }
  }

  lemma LookupKeeps(s: State, p: PeerId)
    requires Inv(s) && p in s.clients && LookingUp(s.clients[p].pc)
    ensures Inv(ExecLookup(s, p, s.clients[p]))
  {
    hide Inv;
    var c := s.clients[p];
    match c.pc {
      case AwaitRoom(creator) =>
        if creator in s.creations {
          ResumeKeeps(s, p, s.creations[creator]);
        }
      case MissedRoom =>
        if c.instance in s.pendingRooms {
          GotoOutside(s, p, AwaitRoom(s.pendingRooms[c.instance]));
        } else {
          PendingSame(s, s.pendingRooms[c.instance := p], s.creations[p := Picking]);
          BookkeepingKeeps(s, StartCreation(s, p, c.instance));
          GotoOutside(StartCreation(s, p, c.instance), p, AwaitRoom(p));
        }
      case GetRoom => GotoOutside(s, p, if s.room.Some? then RefreshRoom else MissedRoom);
      case RefreshRoom => GotoOutside(s, p, AddPeer);
    }
  }

  lemma ResumeKeeps(s: State, p: PeerId, creation: Creation)
    requires Inv(s) && p in s.clients && s.clients[p].pc.AwaitRoom?
    ensures Inv(Resume(s, p, s.clients[p], creation))
  {
    hide Inv;
    var c := s.clients[p];
    var s' := if c.pc == AwaitRoom(p) then s.(pendingRooms := s.pendingRooms - {c.instance}) else s;
    PendingSame(s, s.pendingRooms - {c.instance}, s.creations);
    SelfSame(s);
    BookkeepingKeeps(s, s');
    GotoOutside(s', p, AddPeer);
    GotoOutside(s', p, Rejected);
  }

  /** Before the HSET a handler only moves among the positions before it. */
  lemma GotoOutside(s: State, p: PeerId, pc: Pc)
    requires Inv(s) && p in s.clients && Outside(s.clients[p].pc) && (Outside(pc) || pc.Rejected?)
    ensures Inv(Goto(s, p, s.clients[p], pc))
  {
    hide Clocked, Membership, Reads, Producers, Fetches, FetchOrder, ProducerNews, PeerNews, Requests, Strays;
    assert PcOk(s.h, s.existingPeers, p, s.clients[p].pc);
    GotoKeeps(s, p, pc);
  }

  lemma EnterKeeps(s: State, p: PeerId)
    requires Inv(s) && p in s.clients
    ensures Inv(ExecEnter(s, p, s.clients[p]))
  {
    hide Inv, Goto, AddToPeers, ReadOthers, RemoveFromPeers, DropProducers;
    match s.clients[p].pc {
      case AddPeer => AddToPeersKeeps(s, p);
      case ExpirePeers => MoveKeeps(s, p, ReadPeers);
      case ReadPeers => ReadOthersKeeps(s, p);
      case FetchProducers(others, done) => if done == others { MoveKeeps(s, p, JoinSocket); }
      case UndoPeer => RemoveFromPeersKeeps(s, p, UndoProducers);
      case UndoProducers => DropAndMoveKeeps(s, p, p, Rejected);
      case _ =>
    }
  }

  /** A move to a position that claims no more about the past. */
  lemma MoveKeeps(s: State, p: PeerId, pc: Pc)
    requires Inv(s) && p in s.clients
    requires PcOk(s.h, s.existingPeers, p, s.clients[p].pc) ==> PcOk(s.h, s.existingPeers, p, pc)
    ensures Inv(Goto(s, p, s.clients[p], pc))
  {
    hide Inv;
    PcFact(s, p);
    GotoKeeps(s, p, pc);
  }

  lemma DropAndMoveKeeps(s: State, p: PeerId, o: PeerId, pc: Pc)
    requires Inv(s) && p in s.clients
    requires PcOk(s.h, s.existingPeers, p, s.clients[p].pc) ==> o in s.h.removed && PcOk(s.h, s.existingPeers, p, pc)
    ensures Inv(Goto(DropProducers(s, o), p, s.clients[p], pc))
  {
    hide Inv;
    PcFact(s, p);
    DropProducersKeeps(s, o);
    GotoKeeps(DropProducers(s, o), p, pc);
  }

  lemma GatewayKeeps(s: State, p: PeerId)
    requires Inv(s) && p in s.clients
    ensures Inv(ExecGateway(s, p, s.clients[p]))
  {
    hide Inv, Goto, EnterSocketRoom, AnnouncePeer;
    match s.clients[p].pc {
      case JoinSocket => EnterSocketRoomKeeps(s, p);
      case Announce => AnnounceKeeps(s, p);
      case _ =>
    }
  }

  lemma DepartKeeps(s: State, p: PeerId)
    requires Inv(s) && p in s.clients
    ensures Inv(ExecDepart(s, p, s.clients[p]))
  {
    hide Inv, Goto, RemoveFromPeers, DropProducers, SfuRemovePeer;
    match s.clients[p].pc {
      case LeaveGet => MoveKeeps(s, p, if s.room.Some? then LeavePeer(s.room.value) else Left);
      case LeavePeer(n) => RemoveFromPeersKeeps(s, p, LeaveProducers(n));
      case LeaveProducers(n) => DropAndMoveKeeps(s, p, p, LeaveSfu(n));
      case LeaveSfu(n) => SfuRemoveKeeps(s, n, p);
      case _ =>
    }
  }

  lemma SfuRemoveKeeps(s: State, n: Node, p: PeerId)
    requires Inv(s) && p in s.clients && s.clients[p].pc.LeaveSfu?
    ensures Inv(Goto(SfuRemovePeer(s, n, p), p, s.clients[p], LeaveCheck(n)))
  {
    hide Inv, SfuRemovePeer;
    SfuRemoveSame(s, n, p);
    BookkeepingKeeps(s, SfuRemovePeer(s, n, p));
    MoveKeeps(SfuRemovePeer(s, n, p), p, LeaveCheck(n));
  }

  lemma CloseKeeps(s: State, p: PeerId)
    requires Inv(s) && p in s.clients
    ensures Inv(ExecClose(s, p, s.clients[p]))
  {
    hide Inv, Goto, CloseIfEmpty, SfuCloseRoom;
    MembershipFact(s);
    match s.clients[p].pc {
      case LeaveCheck(n) => MoveKeeps(s, p, if s.peers == {} then LeaveKeys(n) else Left);
      case LeaveKeys(n) => MoveKeeps(s, p, LeaveScript(n, s.peers));
      case LeaveScript(n, keys) => ScriptKeeps(s, p, n, keys);
      case LeaveClean(n, keys) => if keys == {} { MoveKeeps(s, p, SfuClose(n)); }
      case SfuClose(n) => SfuCloseKeeps(s, n, p);
      case _ =>
    }
  }

  /** The script closes only over an empty hash, when every key read before is
      the key of a peer already removed. */
  lemma ScriptKeeps(s: State, p: PeerId, n: Node, keys: set<PeerId>)
    requires Inv(s) && p in s.clients && s.clients[p].pc == LeaveScript(n, keys)
    ensures Inv(Goto(CloseIfEmpty(s), p, s.clients[p], if s.peers == {} then LeaveClean(n, keys) else Left))
  {
    hide Inv, CloseIfEmpty;
    MembershipFact(s);
    ScriptSame(s);
    BookkeepingKeeps(s, CloseIfEmpty(s));
    MoveKeeps(CloseIfEmpty(s), p, if s.peers == {} then LeaveClean(n, keys) else Left);
  }

  lemma SfuCloseKeeps(s: State, n: Node, p: PeerId)
    requires Inv(s) && p in s.clients && s.clients[p].pc.SfuClose?
    ensures Inv(Goto(SfuCloseRoom(s, n, p), p, s.clients[p], Left))
  {
    hide Inv, SfuCloseRoom;
    SfuCloseSame(s, n, p);
    BookkeepingKeeps(s, SfuCloseRoom(s, n, p));
    MoveKeeps(SfuCloseRoom(s, n, p), p, Left);
  }

  lemma MembershipFact(s: State)
    requires Inv(s)
    ensures s.peers <= s.h.added.Keys && s.h.added.Keys <= s.peers + s.h.removed.Keys
  {
    forall p | p in s.h.added.Keys ensures p in s.peers || p in s.h.removed.Keys {
      assert p !in s.h.removed ==> p in s.h.added.Keys - s.h.removed.Keys;
    }
  }

  lemma PcFact(s: State, p: PeerId)
    requires Inv(s) && p in s.clients
    ensures PcOk(s.h, s.existingPeers, p, s.clients[p].pc)
  {
  }

  lemma FailKeeps(s: State, p: PeerId)
    requires Inv(s) && p in s.clients
    ensures Inv(FailClient(s, p, s.clients[p]))
  {
    hide Inv, NoteFailure, AfterFailure;
    var pc := s.clients[p].pc;
    FailureSame(s.h, p, pc);
    HistorySame(s, NoteFailure(s.h, p, pc));
    var t := s.(h := NoteFailure(s.h, p, pc));
    BookkeepingKeeps(s, t);
    PcFact(t, p);
    FailedOk(t.h, t.existingPeers, p, pc);
    MoveKeeps(t, p, AfterFailure(pc));
  }

  lemma FailedOk(h: History, existing: map<PeerId, set<PeerId>>, p: PeerId, pc: Pc)
    requires PcOk(h, existing, p, pc)
    ensures PcOk(h, existing, p, AfterFailure(pc))
  {
  }

  lemma SelfSame(s: State)
    ensures SameFacts(s, s)
  {
  }

  lemma FetchOneKeeps(s: State, p: PeerId, o: PeerId)
    requires Inv(s) && p in s.clients
    ensures Inv(FetchOne(s, p, s.clients[p], o))
  {
    hide Inv;
    match s.clients[p].pc {
      case FetchProducers(others, done) => if o in others - done { FetchFromKeeps(s, p, o); }
      case _ =>
    }
  }

  lemma CleanKeeps(s: State, p: PeerId, o: PeerId)
    requires Inv(s) && p in s.clients
    ensures Inv(CleanOne(s, p, s.clients[p], o))
  {
    hide Inv;
    match s.clients[p].pc {
      case LeaveClean(n, keys) =>
        if o in keys {
          DropAndMoveKeeps(s, p, o, LeaveClean(n, keys - {o}));
        }
      case Left => if o in StrayOf(s, p) { LandStrayKeeps(s, p, o); }
      case _ =>
    }
  }

  /** Deletions of hashes of removed peers may stay on their way. */
  lemma StrayKeeps(s: State, p: PeerId, todo: set<PeerId>)
    requires Inv(s) && todo <= s.h.removed.Keys
    ensures Inv(s.(stray := s.stray[p := todo]))
  {
    hide Clocked, Membership, Reads, Producers, Fetches, FetchOrder, ProducerNews, PeerNews, Requests, Pcs;
  }

  lemma StrayFact(s: State, p: PeerId)
    requires Inv(s)
    ensures StrayOf(s, p) <= s.h.removed.Keys
  {
    hide Clocked, Membership, Reads, Producers, Fetches, FetchOrder, ProducerNews, PeerNews, Requests, Pcs;
  }

  lemma LandStrayKeeps(s: State, p: PeerId, o: PeerId)
    requires Inv(s) && o in StrayOf(s, p)
    ensures Inv(LandStray(s, p, o))
  {
    hide Inv, DropProducers;
    StrayFact(s, p);
    DropProducersKeeps(s, o);
    DropKeepsStray(s, o);
    StrayKeeps(DropProducers(s, o), p, StrayOf(s, p) - {o});
  }

  lemma DropKeepsStray(s: State, o: PeerId)
    ensures DropProducers(s, o).stray == s.stray && DropProducers(s, o).h == s.h
  {
  }

  lemma FailCleanKeeps(s: State, p: PeerId, o: PeerId)
    requires Inv(s) && p in s.clients
    ensures Inv(FailCleanOne(s, p, s.clients[p], o))
  {
    hide Inv;
    match s.clients[p].pc {
      case LeaveClean(n, keys) =>
        if o in keys {
          PcFact(s, p);
          StrayKeeps(s, p, keys - {o});
          MoveKeeps(s.(stray := s.stray[p := keys - {o}]), p, Left);
        }
      case _ =>
    }
  }

  lemma DisconnectKeeps(s: State, p: PeerId)
    requires Inv(s) && p in s.clients && s.clients[p].pc.Joined?
    ensures Inv(Goto(s.(sockets := s.sockets - {p}), p, s.clients[p], LeaveGet))
  {
    hide Inv;
    PcFact(s, p);
    FewerSockets(s, p);
    GotoKeeps(s.(sockets := s.sockets - {p}), p, LeaveGet);
  }

  lemma FewerSockets(s: State, p: PeerId)
    requires Inv(s)
    ensures Inv(s.(sockets := s.sockets - {p}))
  {
    hide Clocked, Membership, Reads, Producers, Fetches, Requests, Pcs, Strays;
  }

  lemma ClientKeeps(s: State, e: Event, p: PeerId)
    requires Inv(s) && p in s.clients
    ensures Inv(StepClient(s, e, p, s.clients[p]))
  {
    hide Inv;
    match e {
      case Exec(_) =>
        var pc := s.clients[p].pc;
        if LookingUp(pc) { LookupKeeps(s, p); }
        else if Departing(pc) { DepartKeeps(s, p); }
        else if Closing(pc) { CloseKeeps(s, p); }
        else if InGateway(pc) { GatewayKeeps(s, p); }
        else { EnterKeeps(s, p); }
      case Fail(_) => FailKeeps(s, p);
      case Fetch(_, o) => FetchOneKeeps(s, p, o);
      case Clean(_, o) => CleanKeeps(s, p, o);
      case FailClean(_, o) => FailCleanKeeps(s, p, o);
      case Disconnect(_) => if s.clients[p].pc.Joined? { DisconnectKeeps(s, p); }
      case _ =>
    }
  }

  lemma ConnectKeeps(s: State, p: PeerId, i: Instance)
    requires Inv(s) && p !in s.clients
    ensures Inv(Goto(s, p, Client(i, GetRoom), GetRoom))
  {
    hide Clocked, Membership, Reads, Producers, Fetches, FetchOrder, ProducerNews, PeerNews, Requests, Strays;
    PcsMove(s.clients, s.h, s.existingPeers, s.h, s.existingPeers, p, Client(i, GetRoom));
  }

  lemma AdvanceKeeps(s: State, r: ProducerId, q: Request, pc: RequestPc)
    requires Inv(s) && r in s.requests && q == s.requests[r]
    requires pc.Refused? || (pc.Answered? && q.pc.CallSfu?) || (pc.Record? && q.pc.CallSfu?)
             || (pc.CallSfu? && q.pc.ResolveNode?) || (pc.ResolveNode? && q.pc.CheckPeer? && r.owner in s.h.added)
    ensures Inv(Advance(s, r, q, pc))
  {
    hide Clocked, Membership, Reads, Producers, Fetches, FetchOrder, ProducerNews, PeerNews, Pcs;
  }

  lemma AskKeeps(s: State, r: ProducerId, kind: Kind)
    requires Inv(s) && r !in s.requests
    ensures Inv(Advance(s, r, Request(kind, CheckPeer), CheckPeer))
  {
    hide Clocked, Membership, Reads, Producers, Fetches, FetchOrder, ProducerNews, PeerNews, Pcs;
  }

  lemma ServeKeeps(s: State, r: ProducerId)
    requires Inv(s) && r in s.requests
    ensures Inv(ExecRequest(s, r, s.requests[r]))
  {
    hide Inv;
    MembershipFact(s);
    var q := s.requests[r];
    match q.pc {
      case CheckPeer => AdvanceKeeps(s, r, q, if r.owner in s.peers then ResolveNode else Refused);
      case ResolveNode => AdvanceKeeps(s, r, q, if s.room.Some? then CallSfu(s.room.value) else Refused);
      case CallSfu(n) =>
        if n !in s.mediaRooms {
          AdvanceKeeps(s, r, q, Refused);
        } else if q.kind.Transport? {
          SfuTransportSame(s, n, r.owner);
          BookkeepingKeeps(s, SfuCreateTransport(s, n, r.owner));
          AdvanceKeeps(SfuCreateTransport(s, n, r.owner), r, q, Answered);
        } else {
          AdvanceKeeps(s, r, q, Record);
        }
      case Record => AddProducerKeeps(s, r);
      case Broadcast => BroadcastKeeps(s, r);
      case _ =>
    }
  }

  lemma ShuffleKeeps(s: State, room: Option<Node>, mediaRooms: map<Node, set<PeerId>>, creations: map<PeerId, Creation>)
    requires Inv(s)
    ensures Inv(s.(room := room, mediaRooms := mediaRooms, creations := creations))
  {
    hide Clocked, Membership, Reads, Producers, Fetches, FetchOrder, ProducerNews, PeerNews, Requests, Pcs, Strays;
  }

  lemma CreationKeeps(s: State, e: Event, p: PeerId, creation: Creation)
    requires Inv(s)
    ensures Inv(StepCreation(s, e, p, creation))
  {
    hide Inv;
    match creation {
      case Picking =>
        if e.PickNode? { ShuffleKeeps(s, s.room, s.mediaRooms, s.creations[p := Creating(e.node)]); }
      case Creating(n) =>
        ShuffleKeeps(s, s.room, SfuCreateOrGet(s, n).mediaRooms, s.creations[p := Recording(n)]);
      case Recording(n) =>
        ShuffleKeeps(s, Some(n), s.mediaRooms, s.creations[p := Created]);
      case _ =>
    }
  }

  lemma FailedCreationKeeps(s: State, p: PeerId)
    requires Inv(s)
    ensures Inv(s.(creations := s.creations[p := Failed]))
  {
    hide Inv;
    ShuffleKeeps(s, s.room, s.mediaRooms, s.creations[p := Failed]);
  }

  lemma StepKeeps(s: State, e: Event)
    requires Inv(s)
    ensures Inv(Step(s, e))
  {
    hide Inv, StepClient, StepCreation, ExecRequest;
    match e {
      case Connect(p, i) => if p !in s.clients { ConnectKeeps(s, p, i); }
      case Ask(r, kind) => if r !in s.requests { AskKeeps(s, r, kind); }
      case Serve(r) => if r in s.requests { ServeKeeps(s, r); }
      case FailRequest(r) =>
        if r in s.requests { AdvanceKeeps(s, r, s.requests[r], Refused); }
      case PickNode(p, _) => if p in s.creations { CreationKeeps(s, e, p, s.creations[p]); }
      case ExecCreation(p) => if p in s.creations { CreationKeeps(s, e, p, s.creations[p]); }
      case FailCreation(p) => FailedCreationKeeps(s, p);
      case _ => if e.p in s.clients { ClientKeeps(s, e, e.p); }
    }
  }

  /** The invariant holds after every sequence of events whatsoever. */
  lemma {:induction false} AfterKeeps(es: seq<Event>)
    ensures Inv(After(INIT, es))
  {
    if es == [] {
      InitInv();
    } else {
      AfterKeeps(es[..|es| - 1]);
      StepKeeps(After(INIT, es[..|es| - 1]), es[|es| - 1]);
    }
  }

  lemma ReachableKeeps(s: State)
    requires Reachable(s)
    ensures Inv(s)
  {
    hide After, Inv;
    var es :| Leads(INIT, es, s);
    AfterKeeps(es);
  }
}
