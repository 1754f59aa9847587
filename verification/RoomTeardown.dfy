/** A room that everybody leaves. No joins, no requests and no creations are in
    flight; sockets disconnect in any order, the steps of their `leave` calls
    interleave in any way, and any of their commands and requests may fail. */
module RoomTeardown {
  import opened Wrappers
  import opened RoomProtocol

  type Clients = map<PeerId, Client>

  // ----- Where a leaving peer is -----

  predicate StillMember(pc: Pc) {
    pc.Joined? || pc.LeaveGet? || pc.LeavePeer?
  }

  predicate BeforeDrop(pc: Pc) {
    StillMember(pc) || pc.LeaveProducers?
  }

  predicate BeforeSfu(pc: Pc) {
    BeforeDrop(pc) || pc.LeaveSfu?
  }

  predicate BeforeScript(pc: Pc) {
    BeforeSfu(pc) || pc.LeaveCheck? || pc.LeaveKeys? || pc.LeaveScript?
  }

  /** Its script has found the hash empty. */
  predicate PastScript(pc: Pc) {
    pc.LeaveClean? || pc.SfuClose?
  }

  predicate Unfinished(pc: Pc) {
    BeforeScript(pc) || PastScript(pc)
  }

  predicate OnNode(pc: Pc, n: Node) {
    match pc
    case LeavePeer(m) => m == n
    case LeaveProducers(m) => m == n
    case LeaveSfu(m) => m == n
    case LeaveCheck(m) => m == n
    case LeaveKeys(m) => m == n
    case LeaveScript(m, _) => m == n
    case LeaveClean(m, _) => m == n
    case SfuClose(m) => m == n
    case Joined => true
    case LeaveGet => true
    case _ => false
  }

  /** Where each handler is, or was last if it has left. */
  function Places(cs: Clients, cameFrom: map<PeerId, Pc>): Clients {
    map p | p in cs :: if cs[p].pc.Left? && p in cameFrom then Client(cs[p].instance, cameFrom[p]) else cs[p]
  }

  // ----- The starting point and the events -----

  predicate Settled(creations: map<PeerId, Creation>, requests: map<ProducerId, Request>) {
    && (forall p | p in creations :: creations[p].Created? || creations[p].Failed?)
    && forall r | r in requests :: requests[r].pc.Answered? || requests[r].pc.Refused?
  }

  /** The room is recorded on `n`, its members are connected and have sent nothing
      to the sfu yet, everybody else is gone, and nobody outside the room has an
      sfu peer or a producers hash. */
  ghost predicate Occupied(s: State, n: Node) {
    && s.room == Some(n) && s.peers != {} && Settled(s.creations, s.requests)
    && (forall p | p in s.peers :: p in s.clients && s.clients[p].pc.Joined?)
    && (forall p | p in s.clients && p !in s.peers :: s.clients[p].pc.Left? || s.clients[p].pc.Rejected?)
    && s.producers.Keys <= s.peers && SfuPeers(s.mediaRooms, n) <= s.peers
    && s.h.lost !! s.peers && s.h.tried !! s.peers && s.h.closes.Keys !! s.peers
  }

  function SfuPeers(mediaRooms: map<Node, set<PeerId>>, n: Node): set<PeerId> {
    if n in mediaRooms then mediaRooms[n] else {}
  }

  /** Nobody arrives and nobody asks. */
  predicate Departures(es: seq<Event>) {
    forall i | 0 <= i < |es| :: !es[i].Connect? && !es[i].Ask?
  }

  // ----- The invariant -----

  /** What never changes once everybody is leaving: who they are and, where the
      node had a MediaRoom, the peers in it. */
  datatype Start = Start(n: Node, members: set<PeerId>, hadRoom: bool, sfuPeers: set<PeerId>)

  /** Everybody else is gone. */
  ghost predicate Elsewhere(cs: Clients, st: Start) {
    forall p | p in cs && p !in st.members :: cs[p].pc.Left? || cs[p].pc.Rejected?
  }

  // `at` says where each handler is or was last.

  ghost predicate Positions(at: Clients, st: Start) {
    st.members <= at.Keys && forall p | p in st.members :: OnNode(at[p].pc, st.n)
  }

  ghost predicate MembersStay(at: Clients, peers: set<PeerId>, st: Start)
    requires st.members <= at.Keys
  {
    && peers <= st.members
    && forall p | p in st.members :: p in peers <==> StillMember(at[p].pc)
  }

  ghost predicate RecordStays(room: Option<Node>, peers: set<PeerId>, st: Start) {
    room == Some(st.n) || (room == None && peers == {})
  }

  /** The record is gone exactly if somebody's script has found the hash empty. */
  ghost predicate ScriptRan(at: Clients, room: Option<Node>, st: Start)
    requires st.members <= at.Keys
  {
    room == None <==> exists p :: p in st.members && PastScript(at[p].pc)
  }

  ghost predicate OwnersStay(at: Clients, producers: map<PeerId, set<ProducerId>>, st: Start)
    requires st.members <= at.Keys
  {
    forall p | p in producers :: p in st.members && BeforeDrop(at[p].pc)
  }

  /** The sfu still holds exactly the peers whose removal has not been tried yet
      and those whose removal was lost. */
  ghost predicate SfuStays(at: Clients, mediaRooms: map<Node, set<PeerId>>, lost: set<PeerId>, st: Start)
    requires st.members <= at.Keys
  {
    && st.sfuPeers <= st.members
    && (forall p | p in st.members && p in lost :: !BeforeSfu(at[p].pc))
    && (st.n in mediaRooms ==> st.hadRoom && mediaRooms[st.n] <= st.sfuPeers)
    && (st.n in mediaRooms ==> forall p | p in st.sfuPeers ::
          p in mediaRooms[st.n] <==> BeforeSfu(at[p].pc) || p in lost)
    && (st.hadRoom && st.n !in mediaRooms ==> forall p | p in st.sfuPeers :: !BeforeSfu(at[p].pc) && p !in lost)
  }

  ghost predicate TriedStays(at: Clients, tried: set<PeerId>, st: Start)
    requires st.members <= at.Keys
  {
    forall p | p in st.members :: p in tried <==> !BeforeSfu(at[p].pc)
  }

  /** `p`'s close reached the sfu, behind the last removal of the MediaRoom's peers. */
  predicate CameLast(closes: map<PeerId, SentClose>, sfuPeers: set<PeerId>, p: PeerId) {
    p in closes && closes[p].arrived && sfuPeers <= closes[p].tried
  }

  /** The MediaRoom is gone only through such a close, and with it unless a removal
      was lost. */
  ghost predicate ClosesStay(mediaRooms: map<Node, set<PeerId>>, lost: set<PeerId>, closes: map<PeerId, SentClose>,
                             st: Start)
  {
    && (st.hadRoom && st.n !in mediaRooms ==> exists p :: p in st.members && CameLast(closes, st.sfuPeers, p))
    && (st.sfuPeers * lost == {} && st.n in mediaRooms ==>
          forall p | p in st.members :: !CameLast(closes, st.sfuPeers, p))
  }

  /** A leave ends at one of its commands, and a close was sent by exactly those whose
      leave ended with it. */
  ghost predicate Endings(cs: Clients, at: Clients, closes: map<PeerId, SentClose>, st: Start)
    requires st.members <= cs.Keys && st.members <= at.Keys
  {
    && (forall p | p in st.members && cs[p].pc.Left? :: Departing(at[p].pc) || Closing(at[p].pc))
    && forall p | p in st.members :: p in closes.Keys <==> cs[p].pc.Left? && at[p].pc.SfuClose?
  }

  ghost predicate Facts(s: State, at: Clients, st: Start) {
    && Settled(s.creations, s.requests)
    && Elsewhere(s.clients, st)
    && st.members <= s.clients.Keys
    && Positions(at, st)
    && MembersStay(at, s.peers, st)
    && RecordStays(s.room, s.peers, st)
    && ScriptRan(at, s.room, st)
    && OwnersStay(at, s.producers, st)
    && SfuStays(at, s.mediaRooms, s.h.lost, st)
    && TriedStays(at, s.h.tried, st)
    && ClosesStay(s.mediaRooms, s.h.lost, s.h.closes, st)
    && Endings(s.clients, at, s.h.closes, st)
  }

  ghost predicate Teardown(s: State, st: Start) {
    Facts(s, Places(s.clients, s.cameFrom), st)
  }

  function StartOf(s: State, n: Node): Start {
    Start(n, s.peers, n in s.mediaRooms, SfuPeers(s.mediaRooms, n))
  }

  lemma TeardownStarts(s: State, n: Node)
    requires Occupied(s, n)
    ensures Teardown(s, StartOf(s, n))
  {
    SomeMember(s.peers);
    var at := Places(s.clients, s.cameFrom);
    forall q | q in s.peers ensures q in s.clients.Keys && at[q].pc.Joined? && q !in s.h.closes.Keys {
    }
    assert Positions(at, StartOf(s, n));
  }

  // ----- Moving one peer, fact by fact -----

  function Move(cs: Clients, p: PeerId, pc: Pc): Clients {
    if p in cs then cs[p := Client(cs[p].instance, pc)] else cs
  }

  /** Ending leaves a handler's place where it was. */
  function Moved(at: Clients, p: PeerId, pc: Pc): Clients {
    if pc.Left? then at else Move(at, p, pc)
  }

  lemma PlacesMove(cs: Clients, cameFrom: map<PeerId, Pc>, p: PeerId, pc: Pc)
    requires p in cs && !cs[p].pc.Left?
    ensures Places(cs, cameFrom)[p] == cs[p]
    ensures Places(cs[p := Client(cs[p].instance, pc)], cameFrom[p := cs[p].pc]) == Moved(Places(cs, cameFrom), p, pc)
  {
    var t := Places(cs[p := Client(cs[p].instance, pc)], cameFrom[p := cs[p].pc]);
    var u := Moved(Places(cs, cameFrom), p, pc);
    assert t.Keys == u.Keys;
    forall q | q in t ensures t[q] == u[q] {
    }
  }

  lemma PositionsMove(at: Clients, st: Start, p: PeerId, pc: Pc)
    requires Positions(at, st) && p in st.members && (pc.Left? || OnNode(pc, st.n))
    ensures Positions(Moved(at, p, pc), st)
  {
  }

  lemma MembersMove(at: Clients, peers: set<PeerId>, st: Start, p: PeerId, pc: Pc)
    requires st.members <= at.Keys && MembersStay(at, peers, st) && p in st.members
    requires pc.Left? || (StillMember(pc) <==> StillMember(at[p].pc))
    ensures st.members <= Moved(at, p, pc).Keys && MembersStay(Moved(at, p, pc), peers, st)
  {
  }

  lemma ScriptMove(at: Clients, room: Option<Node>, st: Start, p: PeerId, pc: Pc)
    requires st.members <= at.Keys && ScriptRan(at, room, st) && p in st.members
    requires pc.Left? || (PastScript(pc) <==> PastScript(at[p].pc))
    ensures st.members <= Moved(at, p, pc).Keys && ScriptRan(Moved(at, p, pc), room, st)
  {
    var u := Moved(at, p, pc);
    forall q | q in st.members ensures PastScript(u[q].pc) <==> PastScript(at[q].pc) {
    }
    if room == None {
      var q :| q in st.members && PastScript(at[q].pc);
      assert PastScript(u[q].pc);
    }
  }

  lemma OwnersMove(at: Clients, producers: map<PeerId, set<ProducerId>>, st: Start, p: PeerId, pc: Pc)
    requires st.members <= at.Keys && OwnersStay(at, producers, st) && p in st.members
    requires pc.Left? || (BeforeDrop(pc) <==> BeforeDrop(at[p].pc))
    ensures st.members <= Moved(at, p, pc).Keys && OwnersStay(Moved(at, p, pc), producers, st)
  {
  }

  lemma SfuMove(at: Clients, mediaRooms: map<Node, set<PeerId>>, lost: set<PeerId>, st: Start, p: PeerId, pc: Pc)
    requires st.members <= at.Keys && SfuStays(at, mediaRooms, lost, st) && p in st.members
    requires pc.Left? || (BeforeSfu(pc) <==> BeforeSfu(at[p].pc))
    ensures st.members <= Moved(at, p, pc).Keys && SfuStays(Moved(at, p, pc), mediaRooms, lost, st)
  {
  }

  lemma TriedMove(at: Clients, tried: set<PeerId>, st: Start, p: PeerId, pc: Pc)
    requires st.members <= at.Keys && TriedStays(at, tried, st) && p in st.members
    requires pc.Left? || (BeforeSfu(pc) <==> BeforeSfu(at[p].pc))
    ensures st.members <= Moved(at, p, pc).Keys && TriedStays(Moved(at, p, pc), tried, st)
  {
  }

  /** What the step of member `p` says of who is where and who has sent a close. */
  lemma HandlersMove(s: State, t: State, st: Start, p: PeerId, pc: Pc)
    requires Teardown(s, st) && p in st.members && p in s.clients && Unfinished(s.clients[p].pc)
    requires if pc.Left? then Departing(s.clients[p].pc) || Closing(s.clients[p].pc) else OnNode(pc, st.n)
    requires t.clients == s.clients && t.cameFrom == s.cameFrom
    requires if pc.Left? && s.clients[p].pc.SfuClose? then t.h.closes.Keys == s.h.closes.Keys + {p}
             else t.h.closes.Keys == s.h.closes.Keys
    ensures var at, u := Places(s.clients, s.cameFrom), Goto(t, p, s.clients[p], pc);
            && st.members <= at.Keys && at[p] == s.clients[p] && p !in s.h.closes.Keys
            && Places(u.clients, u.cameFrom) == Moved(at, p, pc) && Positions(Moved(at, p, pc), st)
            && Elsewhere(u.clients, st) && st.members <= u.clients.Keys
            && Endings(u.clients, Moved(at, p, pc), u.h.closes, st)
  {
    hide Settled, MembersStay, RecordStays, OwnersStay, SfuStays, ScriptRan, TriedStays, ClosesStay, Places;
    PlacesMove(s.clients, s.cameFrom, p, pc);
    PositionsMove(Places(s.clients, s.cameFrom), st, p, pc);
    SentMove(s.clients, Places(s.clients, s.cameFrom), s.h.closes, t.h.closes, st, p, pc);
  }

  lemma SentMove(cs: Clients, at: Clients, closes: map<PeerId, SentClose>, now: map<PeerId, SentClose>, st: Start,
                 p: PeerId, pc: Pc)
    requires st.members <= cs.Keys && st.members <= at.Keys && Endings(cs, at, closes, st)
    requires p in st.members && at[p] == cs[p] && Unfinished(cs[p].pc)
    requires pc.Left? ==> Departing(cs[p].pc) || Closing(cs[p].pc)
    requires now.Keys == if pc.Left? && cs[p].pc.SfuClose? then closes.Keys + {p} else closes.Keys
    ensures p !in closes.Keys
    ensures var cs', at' := cs[p := Client(cs[p].instance, pc)], Moved(at, p, pc);
            st.members <= cs'.Keys && st.members <= at'.Keys && Endings(cs', at', now, st)
  {
  }

  // ----- The steps of leave -----

  lemma GotoShares(s: State, p: PeerId, c: Client, pc: Pc)
    ensures var t := Goto(s, p, c, pc);
            && t.room == s.room && t.peers == s.peers && t.producers == s.producers && t.mediaRooms == s.mediaRooms
            && t.creations == s.creations && t.requests == s.requests && t.h == s.h
  {
  }

  /** A step that touches nothing shared. */
  lemma SilentStep(s: State, st: Start, p: PeerId, pc: Pc)
    requires Teardown(s, st) && p in st.members && p in s.clients && OnNode(pc, st.n)
    requires var was := s.clients[p].pc;
             && (StillMember(pc) <==> StillMember(was)) && (BeforeDrop(pc) <==> BeforeDrop(was))
             && (BeforeSfu(pc) <==> BeforeSfu(was)) && (PastScript(pc) <==> PastScript(was))
             && Unfinished(was)
    ensures Teardown(Goto(s, p, s.clients[p], pc), st)
  {
    hide Settled, Elsewhere, Positions, MembersStay, RecordStays, ScriptRan, OwnersStay, SfuStays, TriedStays,
         ClosesStay, Endings, Places, Moved, Goto;
    var at := Places(s.clients, s.cameFrom);
    GotoShares(s, p, s.clients[p], pc);
    HandlersMove(s, s, st, p, pc);
    SharedMove(s, at, st, p, pc);
  }

  /** A leave that ends, but for one that ends with its close. */
  lemma EndStep(s: State, st: Start, p: PeerId)
    requires Teardown(s, st) && p in st.members && p in s.clients
    requires (Departing(s.clients[p].pc) || Closing(s.clients[p].pc)) && !s.clients[p].pc.SfuClose?
    ensures Teardown(Goto(s, p, s.clients[p], Left), st)
  {
    hide Settled, Elsewhere, Positions, MembersStay, RecordStays, ScriptRan, OwnersStay, SfuStays, TriedStays,
         ClosesStay, Endings, Places, Moved, Goto;
    var at := Places(s.clients, s.cameFrom);
    GotoShares(s, p, s.clients[p], Left);
    HandlersMove(s, s, st, p, Left);
    SharedMove(s, at, st, p, Left);
  }

  lemma SharedMove(s: State, at: Clients, st: Start, p: PeerId, pc: Pc)
    requires Facts(s, at, st) && p in st.members && p in at
    requires pc.Left? || (&& (StillMember(pc) <==> StillMember(at[p].pc)) && (BeforeDrop(pc) <==> BeforeDrop(at[p].pc))
                          && (BeforeSfu(pc) <==> BeforeSfu(at[p].pc)) && (PastScript(pc) <==> PastScript(at[p].pc)))
    ensures var u := Moved(at, p, pc);
            && st.members <= u.Keys && MembersStay(u, s.peers, st) && ScriptRan(u, s.room, st)
            && OwnersStay(u, s.producers, st) && SfuStays(u, s.mediaRooms, s.h.lost, st) && TriedStays(u, s.h.tried, st)
  {
    hide Settled, Elsewhere, MembersStay, RecordStays, ScriptRan, OwnersStay, SfuStays, TriedStays,
         ClosesStay, Endings, Moved;
    MembersMove(at, s.peers, st, p, pc);
    ScriptMove(at, s.room, st, p, pc);
    OwnersMove(at, s.producers, st, p, pc);
    SfuMove(at, s.mediaRooms, s.h.lost, st, p, pc);
    TriedMove(at, s.h.tried, st, p, pc);
  }

  lemma HdelStep(s: State, st: Start, p: PeerId)
    requires Teardown(s, st) && p in st.members && p in s.clients && s.clients[p].pc == LeavePeer(st.n)
    ensures Teardown(Goto(RemoveFromPeers(s, p), p, s.clients[p], LeaveProducers(st.n)), st)
  {
    hide Settled, Elsewhere, Positions, MembersStay, ScriptRan, OwnersStay, SfuStays, TriedStays,
         ClosesStay, Endings, Places, Moved;
    var at, pc := Places(s.clients, s.cameFrom), LeaveProducers(st.n);
    HandlersMove(s, RemoveFromPeers(s, p), st, p, pc);
    HdelMembers(at, s.peers, st, p, pc);
    ScriptMove(at, s.room, st, p, pc);
    OwnersMove(at, s.producers, st, p, pc);
    SfuMove(at, s.mediaRooms, s.h.lost, st, p, pc);
    TriedMove(at, s.h.tried, st, p, pc);
  }

  lemma HdelMembers(at: Clients, peers: set<PeerId>, st: Start, p: PeerId, pc: Pc)
    requires st.members <= at.Keys && MembersStay(at, peers, st) && p in st.members && !StillMember(pc) && !pc.Left?
    ensures st.members <= Moved(at, p, pc).Keys && MembersStay(Moved(at, p, pc), peers - {p}, st)
  {
  }

  lemma DropStep(s: State, st: Start, p: PeerId)
    requires Teardown(s, st) && p in st.members && p in s.clients && s.clients[p].pc == LeaveProducers(st.n)
    ensures Teardown(Goto(DropProducers(s, p), p, s.clients[p], LeaveSfu(st.n)), st)
  {
    hide Settled, Elsewhere, Positions, MembersStay, RecordStays, ScriptRan, OwnersStay, SfuStays, TriedStays,
         ClosesStay, Endings, Places, Moved;
    var at, pc := Places(s.clients, s.cameFrom), LeaveSfu(st.n);
    HandlersMove(s, DropProducers(s, p), st, p, pc);
    MembersMove(at, s.peers, st, p, pc);
    ScriptMove(at, s.room, st, p, pc);
    DropOwners(at, s.producers, st, p, pc);
    SfuMove(at, s.mediaRooms, s.h.lost, st, p, pc);
    TriedMove(at, s.h.tried, st, p, pc);
  }

  lemma DropOwners(at: Clients, producers: map<PeerId, set<ProducerId>>, st: Start, p: PeerId, pc: Pc)
    requires st.members <= at.Keys && OwnersStay(at, producers, st) && p in st.members
    ensures st.members <= Moved(at, p, pc).Keys && OwnersStay(Moved(at, p, pc), producers - {p}, st)
  {
  }

  /** One producers hash less, whoever still has deletions on their way. */
  lemma FewerOwners(s: State, st: Start, o: PeerId, stray: map<PeerId, set<PeerId>>)
    requires Teardown(s, st)
    ensures Teardown(DropProducers(s, o).(stray := stray), st)
  {
    hide Settled, Elsewhere, Positions, MembersStay, RecordStays, ScriptRan, SfuStays, TriedStays, ClosesStay,
         Endings, Places;
  }

  lemma StrayAside(s: State, st: Start, stray: map<PeerId, set<PeerId>>)
    requires Teardown(s, st)
    ensures Teardown(s.(stray := stray), st)
  {
    hide Settled, Elsewhere, Positions, MembersStay, RecordStays, ScriptRan, OwnersStay, SfuStays, TriedStays,
         ClosesStay, Endings, Places;
  }

  lemma CleanStep(s: State, st: Start, p: PeerId, o: PeerId, pc: Pc)
    requires Teardown(s, st) && p in st.members && p in s.clients && s.clients[p].pc.LeaveClean?
    requires pc.LeaveClean? && pc.node == st.n
    ensures Teardown(Goto(DropProducers(s, o), p, s.clients[p], pc), st)
  {
    hide Teardown;
    FewerOwners(s, st, o, s.stray);
    SilentStep(DropProducers(s, o).(stray := s.stray), st, p, pc);
  }

  lemma FailCleanStep(s: State, st: Start, p: PeerId, stray: map<PeerId, set<PeerId>>)
    requires Teardown(s, st) && p in st.members && p in s.clients && s.clients[p].pc.LeaveClean?
    ensures Teardown(Goto(s.(stray := stray), p, s.clients[p], Left), st)
  {
    hide Teardown;
    StrayAside(s, st, stray);
    EndStep(s.(stray := stray), st, p);
  }

  /** The sfu removal arrives, or it is lost: either way the peer moves on. */
  lemma RemovalStep(s: State, st: Start, p: PeerId, mediaRooms: map<Node, set<PeerId>>, lost: set<PeerId>,
                    arrived: bool)
    requires Teardown(s, st) && p in st.members && p in s.clients && s.clients[p].pc == LeaveSfu(st.n)
    requires mediaRooms == if arrived then Without(s.mediaRooms, st.n, p) else s.mediaRooms
    requires lost == if arrived then s.h.lost else s.h.lost + {p}
    ensures var h := s.h.(tried := s.h.tried + {p}, lost := lost);
            Teardown(Goto(s.(mediaRooms := mediaRooms, h := h), p, s.clients[p], LeaveCheck(st.n)), st)
  {
    hide Settled, Elsewhere, Positions, MembersStay, RecordStays, ScriptRan, OwnersStay, SfuStays, TriedStays,
         ClosesStay, Endings, Places, Moved, Without;
    var at, pc := Places(s.clients, s.cameFrom), LeaveCheck(st.n);
    HandlersMove(s, s.(mediaRooms := mediaRooms, h := s.h.(tried := s.h.tried + {p}, lost := lost)), st, p, pc);
    MembersMove(at, s.peers, st, p, pc);
    ScriptMove(at, s.room, st, p, pc);
    OwnersMove(at, s.producers, st, p, pc);
    Trying(at, s.h.tried, st, p, pc);
    if arrived {
      RemovalArrives(at, s.mediaRooms, s.h.lost, st, p, pc);
      FewerPeers(s.mediaRooms, s.h.lost, s.h.closes, st, p);
    } else {
      RemovalLost(at, s.mediaRooms, s.h.lost, st, p, pc);
      MoreLost(s.mediaRooms, s.h.lost, s.h.closes, st, p);
    }
  }

  function Without(mediaRooms: map<Node, set<PeerId>>, n: Node, p: PeerId): map<Node, set<PeerId>> {
    if n in mediaRooms then mediaRooms[n := mediaRooms[n] - {p}] else mediaRooms
  }

  lemma Trying(at: Clients, tried: set<PeerId>, st: Start, p: PeerId, pc: Pc)
    requires st.members <= at.Keys && TriedStays(at, tried, st) && p in st.members && !BeforeSfu(pc) && !pc.Left?
    ensures st.members <= Moved(at, p, pc).Keys && TriedStays(Moved(at, p, pc), tried + {p}, st)
  {
  }

  lemma RemovalArrives(at: Clients, mediaRooms: map<Node, set<PeerId>>, lost: set<PeerId>, st: Start, p: PeerId, pc: Pc)
    requires st.members <= at.Keys && SfuStays(at, mediaRooms, lost, st) && p in st.members
    requires BeforeSfu(at[p].pc) && !BeforeSfu(pc) && !pc.Left?
    ensures st.members <= Moved(at, p, pc).Keys && SfuStays(Moved(at, p, pc), Without(mediaRooms, st.n, p), lost, st)
  {
  }

  lemma FewerPeers(mediaRooms: map<Node, set<PeerId>>, lost: set<PeerId>, closes: map<PeerId, SentClose>,
                   st: Start, p: PeerId)
    requires ClosesStay(mediaRooms, lost, closes, st)
    ensures ClosesStay(Without(mediaRooms, st.n, p), lost, closes, st)
  {
    hide CameLast;
  }

  lemma RemovalLost(at: Clients, mediaRooms: map<Node, set<PeerId>>, lost: set<PeerId>, st: Start, p: PeerId, pc: Pc)
    requires st.members <= at.Keys && SfuStays(at, mediaRooms, lost, st) && p in st.members
    requires BeforeSfu(at[p].pc) && !BeforeSfu(pc) && !pc.Left?
    ensures st.members <= Moved(at, p, pc).Keys && SfuStays(Moved(at, p, pc), mediaRooms, lost + {p}, st)
  {
  }

  lemma MoreLost(mediaRooms: map<Node, set<PeerId>>, lost: set<PeerId>, closes: map<PeerId, SentClose>,
                 st: Start, p: PeerId)
    requires ClosesStay(mediaRooms, lost, closes, st)
    ensures ClosesStay(mediaRooms, lost + {p}, closes, st)
  {
    hide CameLast;
    assert st.sfuPeers * lost <= st.sfuPeers * (lost + {p});
  }

  lemma ScriptStep(s: State, st: Start, p: PeerId, pc: Pc)
    requires Teardown(s, st) && p in st.members && p in s.clients && s.peers == {}
    requires s.clients[p].pc.LeaveScript? && pc.LeaveClean? && pc.node == st.n
    ensures Teardown(Goto(CloseIfEmpty(s), p, s.clients[p], pc), st)
  {
    hide Settled, Elsewhere, Positions, MembersStay, ScriptRan, OwnersStay, SfuStays, TriedStays,
         ClosesStay, Endings, Places, Moved;
    var at := Places(s.clients, s.cameFrom);
    HandlersMove(s, CloseIfEmpty(s), st, p, pc);
    MembersMove(at, s.peers, st, p, pc);
    ScriptCloses(at, st, p, pc);
    OwnersMove(at, s.producers, st, p, pc);
    SfuMove(at, s.mediaRooms, s.h.lost, st, p, pc);
    TriedMove(at, s.h.tried, st, p, pc);
  }

  lemma ScriptCloses(at: Clients, st: Start, p: PeerId, pc: Pc)
    requires st.members <= at.Keys && p in st.members && pc.LeaveClean?
    ensures st.members <= Moved(at, p, pc).Keys && ScriptRan(Moved(at, p, pc), None, st)
  {
    assert PastScript(Moved(at, p, pc)[p].pc);
  }

  /** The close arrives, or it is lost. */
  lemma SfuCloseStep(s: State, st: Start, p: PeerId, mediaRooms: map<Node, set<PeerId>>, arrived: bool)
    requires Teardown(s, st) && p in st.members && p in s.clients && s.clients[p].pc == SfuClose(st.n)
    requires mediaRooms == if arrived then Emptied(s.mediaRooms, st.n) else s.mediaRooms
    ensures Teardown(Goto(s.(mediaRooms := mediaRooms, h := NoteClose(s.h, p, arrived)), p, s.clients[p], Left), st)
  {
    hide Settled, Elsewhere, Positions, MembersStay, RecordStays, ScriptRan, OwnersStay, SfuStays, TriedStays,
         ClosesStay, Endings, Places, Moved, Emptied;
    var at, t := Places(s.clients, s.cameFrom), s.(mediaRooms := mediaRooms, h := NoteClose(s.h, p, arrived));
    assert t.h.closes.Keys == s.h.closes.Keys + {p};
    HandlersMove(s, t, st, p, Left);
    SharedMove(s, at, st, p, Left);
    Unmoved(at, p);
    if arrived {
      CloseArrives(at, s.mediaRooms, s.h.lost, s.h.tried, s.h.closes, st, p);
    } else {
      CloseLost(s.mediaRooms, s.h.lost, s.h.tried, s.h.closes, st, p);
    }
  }

  lemma Unmoved(at: Clients, p: PeerId)
    ensures Moved(at, p, Left) == at
  {
  }

  function Emptied(mediaRooms: map<Node, set<PeerId>>, n: Node): map<Node, set<PeerId>> {
    if n in mediaRooms && mediaRooms[n] == {} then mediaRooms - {n} else mediaRooms
  }

  /** The close deletes a MediaRoom exactly when nobody is in it: when every removal
      has been tried and none was lost. */
  lemma CloseArrives(at: Clients, mediaRooms: map<Node, set<PeerId>>, lost: set<PeerId>, tried: set<PeerId>,
                     closes: map<PeerId, SentClose>, st: Start, p: PeerId)
    requires st.members <= at.Keys && SfuStays(at, mediaRooms, lost, st) && TriedStays(at, tried, st)
    requires ClosesStay(mediaRooms, lost, closes, st) && p in st.members && p !in closes
    ensures SfuStays(at, Emptied(mediaRooms, st.n), lost, st)
    ensures ClosesStay(Emptied(mediaRooms, st.n), lost, closes[p := SentClose(tried, true)], st)
  {
    EmptyMeansTried(at, mediaRooms, lost, tried, st);
    hide SfuStays, TriedStays;
    var now := closes[p := SentClose(tried, true)];
    forall q | q != p ensures CameLast(now, st.sfuPeers, q) == CameLast(closes, st.sfuPeers, q) {
    }
    assert CameLast(now, st.sfuPeers, p) <==> st.sfuPeers <= tried;
    if st.hadRoom && st.n !in Emptied(mediaRooms, st.n) && st.n !in mediaRooms {
      var q :| q in st.members && CameLast(closes, st.sfuPeers, q);
      assert CameLast(now, st.sfuPeers, q);
    }
  }

  lemma EmptyMeansTried(at: Clients, mediaRooms: map<Node, set<PeerId>>, lost: set<PeerId>, tried: set<PeerId>,
                        st: Start)
    requires st.members <= at.Keys && SfuStays(at, mediaRooms, lost, st) && TriedStays(at, tried, st)
    ensures SfuStays(at, Emptied(mediaRooms, st.n), lost, st)
    ensures st.n in mediaRooms ==> (mediaRooms[st.n] == {} <==> st.sfuPeers <= tried && st.sfuPeers * lost == {})
  {
    if st.n in mediaRooms {
      forall p ensures p in mediaRooms[st.n] <==> p in st.sfuPeers && (p !in tried || p in lost) {
      }
      if st.sfuPeers <= tried && st.sfuPeers * lost == {} {
        forall p ensures p !in mediaRooms[st.n] {
          assert p in st.sfuPeers && p in lost ==> p in st.sfuPeers * lost;
        }
      }
    }
  }

  lemma CloseLost(mediaRooms: map<Node, set<PeerId>>, lost: set<PeerId>, tried: set<PeerId>,
                  closes: map<PeerId, SentClose>, st: Start, p: PeerId)
    requires ClosesStay(mediaRooms, lost, closes, st) && p !in closes
    ensures ClosesStay(mediaRooms, lost, closes[p := SentClose(tried, false)], st)
  {
    var now := closes[p := SentClose(tried, false)];
    forall q ensures CameLast(now, st.sfuPeers, q) == CameLast(closes, st.sfuPeers, q) {
    }
  }

  lemma DisconnectStep(s: State, st: Start, p: PeerId)
    requires Teardown(s, st) && p in st.members && p in s.clients && s.clients[p].pc.Joined?
    ensures Teardown(Goto(s.(sockets := s.sockets - {p}), p, s.clients[p], LeaveGet), st)
  {
    hide Facts;
    SocketsAside(s, s.sockets - {p}, st);
    hide Teardown;
    SilentStep(s.(sockets := s.sockets - {p}), st, p, LeaveGet);
  }

  lemma SocketsAside(s: State, sockets: set<PeerId>, st: Start)
    requires Teardown(s, st)
    ensures Teardown(s.(sockets := sockets), st)
  {
    hide Settled, Elsewhere, Positions, MembersStay, RecordStays, ScriptRan, OwnersStay, SfuStays, TriedStays,
         ClosesStay, Endings, Places;
  }

  lemma DepartStep(s: State, st: Start, p: PeerId)
    requires Teardown(s, st) && p in st.members && p in s.clients && Departing(s.clients[p].pc)
    ensures Teardown(ExecDepart(s, p, s.clients[p]), st)
  {
    hide Teardown, Goto, RemoveFromPeers, DropProducers, SfuRemovePeer;
    OnNodeFact(s, st, p);
    match s.clients[p].pc {
      case LeaveGet => RecordFact(s, st, p); SilentStep(s, st, p, LeavePeer(st.n));
      case LeavePeer(n) => HdelStep(s, st, p);
      case LeaveProducers(n) => DropStep(s, st, p);
      case LeaveSfu(n) =>
        RemovalStep(s, st, p, Without(s.mediaRooms, n, p), s.h.lost, true);
        Removing(s, n, p);
    }
  }

  lemma Removing(s: State, n: Node, p: PeerId)
    ensures SfuRemovePeer(s, n, p) ==
            s.(mediaRooms := Without(s.mediaRooms, n, p), h := s.h.(tried := s.h.tried + {p}))
  {
  }

  lemma ClosingMediaRoom(s: State, n: Node, p: PeerId)
    ensures SfuCloseRoom(s, n, p) == s.(mediaRooms := Emptied(s.mediaRooms, n), h := NoteClose(s.h, p, true))
  {
  }

  lemma OnNodeFact(s: State, st: Start, p: PeerId)
    requires Teardown(s, st) && p in st.members
    ensures p in s.clients && (s.clients[p].pc.Left? || OnNode(s.clients[p].pc, st.n))
  {
    hide Settled, Elsewhere, MembersStay, RecordStays, ScriptRan, OwnersStay, SfuStays, TriedStays, ClosesStay,
         Endings;
  }

  /** A peer that has yet to look the record up is in the hash, so the record is there. */
  lemma RecordFact(s: State, st: Start, p: PeerId)
    requires Teardown(s, st) && p in st.members && p in s.clients && s.clients[p].pc.LeaveGet?
    ensures s.room == Some(st.n)
  {
    hide Settled, Elsewhere, ScriptRan, OwnersStay, SfuStays, TriedStays, ClosesStay, Endings;
    assert Places(s.clients, s.cameFrom)[p] == s.clients[p];
    assert p in s.peers;
  }

  lemma CloseStep(s: State, st: Start, p: PeerId)
    requires Teardown(s, st) && p in st.members && p in s.clients && Closing(s.clients[p].pc)
    ensures Teardown(ExecClose(s, p, s.clients[p]), st)
  {
    hide Teardown, Goto, CloseIfEmpty, SfuCloseRoom;
    OnNodeFact(s, st, p);
    match s.clients[p].pc {
      case LeaveCheck(n) => if s.peers == {} { SilentStep(s, st, p, LeaveKeys(n)); } else { EndStep(s, st, p); }
      case LeaveKeys(n) => SilentStep(s, st, p, LeaveScript(n, s.peers));
      case LeaveScript(n, keys) =>
        if s.peers == {} {
          ScriptStep(s, st, p, LeaveClean(n, keys));
        } else {
          EndStep(s, st, p);
          assert CloseIfEmpty(s) == s by { NothingClosed(s); }
        }
      case LeaveClean(n, keys) => if keys == {} { SilentStep(s, st, p, SfuClose(n)); }
      case SfuClose(n) =>
        SfuCloseStep(s, st, p, Emptied(s.mediaRooms, n), true);
        ClosingMediaRoom(s, n, p);
    }
  }

  lemma NothingClosed(s: State)
    requires s.peers != {}
    ensures CloseIfEmpty(s) == s
  {
  }

  lemma FailureStep(s: State, st: Start, p: PeerId)
    requires Teardown(s, st) && p in st.members && p in s.clients
    ensures Teardown(FailClient(s, p, s.clients[p]), st)
  {
    hide Teardown, Goto, NoteClose;
    OnNodeFact(s, st, p);
    match s.clients[p].pc {
      case LeaveSfu(_) => RemovalStep(s, st, p, s.mediaRooms, s.h.lost + {p}, false);
      case SfuClose(_) => SfuCloseStep(s, st, p, s.mediaRooms, false);
      case LeaveClean(_, _) =>
      case Joined =>
      case Left =>
      case _ => EndStep(s, st, p);
    }
  }

  lemma ClientStep(s: State, st: Start, e: Event, p: PeerId)
    requires Teardown(s, st) && p in st.members && p in s.clients
    ensures Teardown(StepClient(s, e, p, s.clients[p]), st)
  {
    hide Teardown, FailClient;
    OnNodeFact(s, st, p);
    match e {
      case Exec(_) =>
        if Departing(s.clients[p].pc) { DepartStep(s, st, p); }
        else if Closing(s.clients[p].pc) { CloseStep(s, st, p); }
      case Fail(_) => FailureStep(s, st, p);
      case Clean(_, o) => DeletionStep(s, st, p, o);
      case FailClean(_, o) =>
        if s.clients[p].pc.LeaveClean? && o in s.clients[p].pc.keys {
          FailCleanStep(s, st, p, s.stray[p := s.clients[p].pc.keys - {o}]);
        }
      case Disconnect(_) => if s.clients[p].pc.Joined? { DisconnectStep(s, st, p); }
      case _ =>
    }
  }

  lemma DeletionStep(s: State, st: Start, p: PeerId, o: PeerId)
    requires Teardown(s, st) && p in s.clients
    requires p in st.members || s.clients[p].pc.Left? || s.clients[p].pc.Rejected?
    ensures Teardown(CleanOne(s, p, s.clients[p], o), st)
  {
    hide Teardown, Goto, DropProducers;
    if p in st.members {
      OnNodeFact(s, st, p);
    }
    match s.clients[p].pc {
      case LeaveClean(n, keys) => if o in keys { CleanStep(s, st, p, o, LeaveClean(n, keys - {o})); }
      case Left => FewerOwners(s, st, o, s.stray[p := StrayOf(s, p) - {o}]);
      case _ =>
    }
  }

  /** Of a handler that is gone nothing is left but deletions on their way. */
  lemma GoneStep(s: State, st: Start, e: Event, p: PeerId)
    requires Teardown(s, st) && p in s.clients && p !in st.members
    ensures Teardown(StepClient(s, e, p, s.clients[p]), st)
  {
    hide Teardown;
    GoneFact(s, st, p);
    GoneSteps(s, e, p);
    if e.Clean? {
      DeletionStep(s, st, p, e.other);
    }
  }

  lemma GoneFact(s: State, st: Start, p: PeerId)
    requires Teardown(s, st) && p in s.clients && p !in st.members
    ensures s.clients[p].pc.Left? || s.clients[p].pc.Rejected?
  {
    hide Settled, MembersStay, RecordStays, ScriptRan, OwnersStay, SfuStays, TriedStays, ClosesStay, Endings,
         Positions, Places;
  }

  lemma GoneSteps(s: State, e: Event, p: PeerId)
    requires p in s.clients && (s.clients[p].pc.Left? || s.clients[p].pc.Rejected?)
    ensures StepClient(s, e, p, s.clients[p]) == if e.Clean? then CleanOne(s, p, s.clients[p], e.other) else s
  {
    hide Goto, LandStray, DropProducers;
  }

  /** A creation or request that is settled stays so. */
  lemma NothingLeftToDo(s: State, st: Start, e: Event)
    requires Teardown(s, st) && !e.Connect? && !e.Ask? && !ByHandler(e)
    ensures Teardown(Step(s, e), st)
  {
    hide Elsewhere, Positions, MembersStay, RecordStays, ScriptRan, OwnersStay, SfuStays, TriedStays, ClosesStay,
         Endings, Places;
    if !e.FailCreation? && !e.FailRequest? {
      assert Step(s, e) == s;
    }
  }

  predicate ByHandler(e: Event) {
    e.Exec? || e.Fail? || e.Fetch? || e.Clean? || e.FailClean? || e.Disconnect?
  }

  lemma TeardownStep(s: State, st: Start, e: Event)
    requires Teardown(s, st) && !e.Connect? && !e.Ask?
    ensures Teardown(Step(s, e), st)
  {
    hide Teardown, StepClient, StepCreation, StepRequest;
    if ByHandler(e) {
      if e.p in st.members {
        OnNodeFact(s, st, e.p);
        ClientStep(s, st, e, e.p);
      } else if e.p in s.clients {
        GoneStep(s, st, e, e.p);
      }
    } else {
      NothingLeftToDo(s, st, e);
    }
  }

  lemma {:induction false} TeardownRun(s: State, n: Node, es: seq<Event>)
    requires Occupied(s, n) && Departures(es)
    ensures Teardown(After(s, es), StartOf(s, n))
  {
    hide Teardown, Occupied, Step;
    if es == [] {
      TeardownStarts(s, n);
    } else {
      TeardownRun(s, n, es[..|es| - 1]);
      TeardownStep(After(s, es[..|es| - 1]), StartOf(s, n), es[|es| - 1]);
    }
  }

  // ----- What is left when everybody has left -----

  /** The command a leave ended with. */
  ghost predicate EndedAt(t: State, p: PeerId) {
    && p in t.clients && t.clients[p].pc.Left? && p in t.cameFrom
    && (Departing(t.cameFrom[p]) || Closing(t.cameFrom[p]))
  }

  /** Once every leave has ended, whatever was rejected or lost: the peers hash is
      those whose leave ended at its GET or HDEL; the record is gone if and only if
      somebody's script found the hash empty; a producers hash is left only of
      somebody whose leave ended by its DEL; and the MediaRoom is left if and only if
      a removal of one of its peers was lost or every close behind the last of them
      was. It then holds the peers whose removal was lost or never sent. */
  lemma WhatIsLeft(s: State, n: Node, es: seq<Event>, t: State)
    requires Occupied(s, n) && Departures(es) && Leads(s, es, t)
    requires forall p | p in s.peers :: p in t.clients && t.clients[p].pc.Left?
    ensures s.peers <= t.cameFrom.Keys && forall p | p in s.peers :: EndedAt(t, p)
    ensures t.peers == set p | p in s.peers && (t.cameFrom[p].LeaveGet? || t.cameFrom[p].LeavePeer?)
    ensures t.room == if exists p :: p in s.peers && PastScript(t.cameFrom[p]) then None else Some(n)
    ensures forall p | p in t.producers :: p in s.peers && (p in t.peers || t.cameFrom[p].LeaveProducers?)
    ensures forall p | p in s.peers :: p in t.h.closes <==> t.cameFrom[p].SfuClose?
    ensures n in t.mediaRooms <==>
            && n in s.mediaRooms
            && (|| s.mediaRooms[n] * t.h.lost != {}
                || forall p | p in s.peers :: !CameLast(t.h.closes, s.mediaRooms[n], p))
    ensures n in t.mediaRooms ==> t.mediaRooms[n] == s.mediaRooms[n] * (t.h.lost + (s.peers - t.h.tried))
  {
    hide After, Occupied, Departures, CameLast;
    TeardownRun(s, n, es);
    AllLeft(t, StartOf(s, n));
  }

  lemma AllLeft(t: State, st: Start)
    requires Teardown(t, st) && forall p | p in st.members :: p in t.clients && t.clients[p].pc.Left?
    ensures st.members <= t.cameFrom.Keys && forall p | p in st.members :: EndedAt(t, p)
    ensures t.peers == set p | p in st.members && (t.cameFrom[p].LeaveGet? || t.cameFrom[p].LeavePeer?)
    ensures t.room == if exists p :: p in st.members && PastScript(t.cameFrom[p]) then None else Some(st.n)
    ensures forall p | p in t.producers :: p in st.members && (p in t.peers || t.cameFrom[p].LeaveProducers?)
    ensures forall p | p in st.members :: p in t.h.closes <==> t.cameFrom[p].SfuClose?
    ensures st.n in t.mediaRooms <==>
            st.hadRoom && (|| st.sfuPeers * t.h.lost != {}
                           || forall p | p in st.members :: !CameLast(t.h.closes, st.sfuPeers, p))
    ensures st.n in t.mediaRooms ==> t.mediaRooms[st.n] == st.sfuPeers * (t.h.lost + (st.members - t.h.tried))
  {
    hide CameLast;
    var at := Places(t.clients, t.cameFrom);
    EndedPlaces(t, at, st);
    EndedMembers(t, at, st);
    EndedRecord(t, at, st);
    EndedOwners(t, at, st);
    EndedSfu(t, at, st);
  }

  /** A handler that has left is placed where it came from. */
  ghost predicate PlacedBefore(t: State, at: Clients, st: Start) {
    forall p | p in st.members :: p in t.clients.Keys && p in t.cameFrom.Keys && p in at.Keys && t.clients[p].pc.Left?
                                  && at[p].pc == t.cameFrom[p]
  }

  lemma EndedPlaces(t: State, at: Clients, st: Start)
    requires Facts(t, at, st) && at == Places(t.clients, t.cameFrom)
    requires forall p | p in st.members :: p in t.clients && t.clients[p].pc.Left?
    ensures PlacedBefore(t, at, st) && st.members <= t.cameFrom.Keys && forall p | p in st.members :: EndedAt(t, p)
  {
    hide Settled, Elsewhere, MembersStay, RecordStays, ScriptRan, OwnersStay, SfuStays, TriedStays, ClosesStay;
    forall p | p in st.members ensures p in t.cameFrom.Keys {
      assert OnNode(at[p].pc, st.n);
    }
    forall p | p in st.members ensures at[p].pc == t.cameFrom[p] && EndedAt(t, p) {
      assert p in t.clients.Keys && p in at.Keys;
    }
  }

  lemma EndedMembers(t: State, at: Clients, st: Start)
    requires Facts(t, at, st) && PlacedBefore(t, at, st)
    ensures t.peers == set p | p in st.members && (t.cameFrom[p].LeaveGet? || t.cameFrom[p].LeavePeer?)
    ensures forall p | p in st.members :: p in t.h.closes <==> t.cameFrom[p].SfuClose?
  {
    hide Settled, Elsewhere, Positions, RecordStays, ScriptRan, OwnersStay, SfuStays, TriedStays, ClosesStay;
    forall p | p in st.members
      ensures p in t.peers <==> t.cameFrom[p].LeaveGet? || t.cameFrom[p].LeavePeer?
      ensures p in t.h.closes.Keys <==> t.cameFrom[p].SfuClose?
    {
      assert p in t.clients.Keys;
    }
  }

  lemma EndedRecord(t: State, at: Clients, st: Start)
    requires Facts(t, at, st) && PlacedBefore(t, at, st)
    ensures t.room == if exists p :: p in st.members && PastScript(t.cameFrom[p]) then None else Some(st.n)
  {
    hide Settled, Elsewhere, Positions, MembersStay, OwnersStay, SfuStays, TriedStays, ClosesStay, Endings;
    forall p | p in st.members ensures PastScript(t.cameFrom[p]) <==> PastScript(at[p].pc) {
    }
    if p :| p in st.members && PastScript(t.cameFrom[p]) {
      assert PastScript(at[p].pc);
    }
  }

  lemma EndedOwners(t: State, at: Clients, st: Start)
    requires Facts(t, at, st) && PlacedBefore(t, at, st)
    requires t.peers == set p | p in st.members && (t.cameFrom[p].LeaveGet? || t.cameFrom[p].LeavePeer?)
    ensures forall p | p in t.producers :: p in st.members && (p in t.peers || t.cameFrom[p].LeaveProducers?)
  {
    hide Settled, Elsewhere, Positions, MembersStay, RecordStays, ScriptRan, SfuStays, TriedStays, ClosesStay;
    forall p | p in t.producers ensures p in st.members && (p in t.peers || t.cameFrom[p].LeaveProducers?) {
      assert p in t.clients.Keys && (Departing(at[p].pc) || Closing(at[p].pc));
    }
  }

  lemma EndedSfu(t: State, at: Clients, st: Start)
    requires Facts(t, at, st)
    ensures st.n in t.mediaRooms <==>
            st.hadRoom && (|| st.sfuPeers * t.h.lost != {}
                           || forall p | p in st.members :: !CameLast(t.h.closes, st.sfuPeers, p))
    ensures st.n in t.mediaRooms ==> t.mediaRooms[st.n] == st.sfuPeers * (t.h.lost + (st.members - t.h.tried))
  {
    hide Settled, Elsewhere, Positions, MembersStay, RecordStays, ScriptRan, OwnersStay, Endings, CameLast;
    SomeMember(st.sfuPeers * t.h.lost);
    if st.n in t.mediaRooms {
      forall p ensures p in t.mediaRooms[st.n] <==> p in st.sfuPeers * (t.h.lost + (st.members - t.h.tried)) {
      }
    }
  }

  // ----- Every leave gets done -----

  /** How many of its own steps a peer's teardown still has ahead at most. */
  function Rank(pc: Pc, members: int): int {
    match pc
    case Joined => members + 11
    case LeaveGet => members + 10
    case LeavePeer(_) => members + 9
    case LeaveProducers(_) => members + 8
    case LeaveSfu(_) => members + 7
    case LeaveCheck(_) => members + 6
    case LeaveKeys(_) => members + 5
    case LeaveScript(_, keys) => 4 + |keys|
    case LeaveClean(_, keys) => 3 + |keys|
    case SfuClose(_) => 2
    case _ => 0
  }

  ghost function NextOf(p: PeerId, pc: Pc): Event {
    if pc.Joined? then Disconnect(p)
    else if pc.LeaveClean? && pc.keys != {} then
      SomeMember(pc.keys);
      var o :| o in pc.keys; Clean(p, o)
    else Exec(p)
  }

  lemma SmallerSet(a: set<PeerId>, b: set<PeerId>)
    requires a <= b
    ensures |a| <= |b|
  {
    assert |b| == |a| + |b - a| by {
      assert a + (b - a) == b;
    }
  }

  lemma Lands(s: State, p: PeerId, c: Client, pc: Pc)
    ensures var t := Goto(s, p, c, pc); p in t.clients && t.clients[p].pc == pc
  {
  }

  lemma DepartRank(s: State, p: PeerId, c: Client, members: int)
    requires Departing(c.pc) && (s.room.Some? || !c.pc.LeaveGet?) && members >= 0
    ensures var t := ExecDepart(s, p, c);
            p in t.clients && 0 <= Rank(t.clients[p].pc, members) < Rank(c.pc, members)
  {
    hide Goto, RemoveFromPeers, DropProducers, SfuRemovePeer;
    match c.pc {
      case LeaveGet => Lands(s, p, c, LeavePeer(s.room.value));
      case LeavePeer(n) => Lands(RemoveFromPeers(s, p), p, c, LeaveProducers(n));
      case LeaveProducers(n) => Lands(DropProducers(s, p), p, c, LeaveSfu(n));
      case LeaveSfu(n) => Lands(SfuRemovePeer(s, n, p), p, c, LeaveCheck(n));
    }
  }

  /** Where the closing half of leave goes on from `pc`. */
  function Onwards(pc: Pc, peers: set<PeerId>): Pc {
    match pc
    case LeaveCheck(n) => if peers == {} then LeaveKeys(n) else Left
    case LeaveKeys(n) => LeaveScript(n, peers)
    case LeaveScript(n, keys) => if peers == {} then LeaveClean(n, keys) else Left
    case LeaveClean(n, _) => SfuClose(n)
    case _ => Left
  }

  /** What the step does before the move. */
  function Cleared(s: State, p: PeerId, pc: Pc): State {
    match pc
    case LeaveScript(_, _) => CloseIfEmpty(s)
    case SfuClose(n) => SfuCloseRoom(s, n, p)
    case _ => s
  }

  lemma CloseIsMove(s: State, p: PeerId, c: Client)
    requires Closing(c.pc) && (c.pc.LeaveClean? ==> c.pc.keys == {})
    ensures ExecClose(s, p, c) == Goto(Cleared(s, p, c.pc), p, c, Onwards(c.pc, s.peers))
  {
    hide Goto, CloseIfEmpty, SfuCloseRoom;
  }

  lemma CloseGoesOn(s: State, p: PeerId, c: Client)
    requires Closing(c.pc) && (c.pc.LeaveClean? ==> c.pc.keys == {})
    ensures var t := ExecClose(s, p, c); p in t.clients && t.clients[p].pc == Onwards(c.pc, s.peers)
  {
    hide ExecClose, Cleared, Onwards, Goto;
    CloseIsMove(s, p, c);
    Lands(Cleared(s, p, c.pc), p, c, Onwards(c.pc, s.peers));
  }

  lemma OnwardsRank(pc: Pc, peers: set<PeerId>, members: int)
    requires Closing(pc) && (pc.LeaveClean? ==> pc.keys == {}) && |peers| <= members
    ensures 0 <= Rank(Onwards(pc, peers), members) < Rank(pc, members)
  {
  }

  lemma CloseRank(s: State, p: PeerId, c: Client, members: int)
    requires Closing(c.pc) && (c.pc.LeaveClean? ==> c.pc.keys == {}) && |s.peers| <= members
    ensures var t := ExecClose(s, p, c);
            p in t.clients && 0 <= Rank(t.clients[p].pc, members) < Rank(c.pc, members)
  {
    hide ExecClose, Rank, Onwards;
    CloseGoesOn(s, p, c);
    OnwardsRank(c.pc, s.peers, members);
  }

  lemma CleanRank(s: State, p: PeerId, c: Client, o: PeerId, members: int)
    requires c.pc.LeaveClean? && o in c.pc.keys
    ensures var t := CleanOne(s, p, c, o);
            p in t.clients && 0 <= Rank(t.clients[p].pc, members) < Rank(c.pc, members)
  {
    hide Goto, DropProducers;
    assert |c.pc.keys - {o}| == |c.pc.keys| - 1;
    Lands(DropProducers(s, o), p, c, LeaveClean(c.pc.node, c.pc.keys - {o}));
  }

  /** From wherever a teardown is, the next step of a peer that is not done is
      enabled and brings it closer to the end: a leave is over after at most
      |members| + 11 steps of its own. */
  lemma OwnStepCounts(s: State, st: Start, p: PeerId)
    requires Teardown(s, st) && p in st.members && p in s.clients && Unfinished(s.clients[p].pc)
    ensures var s' := Step(s, NextOf(p, s.clients[p].pc));
            && p in s'.clients
            && 0 <= Rank(s'.clients[p].pc, |st.members|) < Rank(s.clients[p].pc, |st.members|)
  {
    hide Teardown, ExecDepart, ExecClose, CleanOne, Goto, Rank;
    MembersBound(s, st);
    var c := s.clients[p];
    if c.pc.Joined? {
      Lands(s.(sockets := s.sockets - {p}), p, c, LeaveGet);
      RankOfJoined(|st.members|);
    } else if c.pc.LeaveClean? && c.pc.keys != {} {
      SomeMember(c.pc.keys);
      CleanRank(s, p, c, NextOf(p, c.pc).other, |st.members|);
    } else if Departing(c.pc) {
      if c.pc.LeaveGet? { RecordFact(s, st, p); }
      DepartRank(s, p, c, |st.members|);
    } else if Closing(c.pc) {
      CloseRank(s, p, c, |st.members|);
    }
  }

  lemma RankOfJoined(members: int)
    requires members >= 0
    ensures 0 <= Rank(LeaveGet, members) < Rank(Joined, members)
  {
  }

  lemma MembersBound(s: State, st: Start)
    requires Teardown(s, st)
    ensures |s.peers| <= |st.members|
  {
    hide Settled, Elsewhere, RecordStays, ScriptRan, OwnersStay, SfuStays, TriedStays, ClosesStay, Endings;
    SmallerSet(s.peers, st.members);
  }
}
