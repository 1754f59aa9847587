/** Short runs that end in the situations the theorems describe: two sockets on
    one instance, one sfu node. */
module RoomRuns {
  import opened Wrappers
  import opened RoomProtocol
  import opened RoomInvariants
  import opened RoomTheorems
  import opened RoomFrames
  import opened RoomSteps

  /** Socket 1 creates the room on node 7. */
  const OPENING := [Connect(1, 0), Exec(1), Exec(1), PickNode(1, 7), ExecCreation(1), ExecCreation(1), Exec(1)]

  /** Its EXPIRE is rejected. */
  const EXPIRE_FAILS := [Exec(1), Fail(1)]

  /** It adds itself and reads the empty hash. */
  const FIRST_READS := [Exec(1), Exec(1), Exec(1)]

  /** Socket 2 joins, from its lookup to its read. */
  const SECOND_READS := [Connect(2, 0), Exec(2), Exec(2), Exec(2), Exec(2), Exec(2)]

  /** It fetches the producers of socket 1, enters the socket room and announces itself. */
  const SECOND_ENTERS := [Fetch(2, 1), Exec(2), Exec(2), Exec(2)]

  const PRODUCER := ProducerId(2, 0)

  /** Socket 2 produces. */
  const SECOND_PRODUCES := [Ask(PRODUCER, Producer), Serve(PRODUCER), Serve(PRODUCER), Serve(PRODUCER), Serve(PRODUCER),
                            Serve(PRODUCER)]

  /** Socket 1 enters the socket room and announces itself. */
  const FIRST_ENTERS := [Exec(1), Exec(1), Exec(1)]

  const TRANSPORT := ProducerId(1, 0)

  /** Socket 1 enters alone and gets a transport. */
  const FIRST_TRANSPORT := [Ask(TRANSPORT, Transport), Serve(TRANSPORT), Serve(TRANSPORT), Serve(TRANSPORT)]

  /** It leaves, up to its sfu removal, */
  const FIRST_LEAVES := [Disconnect(1), Exec(1), Exec(1), Exec(1)]

  /** which is lost; all the rest succeeds. */
  const REMOVAL_LOST := [Fail(1), Exec(1), Exec(1), Exec(1), Exec(1), Exec(1)]

  lemma Prefix(s: State, es: seq<Event>, i: nat)
    requires i < |es|
    ensures After(s, es[..i + 1]) == Step(After(s, es[..i]), es[i])
  {
    hide Step;
    assert es[..i + 1][..i] == es[..i];
  }

  lemma Nothing(s: State, es: seq<Event>)
    ensures After(s, es[..0]) == s && es[..|es|] == es
  {
  }

  // ----- The room is created -----

  lemma ConnectStep(s: State, p: PeerId, i: Instance)
    requires p !in s.clients
    ensures At(Step(s, Connect(p, i)), p, GetRoom)
    ensures Shared(Step(s, Connect(p, i)), s.room, s.peers, s.producers, s.mediaRooms)
  {
  }

  lemma CreationBegins()
    ensures var s := Step(Step(Step(INIT, Connect(1, 0)), Exec(1)), Exec(1));
            At(s, 1, AwaitRoom(1)) && CreationAt(s, 1, Picking) && Shared(s, None, {}, map[], map[])
  {
    var s1 := Step(INIT, Connect(1, 0));
    assert s1.clients == map[1 := Client(0, GetRoom)];
    var s2 := Step(s1, Exec(1));
    assert s2.clients == map[1 := Client(0, MissedRoom)] && s2.pendingRooms == map[];
  }

  lemma Opened()
    ensures At(After(INIT, OPENING), 1, AddPeer)
    ensures Shared(After(INIT, OPENING), Some(7), {}, map[], map[7 := {}])
  {
    hide After, Step, Shared, At, CreationAt;
    Nothing(INIT, OPENING);
    Prefix(INIT, OPENING, 0);
    Prefix(INIT, OPENING, 1);
    Prefix(INIT, OPENING, 2);
    CreationBegins();
    CreationRuns(After(INIT, OPENING[..3]));
    Prefix(INIT, OPENING, 3);
    Prefix(INIT, OPENING, 4);
    Prefix(INIT, OPENING, 5);
    Prefix(INIT, OPENING, 6);
  }

  lemma CreationRuns(s: State)
    requires At(s, 1, AwaitRoom(1)) && CreationAt(s, 1, Picking) && Shared(s, None, {}, map[], map[])
    ensures var t := Step(Step(Step(Step(s, PickNode(1, 7)), ExecCreation(1)), ExecCreation(1)), Exec(1));
            At(t, 1, AddPeer) && Shared(t, Some(7), {}, map[], map[7 := {}])
  {
    hide Step;
    PickStep(s, 1, 7);
    var s1 := Step(s, PickNode(1, 7));
    CreateStep(s1, 1, 7);
    var s2 := Step(s1, ExecCreation(1));
    RecordStep(s2, 1, 7);
    var s3 := Step(s2, ExecCreation(1));
    ResumeStep(s3, 1, 1);
  }

  // ----- A peer left behind by its EXPIRE -----

  lemma GhostIsReachable()
    ensures var s := After(INIT, OPENING + EXPIRE_FAILS);
            Reachable(s) && At(s, 1, Rejected) && 1 in s.peers
  {
    hide After, Step, Shared, At;
    Opened();
    AfterConcat(INIT, OPENING, EXPIRE_FAILS);
    var s := After(INIT, OPENING);
    Nothing(s, EXPIRE_FAILS);
    Prefix(s, EXPIRE_FAILS, 0);
    Prefix(s, EXPIRE_FAILS, 1);
    AddPeerStep(s, 1);
    FailStep(Step(s, Exec(1)), 1, ExpirePeers);
    SharedPeers(s, Some(7), {}, map[], map[7 := {}]);
    SharedPeers(Step(s, Exec(1)), s.room, s.peers + {1}, s.producers, s.mediaRooms);
    var t := Step(Step(s, Exec(1)), Fail(1));
    SharedPeers(t, Step(s, Exec(1)).room, Step(s, Exec(1)).peers, Step(s, Exec(1)).producers,
                Step(s, Exec(1)).mediaRooms);
    assert Leads(INIT, OPENING + EXPIRE_FAILS, t);
  }

  lemma SharedPeers(s: State, room: Option<Node>, peers: set<PeerId>, producers: map<PeerId, set<ProducerId>>,
                    mediaRooms: map<Node, set<PeerId>>)
    requires Shared(s, room, peers, producers, mediaRooms)
    ensures s.room == room && s.peers == peers && s.producers == producers && s.mediaRooms == mediaRooms
  {
  }

  // ----- What a joiner misses -----

  lemma Unroll3(s: State, es: seq<Event>)
    requires |es| == 3
    ensures After(s, es) == Step(Step(Step(s, es[0]), es[1]), es[2])
  {
    hide After, Step;
    Nothing(s, es);
    Prefix(s, es, 0);
    Prefix(s, es, 1);
    Prefix(s, es, 2);
  }

  lemma Unroll4(s: State, es: seq<Event>)
    requires |es| == 4
    ensures After(s, es) == Step(Step(Step(Step(s, es[0]), es[1]), es[2]), es[3])
  {
    hide After, Step;
    Nothing(s, es);
    Prefix(s, es, 0);
    Prefix(s, es, 1);
    Prefix(s, es, 2);
    Prefix(s, es, 3);
  }

  lemma Unroll6(s: State, es: seq<Event>)
    requires |es| == 6
    ensures After(s, es) == Step(Step(Step(Step(Step(Step(s, es[0]), es[1]), es[2]), es[3]), es[4]), es[5])
  {
    hide After, Step;
    Nothing(s, es);
    Prefix(s, es, 0);
    Prefix(s, es, 1);
    Prefix(s, es, 2);
    Prefix(s, es, 3);
    Prefix(s, es, 4);
    Prefix(s, es, 5);
  }

  /** The room is on node 7, and these are its members. */
  ghost predicate World(s: State, peers: set<PeerId>) {
    s.room == Some(7) && s.peers == peers && 7 in s.mediaRooms
  }

  lemma SameWorld(s: State, t: State, peers: set<PeerId>, members: set<PeerId>)
    requires World(s, peers) && Shared(t, s.room, members, t.producers, s.mediaRooms)
    ensures World(t, members)
  {
  }

  lemma Adds(s: State, p: PeerId, peers: set<PeerId>)
    requires At(s, p, AddPeer) && World(s, peers)
    ensures At(Step(s, Exec(p)), p, ExpirePeers) && World(Step(s, Exec(p)), peers + {p})
  {
    hide Step;
    AddPeerStep(s, p);
    SameWorld(s, Step(s, Exec(p)), peers, peers + {p});
  }

  lemma Expires(s: State, p: PeerId, peers: set<PeerId>)
    requires At(s, p, ExpirePeers) && World(s, peers)
    ensures At(Step(s, Exec(p)), p, ReadPeers) && World(Step(s, Exec(p)), peers)
  {
    hide Step;
    ExpirePeersStep(s, p);
    SameWorld(s, Step(s, Exec(p)), peers, peers);
  }

  lemma ReadsOthers(s: State, p: PeerId, peers: set<PeerId>)
    requires At(s, p, ReadPeers) && World(s, peers)
    ensures At(Step(s, Exec(p)), p, FetchProducers(peers - {p}, {})) && World(Step(s, Exec(p)), peers)
    ensures p in Step(s, Exec(p)).existingPeers && Step(s, Exec(p)).existingPeers[p] == peers - {p}
  {
    hide Step;
    ReadPeersStep(s, p);
    SameWorld(s, Step(s, Exec(p)), peers, peers);
  }

  lemma FindsRoom(s: State, p: PeerId, i: Instance, peers: set<PeerId>)
    requires p !in s.clients && World(s, peers)
    ensures var t := Step(Step(Step(s, Connect(p, i)), Exec(p)), Exec(p)); At(t, p, AddPeer) && World(t, peers)
  {
    hide Step;
    ConnectStep(s, p, i);
    var s1 := Step(s, Connect(p, i));
    SameWorld(s, s1, peers, peers);
    GetRoomStep(s1, p);
    var s2 := Step(s1, Exec(p));
    SameWorld(s1, s2, peers, peers);
    RefreshRoomStep(s2, p);
    SameWorld(s2, Step(s2, Exec(p)), peers, peers);
  }

  lemma FetchesOne(s: State, p: PeerId, o: PeerId, peers: set<PeerId>)
    requires At(s, p, FetchProducers({o}, {})) && World(s, peers)
    ensures var t := Step(Step(s, Fetch(p, o)), Exec(p)); At(t, p, JoinSocket) && World(t, peers)
  {
    hide Step;
    FetchStep(s, p, {o}, {}, o);
    var s1 := Step(s, Fetch(p, o));
    SameWorld(s, s1, peers, peers);
    FetchedAllStep(s1, p, {o});
    SameWorld(s1, Step(s1, Exec(p)), peers, peers);
  }

  lemma EntersAndAnnounces(s: State, p: PeerId, peers: set<PeerId>)
    requires At(s, p, JoinSocket) && World(s, peers)
    ensures var t := Step(Step(s, Exec(p)), Exec(p)); At(t, p, Joined) && World(t, peers)
  {
    hide Step;
    JoinSocketStep(s, p);
    var s1 := Step(s, Exec(p));
    SameWorld(s, s1, peers, peers);
    AnnounceStep(s1, p);
    SameWorld(s1, Step(s1, Exec(p)), peers, peers);
  }

  lemma FirstRead(s: State)
    requires At(s, 1, AddPeer) && World(s, {})
    ensures var t := After(s, FIRST_READS);
            && At(t, 1, FetchProducers({}, {})) && World(t, {1}) && 1 in t.existingPeers && t.existingPeers[1] == {}
  {
    hide After, Step, At, World;
    Unroll3(s, FIRST_READS);
    Adds(s, 1, {});
    var s1 := Step(s, Exec(1));
    var nobody: set<PeerId> := {};
    assert nobody + {1} == {1};
    Expires(s1, 1, {1});
    ReadsOthers(Step(s1, Exec(1)), 1, {1});
    assert {1} - {1} == {};
  }

  lemma SecondRead(s: State)
    requires 2 !in s.clients && World(s, {1})
    ensures var t := After(s, SECOND_READS); At(t, 2, FetchProducers({1}, {})) && World(t, {1, 2})
  {
    hide After, Step, At, World;
    Unroll6(s, SECOND_READS);
    FindsRoom(s, 2, 0, {1});
    var s3 := Step(Step(Step(s, Connect(2, 0)), Exec(2)), Exec(2));
    Adds(s3, 2, {1});
    assert {1} + {2} == {1, 2} && {1, 2} - {2} == {1};
    var s4 := Step(s3, Exec(2));
    Expires(s4, 2, {1, 2});
    ReadsOthers(Step(s4, Exec(2)), 2, {1, 2});
  }

  lemma SecondEntered(s: State)
    requires At(s, 2, FetchProducers({1}, {})) && World(s, {1, 2})
    ensures var t := After(s, SECOND_ENTERS); At(t, 2, Joined) && World(t, {1, 2})
  {
    hide After, Step, At, World;
    Unroll4(s, SECOND_ENTERS);
    FetchesOne(s, 2, 1, {1, 2});
    EntersAndAnnounces(Step(Step(s, Fetch(2, 1)), Exec(2)), 2, {1, 2});
  }

  lemma RequestGoesOn(s: State, r: ProducerId, peers: set<PeerId>)
    requires RequestAt(s, r, Producer, CheckPeer) && World(s, peers) && r.owner in peers
    ensures var t := Step(Step(s, Serve(r)), Serve(r)); RequestAt(t, r, Producer, CallSfu(7)) && World(t, peers)
  {
    hide Step;
    CheckPeerStep(s, r, Producer);
    var s1 := Step(s, Serve(r));
    SameWorld(s, s1, peers, peers);
    ResolveNodeStep(s1, r, Producer);
    SameWorld(s1, Step(s1, Serve(r)), peers, peers);
  }

  lemma RequestEnds(s: State, r: ProducerId, peers: set<PeerId>)
    requires RequestAt(s, r, Producer, CallSfu(7)) && World(s, peers)
    ensures var t := Step(Step(Step(s, Serve(r)), Serve(r)), Serve(r)); r in t.h.cast && World(t, peers)
  {
    hide Step;
    ProduceStep(s, r, 7);
    var s1 := Step(s, Serve(r));
    SameWorld(s, s1, peers, peers);
    RecordProducerStep(s1, r, Producer);
    var s2 := Step(s1, Serve(r));
    SameWorld(s1, s2, peers, peers);
    BroadcastStep(s2, r, Producer);
    SameWorld(s2, Step(s2, Serve(r)), peers, peers);
  }

  lemma Asks(s: State, r: ProducerId, peers: set<PeerId>)
    requires r !in s.requests && At(s, r.owner, Joined) && World(s, peers)
    ensures var t := Step(s, Ask(r, Producer)); RequestAt(t, r, Producer, CheckPeer) && World(t, peers)
  {
    hide Step;
    AskStep(s, r, Producer);
    SameWorld(s, Step(s, Ask(r, Producer)), peers, peers);
  }

  lemma SecondProduced(s: State)
    requires At(s, 2, Joined) && PRODUCER !in s.requests && World(s, {1, 2})
    ensures var t := After(s, SECOND_PRODUCES); PRODUCER in t.h.cast && World(t, {1, 2})
  {
    hide After, Step, At, World, RequestAt;
    Unroll6(s, SECOND_PRODUCES);
    Asks(s, PRODUCER, {1, 2});
    var s1 := Step(s, Ask(PRODUCER, Producer));
    RequestGoesOn(s1, PRODUCER, {1, 2});
    RequestEnds(Step(Step(s1, Serve(PRODUCER)), Serve(PRODUCER)), PRODUCER, {1, 2});
  }

  lemma EntersSocketRoom(s: State, p: PeerId)
    requires At(s, p, JoinSocket)
    ensures var t := Step(s, Exec(p));
            && t.sockets == s.sockets + {p} && t.peerNews == s.peerNews[p := {}] && t.h.cast == s.h.cast
            && t.producerNews == s.producerNews[p := {}]
  {
  }

  /** A joiner that was handed nothing and is the only one to speak hears nothing. */
  ghost predicate HeardNothing(s: State, p: PeerId) {
    && p in s.sockets && p in s.existingPeers && s.existingPeers[p] == {}
    && p in s.peerNews && s.peerNews[p] == {} && p in s.producerNews && s.producerNews[p] == {}
  }

  lemma TellsOthers(s: State, p: PeerId)
    requires HeardNothing(s, p)
    ensures HeardNothing(AnnouncePeer(s, p), p) && AnnouncePeer(s, p).h.cast == s.h.cast
  {
    assert Backfill(s, p) == {};
  }

  lemma GotoHears(s: State, p: PeerId, c: Client, pc: Pc)
    requires HeardNothing(s, p)
    ensures HeardNothing(Goto(s, p, c, pc), p) && Goto(s, p, c, pc).h == s.h
  {
  }

  lemma AnnouncesItself(s: State, p: PeerId)
    requires At(s, p, Announce) && HeardNothing(s, p)
    ensures HeardNothing(Step(s, Exec(p)), p) && Step(s, Exec(p)).h.cast == s.h.cast
  {
    AtMeans(s, p, Announce);
    TellsOthers(s, p);
    hide At, AnnouncePeer, Goto, HeardNothing;
    GotoHears(AnnouncePeer(s, p), p, s.clients[p], Joined);
  }

  lemma FetchedNothing(s: State, p: PeerId)
    requires At(s, p, FetchProducers({}, {}))
    ensures Step(s, Exec(p)).h.cast == s.h.cast
  {
  }

  lemma FirstEnters(s: State)
    requires At(s, 1, FetchProducers({}, {})) && 1 in s.existingPeers && s.existingPeers[1] == {} && World(s, {1, 2})
    ensures var t := Step(s, Exec(1));
            && At(t, 1, JoinSocket) && 1 in t.existingPeers && t.existingPeers[1] == {} && World(t, {1, 2})
            && t.h.cast == s.h.cast
  {
    hide Step;
    FetchedAllStep(s, 1, {});
    FetchedNothing(s, 1);
    SameWorld(s, Step(s, Exec(1)), {1, 2}, {1, 2});
  }

  lemma FirstInRoom(s: State)
    requires At(s, 1, JoinSocket) && 1 in s.existingPeers && s.existingPeers[1] == {}
    ensures At(Step(s, Exec(1)), 1, Announce) && HeardNothing(Step(s, Exec(1)), 1)
            && Step(s, Exec(1)).h.cast == s.h.cast
  {
    hide Step;
    JoinSocketStep(s, 1);
    EntersSocketRoom(s, 1);
  }

  lemma FirstEntered(s: State)
    requires At(s, 1, FetchProducers({}, {})) && 1 in s.existingPeers && s.existingPeers[1] == {} && World(s, {1, 2})
    ensures var t := After(s, FIRST_ENTERS);
            At(t, 1, Joined) && World(t, {1, 2}) && HeardNothing(t, 1) && t.h.cast == s.h.cast
  {
    hide After, Step, At, World, HeardNothing;
    Unroll3(s, FIRST_ENTERS);
    FirstEnters(s);
    var s1 := Step(s, Exec(1));
    FirstInRoom(s1);
    EntersAndAnnounces(s1, 1, {1, 2});
    AnnouncesItself(Step(s1, Exec(1)), 1);
  }

  const MISSING := OPENING + FIRST_READS + SECOND_READS + SECOND_ENTERS + SECOND_PRODUCES + FIRST_ENTERS

  function Played(): (State, State, State, State, State, State) {
    var s0 := After(INIT, OPENING);
    var s1 := After(s0, FIRST_READS);
    var s2 := After(s1, SECOND_READS);
    var s3 := After(s2, SECOND_ENTERS);
    var s4 := After(s3, SECOND_PRODUCES);
    (s0, s1, s2, s3, s4, After(s4, FIRST_ENTERS))
  }

  lemma PlayedIsMissing()
    ensures After(INIT, MISSING) == Played().5
  {
    hide After;
    AfterConcat(INIT, OPENING, FIRST_READS);
    AfterConcat(INIT, OPENING + FIRST_READS, SECOND_READS);
    AfterConcat(INIT, OPENING + FIRST_READS + SECOND_READS, SECOND_ENTERS);
    AfterConcat(INIT, OPENING + FIRST_READS + SECOND_READS + SECOND_ENTERS, SECOND_PRODUCES);
    AfterConcat(INIT, OPENING + FIRST_READS + SECOND_READS + SECOND_ENTERS + SECOND_PRODUCES, FIRST_ENTERS);
  }

  /** Nothing so far was about socket 2. */
  lemma NotYetConnected()
    ensures 2 !in Played().1.clients
  {
    hide After;
    AfterConcat(INIT, OPENING, FIRST_READS);
    OthersKeepOwn(INIT, OPENING + FIRST_READS, 2);
  }

  lemma NotYetAsked()
    ensures PRODUCER !in Played().3.requests
  {
    hide After;
    OthersKeepRequest(INIT, OPENING, PRODUCER);
    OthersKeepRequest(Played().0, FIRST_READS, PRODUCER);
    OthersKeepRequest(Played().1, SECOND_READS, PRODUCER);
    OthersKeepRequest(Played().2, SECOND_ENTERS, PRODUCER);
  }

  lemma FirstWaits()
    requires At(Played().1, 1, FetchProducers({}, {}))
    requires 1 in Played().1.existingPeers && Played().1.existingPeers[1] == {}
    ensures At(Played().4, 1, FetchProducers({}, {}))
    ensures 1 in Played().4.existingPeers && Played().4.existingPeers[1] == {}
  {
    hide After;
    OthersKeepOwn(Played().1, SECOND_READS, 1);
    OthersKeepOwn(Played().2, SECOND_ENTERS, 1);
    OthersKeepOwn(Played().3, SECOND_PRODUCES, 1);
  }

  lemma SecondStays()
    requires At(Played().3, 2, Joined)
    ensures At(Played().5, 2, Joined)
  {
    hide After;
    OthersKeepOwn(Played().3, SECOND_PRODUCES, 2);
    OthersKeepOwn(Played().4, FIRST_ENTERS, 2);
  }

  lemma PlayedEnds()
    ensures var s := Played().5;
            At(s, 1, Joined) && At(s, 2, Joined) && World(s, {1, 2}) && HeardNothing(s, 1) && PRODUCER in s.h.cast
  {
    hide After, At, World, HeardNothing, Shared;
    Opened();
    OpenedWorld(Played().0);
    FirstRead(Played().0);
    NotYetConnected();
    SecondRead(Played().1);
    SecondEntered(Played().2);
    NotYetAsked();
    SecondProduced(Played().3);
    FirstWaits();
    SecondStays();
    FirstEntered(Played().4);
  }

  lemma OpenedWorld(s: State)
    requires Shared(s, Some(7), {}, map[], map[7 := {}])
    ensures World(s, {})
  {
  }

  lemma JoinedMeansAnnounced(s: State, p: PeerId)
    requires Reachable(s) && At(s, p, Joined)
    ensures p in s.h.announced
  {
    hide After, Inv;
    ReachableKeeps(s);
    PcFact(s, p);
  }

  /** Socket 1 ends up in the room with socket 2, which has announced itself and
      broadcast a producer, and has heard of neither. */
  lemma MissesAreReachable()
    ensures var s := After(INIT, MISSING);
            && Reachable(s) && 1 in s.peers && 2 in s.peers && 1 in s.sockets && 1 in s.h.announced
            && 2 in s.h.announced
            && 1 in s.existingPeers && 1 in s.peerNews && !Knows(s, 1, 2)
            && PRODUCER in s.h.cast && 1 in s.producerNews && PRODUCER !in s.producerNews[1]
  {
    hide After, At, Played;
    PlayedIsMissing();
    PlayedEnds();
    var s := After(INIT, MISSING);
    assert Leads(INIT, MISSING, s);
    JoinedMeansAnnounced(s, 1);
    JoinedMeansAnnounced(s, 2);
  }

  // ----- A lost sfu removal -----

  ghost predicate Alone(s: State, room: Option<Node>, peers: set<PeerId>, sfuPeers: set<PeerId>) {
    s.room == room && s.peers == peers && 7 in s.mediaRooms && s.mediaRooms[7] == sfuPeers
  }

  lemma SameAlone(s: State, t: State, room: Option<Node>, peers: set<PeerId>, sfuPeers: set<PeerId>)
    requires Alone(s, room, peers, sfuPeers) && Shared(t, s.room, s.peers, t.producers, s.mediaRooms)
    ensures Alone(t, room, peers, sfuPeers)
  {
  }

  lemma EntersAlone(s: State)
    requires At(s, 1, FetchProducers({}, {})) && Alone(s, Some(7), {1}, {})
    ensures At(After(s, FIRST_ENTERS), 1, Joined) && Alone(After(s, FIRST_ENTERS), Some(7), {1}, {})
  {
    hide After, Step, At, Alone;
    Unroll3(s, FIRST_ENTERS);
    FetchedAllStep(s, 1, {});
    var s1 := Step(s, Exec(1));
    SameAlone(s, s1, Some(7), {1}, {});
    JoinSocketStep(s1, 1);
    var s2 := Step(s1, Exec(1));
    SameAlone(s1, s2, Some(7), {1}, {});
    AnnounceStep(s2, 1);
    SameAlone(s2, Step(s2, Exec(1)), Some(7), {1}, {});
  }

  lemma ReadsAlone(s: State)
    requires At(s, 1, AddPeer) && Shared(s, Some(7), {}, map[], map[7 := {}])
    ensures At(After(s, FIRST_READS), 1, FetchProducers({}, {})) && Alone(After(s, FIRST_READS), Some(7), {1}, {})
  {
    hide After, Step, At;
    Unroll3(s, FIRST_READS);
    AddPeerStep(s, 1);
    var s1 := Step(s, Exec(1));
    var nobody: set<PeerId> := {};
    assert nobody + {1} == {1} && {1} - {1} == nobody;
    assert Alone(s1, Some(7), {1}, {});
    ExpirePeersStep(s1, 1);
    var s2 := Step(s1, Exec(1));
    SameAlone(s1, s2, Some(7), {1}, {});
    ReadPeersStep(s2, 1);
    SameAlone(s2, Step(s2, Exec(1)), Some(7), {1}, {});
  }

  lemma TransportStep(s: State, r: ProducerId)
    requires RequestAt(s, r, Transport, CallSfu(7)) && 7 in s.mediaRooms
    ensures Step(s, Serve(r)).clients == s.clients
    ensures Shared(Step(s, Serve(r)), s.room, s.peers, s.producers, s.mediaRooms[7 := s.mediaRooms[7] + {r.owner}])
  {
  }

  lemma GetsTransport(s: State)
    requires At(s, 1, Joined) && Alone(s, Some(7), {1}, {}) && TRANSPORT !in s.requests
    ensures Alone(After(s, FIRST_TRANSPORT), Some(7), {1}, {1})
  {
    hide After, Step, At, RequestAt;
    Unroll4(s, FIRST_TRANSPORT);
    AskStep(s, TRANSPORT, Transport);
    var s1 := Step(s, Ask(TRANSPORT, Transport));
    SameAlone(s, s1, Some(7), {1}, {});
    CheckPeerStep(s1, TRANSPORT, Transport);
    var s2 := Step(s1, Serve(TRANSPORT));
    SameAlone(s1, s2, Some(7), {1}, {});
    ResolveNodeStep(s2, TRANSPORT, Transport);
    var s3 := Step(s2, Serve(TRANSPORT));
    SameAlone(s2, s3, Some(7), {1}, {});
    TransportStep(s3, TRANSPORT);
  }

  lemma LeavesUpToSfu(s: State)
    requires At(s, 1, Joined) && Alone(s, Some(7), {1}, {1})
    ensures At(After(s, FIRST_LEAVES), 1, LeaveSfu(7)) && Alone(After(s, FIRST_LEAVES), Some(7), {}, {1})
  {
    hide After, Step, At;
    Unroll4(s, FIRST_LEAVES);
    DisconnectStep(s, 1);
    var s1 := Step(s, Disconnect(1));
    SameAlone(s, s1, Some(7), {1}, {1});
    LeaveGetStep(s1, 1);
    var s2 := Step(s1, Exec(1));
    SameAlone(s1, s2, Some(7), {1}, {1});
    LeavePeerStep(s2, 1, 7);
    var s3 := Step(s2, Exec(1));
    assert Alone(s3, Some(7), {}, {1});
    LeaveProducersStep(s3, 1, 7);
  }

  lemma LosesRemoval(s: State)
    requires At(s, 1, LeaveSfu(7)) && Alone(s, Some(7), {}, {1})
    ensures var t := Step(Step(Step(s, Fail(1)), Exec(1)), Exec(1));
            At(t, 1, LeaveScript(7, {})) && Alone(t, Some(7), {}, {1})
  {
    hide Step, At;
    FailStep(s, 1, LeaveSfu(7));
    var s1 := Step(s, Fail(1));
    SameAlone(s, s1, Some(7), {}, {1});
    LeaveCheckStep(s1, 1, 7);
    var s2 := Step(s1, Exec(1));
    SameAlone(s1, s2, Some(7), {}, {1});
    LeaveKeysStep(s2, 1, 7);
    SameAlone(s2, Step(s2, Exec(1)), Some(7), {}, {1});
  }

  lemma ClosesTheRest(s: State)
    requires At(s, 1, LeaveScript(7, {})) && Alone(s, Some(7), {}, {1})
    ensures var t := Step(Step(Step(s, Exec(1)), Exec(1)), Exec(1)); At(t, 1, Left) && Alone(t, None, {}, {1})
  {
    hide Step, At;
    LeaveScriptStep(s, 1, 7, {});
    var s1 := Step(s, Exec(1));
    assert Alone(s1, None, {}, {1});
    CleanedAllStep(s1, 1, 7);
    var s2 := Step(s1, Exec(1));
    SameAlone(s1, s2, None, {}, {1});
    SfuCloseStep(s2, 1, 7);
  }

  const ORPHANING := OPENING + FIRST_READS + FIRST_ENTERS + FIRST_TRANSPORT + FIRST_LEAVES + REMOVAL_LOST

  lemma TransportAsked()
    ensures TRANSPORT !in After(After(After(INIT, OPENING), FIRST_READS), FIRST_ENTERS).requests
  {
    hide After;
    OthersKeepRequest(INIT, OPENING, TRANSPORT);
    OthersKeepRequest(After(INIT, OPENING), FIRST_READS, TRANSPORT);
    OthersKeepRequest(After(After(INIT, OPENING), FIRST_READS), FIRST_ENTERS, TRANSPORT);
  }

  /** The only socket has left and its close arrived, and yet its MediaRoom is there
      with the peer whose removal was lost in it. */
  lemma OrphanIsReachable()
    ensures var s := After(INIT, ORPHANING);
            && Reachable(s) && At(s, 1, Left) && s.room == None && s.peers == {}
            && 7 in s.mediaRooms && s.mediaRooms[7] == {1}
  {
    hide After, Step, At, Shared;
    AfterConcat(INIT, OPENING, FIRST_READS);
    AfterConcat(INIT, OPENING + FIRST_READS, FIRST_ENTERS);
    AfterConcat(INIT, OPENING + FIRST_READS + FIRST_ENTERS, FIRST_TRANSPORT);
    AfterConcat(INIT, OPENING + FIRST_READS + FIRST_ENTERS + FIRST_TRANSPORT, FIRST_LEAVES);
    AfterConcat(INIT, OPENING + FIRST_READS + FIRST_ENTERS + FIRST_TRANSPORT + FIRST_LEAVES, REMOVAL_LOST);
    assert Leads(INIT, ORPHANING, After(INIT, ORPHANING));
    Opened();
    var s0 := After(INIT, OPENING);
    ReadsAlone(s0);
    var s1 := After(s0, FIRST_READS);
    EntersAlone(s1);
    TransportAsked();
    var s2 := After(s1, FIRST_ENTERS);
    GetsTransport(s2);
    var s3 := After(s2, FIRST_TRANSPORT);
    StillJoined(s2);
    LeavesUpToSfu(s3);
    var s4 := After(s3, FIRST_LEAVES);
    Unroll6(s4, REMOVAL_LOST);
    LosesRemoval(s4);
    ClosesTheRest(Step(Step(Step(s4, Fail(1)), Exec(1)), Exec(1)));
  }

  lemma StillJoined(s: State)
    requires At(s, 1, Joined)
    ensures At(After(s, FIRST_TRANSPORT), 1, Joined)
  {
    hide After;
    OthersKeepOwn(s, FIRST_TRANSPORT, 1);
  }
}
