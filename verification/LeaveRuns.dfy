/** Short runs of leaves: a peer left behind without any failure, two closes of one
    room, a record that outlives its members, and a farewell nobody new hears. */
module LeaveRuns {
  import opened Wrappers
  import opened RoomProtocol
  import opened RoomInvariants
  import opened RoomFrames
  import opened RoomSteps
  import RoomEnds
  import Runs = RoomRuns

  /** Socket `p` adds itself, reads, fetches nothing, enters and announces itself. */
  function Joins(p: PeerId): seq<Event> {
    [Exec(p), Exec(p), Exec(p), Exec(p), Exec(p), Exec(p)]
  }

  /** It disconnects and leaves, up to its sfu removal, */
  function Departs(p: PeerId): seq<Event> {
    [Disconnect(p), Exec(p), Exec(p), Exec(p)]
  }

  /** looks whether the hash is empty and reads its keys, */
  function Looks(p: PeerId): seq<Event> {
    [Exec(p), Exec(p), Exec(p)]
  }

  /** runs the script and sends its close. */
  function Closes(p: PeerId): seq<Event> {
    [Exec(p), Exec(p), Exec(p)]
  }

  ghost predicate Hash(s: State, room: Option<Node>, peers: set<PeerId>) {
    s.room == room && s.peers == peers
  }

  lemma SharedHash(t: State, room: Option<Node>, peers: set<PeerId>, mediaRooms: map<Node, set<PeerId>>,
                   producers: map<PeerId, set<ProducerId>>)
    requires Shared(t, room, peers, producers, mediaRooms)
    ensures Hash(t, room, peers)
  {
  }

  /** A step after which the shared keys are given. */
  lemma Keyed(s: State, e: Event, room: Option<Node>, peers: set<PeerId>)
    requires exists producers, mediaRooms :: Shared(Step(s, e), room, peers, producers, mediaRooms)
    ensures Hash(Step(s, e), room, peers)
  {
    hide Step;
  }

  // ----- One socket alone -----

  lemma JoinsAlone(s: State, p: PeerId, room: Option<Node>)
    requires At(s, p, AddPeer) && Hash(s, room, {})
    ensures At(After(s, Joins(p)), p, Joined) && Hash(After(s, Joins(p)), room, {p})
  {
    hide After, Step, At, Shared;
    Runs.Unroll6(s, Joins(p));
    AddPeerStep(s, p);
    var s1 := Step(s, Exec(p));
    var nobody: set<PeerId> := {};
    assert nobody + {p} == {p} && {p} - {p} == nobody;
    Keyed(s, Exec(p), room, {p});
    ExpirePeersStep(s1, p);
    var s2 := Step(s1, Exec(p));
    Keyed(s1, Exec(p), room, {p});
    ReadPeersStep(s2, p);
    var s3 := Step(s2, Exec(p));
    Keyed(s2, Exec(p), room, {p});
    EntersAlone(s3, p, room);
  }

  lemma EntersAlone(s: State, p: PeerId, room: Option<Node>)
    requires At(s, p, FetchProducers({}, {})) && Hash(s, room, {p})
    ensures var t := Step(Step(Step(s, Exec(p)), Exec(p)), Exec(p)); At(t, p, Joined) && Hash(t, room, {p})
  {
    hide Step, At, Shared;
    FetchedAllStep(s, p, {});
    var s1 := Step(s, Exec(p));
    Keyed(s, Exec(p), room, {p});
    JoinSocketStep(s1, p);
    var s2 := Step(s1, Exec(p));
    Keyed(s1, Exec(p), room, {p});
    AnnounceStep(s2, p);
    Keyed(s2, Exec(p), room, {p});
  }

  lemma DepartsFrom(s: State, p: PeerId, n: Node, peers: set<PeerId>)
    requires At(s, p, Joined) && Hash(s, Some(n), peers)
    ensures At(After(s, Departs(p)), p, LeaveSfu(n)) && Hash(After(s, Departs(p)), Some(n), peers - {p})
  {
    hide After, Step, At, Shared;
    Runs.Unroll4(s, Departs(p));
    DisconnectStep(s, p);
    var s1 := Step(s, Disconnect(p));
    Keyed(s, Disconnect(p), Some(n), peers);
    LeaveGetStep(s1, p);
    var s2 := Step(s1, Exec(p));
    Keyed(s1, Exec(p), Some(n), peers);
    LeavePeerStep(s2, p, n);
    var s3 := Step(s2, Exec(p));
    Keyed(s2, Exec(p), Some(n), peers - {p});
    LeaveProducersStep(s3, p, n);
    Keyed(s3, Exec(p), Some(n), peers - {p});
  }

  lemma LooksAround(s: State, p: PeerId, n: Node)
    requires At(s, p, LeaveSfu(n)) && Hash(s, Some(n), {})
    ensures At(After(s, Looks(p)), p, LeaveScript(n, {})) && Hash(After(s, Looks(p)), Some(n), {})
  {
    hide After, Step, At, Shared;
    Runs.Unroll3(s, Looks(p));
    LeaveSfuStep(s, p, n);
    var s1 := Step(s, Exec(p));
    Keyed(s, Exec(p), Some(n), {});
    LeaveCheckStep(s1, p, n);
    var s2 := Step(s1, Exec(p));
    Keyed(s1, Exec(p), Some(n), {});
    LeaveKeysStep(s2, p, n);
    Keyed(s2, Exec(p), Some(n), {});
  }

  lemma ClosesRoom(s: State, p: PeerId, n: Node, room: Option<Node>)
    requires At(s, p, LeaveScript(n, {})) && Hash(s, room, {})
    ensures var t := After(s, Closes(p));
            && At(t, p, Left) && Hash(t, None, {}) && p in t.h.closes && t.h.closes[p].arrived
            && forall q | q in s.h.closes && q != p :: q in t.h.closes && t.h.closes[q] == s.h.closes[q]
  {
    hide After, Step, At, Shared;
    Runs.Unroll3(s, Closes(p));
    LeaveScriptStep(s, p, n, {});
    ScriptSends(s, p, n);
    var s1 := Step(s, Exec(p));
    Keyed(s, Exec(p), None, {});
    CleanedAllStep(s1, p, n);
    CleanSends(s1, p, n);
    Keyed(s1, Exec(p), None, {});
    SendsClose(Step(s1, Exec(p)), p, n);
  }

  lemma SendsClose(s: State, p: PeerId, n: Node)
    requires At(s, p, SfuClose(n)) && Hash(s, None, {})
    ensures var t := Step(s, Exec(p));
            At(t, p, Left) && Hash(t, None, {}) && t.h.closes == s.h.closes[p := SentClose(s.h.tried, true)]
  {
    hide Step, At, Shared;
    SfuCloseStep(s, p, n);
    CloseIsSent(s, p, n);
    Keyed(s, Exec(p), None, {});
  }

  lemma ScriptSends(s: State, p: PeerId, n: Node)
    requires At(s, p, LeaveScript(n, {}))
    ensures Step(s, Exec(p)).h == s.h
  {
    if s.peers == {} {
    }
  }

  lemma CleanSends(s: State, p: PeerId, n: Node)
    requires At(s, p, LeaveClean(n, {}))
    ensures Step(s, Exec(p)).h == s.h
  {
  }

  lemma CloseIsSent(s: State, p: PeerId, n: Node)
    requires At(s, p, SfuClose(n))
    ensures Step(s, Exec(p)).h.closes == s.h.closes[p := SentClose(s.h.tried, true)]
  {
  }

  // ----- A peer left behind without any failure -----

  /** Socket 2 looks the room up. */
  const SECOND_FINDS := [Connect(2, 0), Exec(2), Exec(2)]

  /** Socket 2 joins alone and takes the room down, while socket 1 stands in front of
      its HSET; then socket 1 joins and leaves. */
  const GHOSTLY := Runs.OPENING + SECOND_FINDS + Joins(2) + Departs(2) + Looks(2) + Closes(2) + Joins(1)
                   + [Disconnect(1), Exec(1)]

  /** The states between its parts. */
  function Haunted(): (State, State, State, State, State, State) {
    var s0 := After(INIT, Runs.OPENING);
    var s1 := After(s0, SECOND_FINDS);
    var s2 := After(s1, Joins(2));
    var s3 := After(s2, Departs(2));
    var s4 := After(s3, Looks(2));
    (s0, s1, s2, s3, s4, After(s4, Closes(2)))
  }

  lemma HauntedIsGhostly()
    ensures After(INIT, GHOSTLY) == After(After(Haunted().5, Joins(1)), [Disconnect(1), Exec(1)])
  {
    hide After, Joins, Departs, Looks, Closes;
    var a := Runs.OPENING + SECOND_FINDS;
    var b := a + Joins(2);
    var c := b + Departs(2);
    var d := c + Looks(2);
    var e := d + Closes(2);
    AfterConcat(INIT, Runs.OPENING, SECOND_FINDS);
    AfterConcat(INIT, a, Joins(2));
    AfterConcat(INIT, b, Departs(2));
    AfterConcat(INIT, c, Looks(2));
    AfterConcat(INIT, d, Closes(2));
    AfterConcat(INIT, e, Joins(1));
    AfterConcat(INIT, e + Joins(1), [Disconnect(1), Exec(1)]);
  }

  /** Meanwhile socket 1 stays where it is. */
  lemma FirstStays()
    requires At(Haunted().0, 1, AddPeer)
    ensures At(Haunted().5, 1, AddPeer)
  {
    hide After;
    OthersKeepOwn(Haunted().0, SECOND_FINDS, 1);
    OthersKeepOwn(Haunted().1, Joins(2), 1);
    OthersKeepOwn(Haunted().2, Departs(2), 1);
    OthersKeepOwn(Haunted().3, Looks(2), 1);
    OthersKeepOwn(Haunted().4, Closes(2), 1);
  }

  lemma SecondIsNew()
    ensures 2 !in Haunted().0.clients
  {
    hide After;
    OthersKeepOwn(INIT, Runs.OPENING, 2);
  }

  lemma SecondFinds()
    requires Shared(Haunted().0, Some(7), {}, map[], map[7 := {}])
    ensures At(Haunted().1, 2, AddPeer) && Hash(Haunted().1, Some(7), {})
  {
    hide After, Step, At;
    SecondIsNew();
    Runs.Unroll3(Haunted().0, SECOND_FINDS);
    Runs.OpenedWorld(Haunted().0);
    Runs.FindsRoom(Haunted().0, 2, 0, {});
  }

  lemma LeavesUnrecorded(s: State)
    requires At(s, 1, Joined) && Hash(s, None, {1})
    ensures var t := After(s, [Disconnect(1), Exec(1)]); At(t, 1, Left) && Came(t, 1, LeaveGet) && Hash(t, None, {1})
  {
    hide After, Step, At, Shared, Came;
    Runs.Nothing(s, [Disconnect(1), Exec(1)]);
    Runs.Prefix(s, [Disconnect(1), Exec(1)], 0);
    Runs.Prefix(s, [Disconnect(1), Exec(1)], 1);
    DisconnectStep(s, 1);
    Keyed(s, Disconnect(1), None, {1});
    var s1 := Step(s, Disconnect(1));
    LeaveGetStep(s1, 1);
    Keyed(s1, Exec(1), None, {1});
  }

  /** No command fails in this run, and at its end socket 1 has left without its
      record and is still in the peers hash. */
  lemma UnrecordedGhostIsReachable()
    ensures var s := After(INIT, GHOSTLY);
            && Reachable(s) && At(s, 1, Left) && Came(s, 1, LeaveGet) && s.room == None && s.peers == {1}
    ensures forall i | 0 <= i < |GHOSTLY| :: !Rejection(GHOSTLY[i])
  {
    hide After, At, Shared, Joins, Departs, Looks, Closes, Came, Haunted;
    HauntedIsGhostly();
    Haunting();
    var s := Haunted().5;
    JoinsAlone(s, 1, None);
    LeavesUnrecorded(After(s, Joins(1)));
    assert Leads(INIT, GHOSTLY, After(INIT, GHOSTLY));
    NothingFails();
  }

  lemma Haunting()
    ensures At(Haunted().5, 1, AddPeer) && Hash(Haunted().5, None, {})
  {
    hide After, At, Shared, Joins, Departs, Looks, Closes;
    Runs.Opened();
    FirstStays();
    SecondFinds();
    JoinsAlone(Haunted().1, 2, Some(7));
    DepartsFrom(Haunted().2, 2, 7, {2});
    LooksAround(Haunted().3, 2, 7);
    ClosesRoom(Haunted().4, 2, 7, Some(7));
  }

  predicate Rejection(e: Event) {
    e.Fail? || e.FailClean? || e.FailCreation? || e.FailRequest?
  }

  lemma NothingFails()
    ensures forall i | 0 <= i < |GHOSTLY| :: !Rejection(GHOSTLY[i])
  {
  }

  // ----- Two closes of one room -----

  /** Both leave, and both look before either runs its script. */
  function BothLeave(p: PeerId, q: PeerId): seq<Event> {
    Departs(p) + Departs(q) + Looks(p) + Looks(q) + Closes(p) + Closes(q)
  }

  /** The states between the parts of that run. */
  function Halfway(s: State, p: PeerId, q: PeerId): (State, State, State, State, State, State) {
    var s1 := After(s, Departs(p));
    var s2 := After(s1, Departs(q));
    var s3 := After(s2, Looks(p));
    var s4 := After(s3, Looks(q));
    var s5 := After(s4, Closes(p));
    (s1, s2, s3, s4, s5, After(s5, Closes(q)))
  }

  lemma BothLeaveHalfway(s: State, p: PeerId, q: PeerId)
    ensures After(s, BothLeave(p, q)) == Halfway(s, p, q).5
  {
    hide After, Departs, Looks, Closes;
    var a := Departs(p) + Departs(q);
    var b := a + Looks(p);
    var c := b + Looks(q);
    AfterConcat(s, Departs(p), Departs(q));
    AfterConcat(s, a, Looks(p));
    AfterConcat(s, b, Looks(q));
    AfterConcat(s, c, Closes(p));
    AfterConcat(s, c + Closes(p), Closes(q));
  }

  lemma Waits(s: State, p: PeerId, q: PeerId, pc: Pc)
    requires p != q && At(s, p, pc)
    ensures At(After(s, Departs(q)), p, pc) && At(After(s, Looks(q)), p, pc) && At(After(s, Closes(q)), p, pc)
  {
    hide After;
    OthersKeepOwn(s, Departs(q), p);
    OthersKeepOwn(s, Looks(q), p);
    OthersKeepOwn(s, Closes(q), p);
  }

  /** The two last members of a room, leaving together, both find the hash empty
      with their scripts, and both send the close. */
  lemma BothSendTheClose(s: State, p: PeerId, q: PeerId, n: Node)
    requires p != q && At(s, p, Joined) && At(s, q, Joined) && s.room == Some(n) && s.peers == {p, q}
    ensures var t := After(s, BothLeave(p, q));
            && At(t, p, Left) && At(t, q, Left) && t.room == None && t.peers == {}
            && p in t.h.closes && t.h.closes[p].arrived && q in t.h.closes && t.h.closes[q].arrived
  {
    hide After, At, Departs, Looks, Closes;
    BothLeaveHalfway(s, p, q);
    var h := Halfway(s, p, q);
    assert {p, q} - {p} == {q} && {q} - {q} == {};
    DepartsFrom(s, p, n, {p, q});
    Waits(s, q, p, Joined);
    DepartsFrom(h.0, q, n, {q});
    Waits(h.0, p, q, LeaveSfu(n));
    LooksAround(h.1, p, n);
    Waits(h.1, q, p, LeaveSfu(n));
    LooksAround(h.2, q, n);
    Waits(h.2, p, q, LeaveScript(n, {}));
    ClosesRoom(h.3, p, n, Some(n));
    Waits(h.3, q, p, LeaveScript(n, {}));
    ClosesRoom(h.4, q, n, None);
    Waits(h.4, p, q, Left);
  }

  const TWO_CLOSES := Runs.MISSING + BothLeave(1, 2)

  lemma TwoClosesAreReachable()
    ensures var s := After(INIT, TWO_CLOSES);
            && Reachable(s) && s.room == None && s.peers == {}
            && 1 in s.h.closes && s.h.closes[1].arrived && 2 in s.h.closes && s.h.closes[2].arrived
  {
    hide After, At, Runs.Played, BothLeave, Runs.HeardNothing;
    AfterConcat(INIT, Runs.MISSING, BothLeave(1, 2));
    Runs.PlayedIsMissing();
    Runs.PlayedEnds();
    BothSendTheClose(After(INIT, Runs.MISSING), 1, 2, 7);
    assert Leads(INIT, TWO_CLOSES, After(INIT, TWO_CLOSES));
  }

  // ----- A record that outlives its members -----

  /** The HLEN behind its sfu removal is rejected. */
  const HLEN_FAILS := [Exec(1), Fail(1)]

  const RECORD_LEFT := Runs.OPENING + Joins(1) + Departs(1) + HLEN_FAILS

  lemma EndsAtHlen(s: State)
    requires At(s, 1, LeaveSfu(7)) && Hash(s, Some(7), {})
    ensures var t := After(s, HLEN_FAILS); At(t, 1, Left) && Came(t, 1, LeaveCheck(7)) && Hash(t, Some(7), {})
  {
    hide After, Step, At, Shared, Came;
    Runs.Nothing(s, HLEN_FAILS);
    Runs.Prefix(s, HLEN_FAILS, 0);
    Runs.Prefix(s, HLEN_FAILS, 1);
    LeaveSfuStep(s, 1, 7);
    Keyed(s, Exec(1), Some(7), {});
    FailsAtHlen(Step(s, Exec(1)));
  }

  lemma FailsAtHlen(s: State)
    requires At(s, 1, LeaveCheck(7)) && Hash(s, Some(7), {})
    ensures var t := Step(s, Fail(1)); At(t, 1, Left) && Came(t, 1, LeaveCheck(7)) && Hash(t, Some(7), {})
  {
    hide Step, At, Shared, Came;
    FailStep(s, 1, LeaveCheck(7));
    Keyed(s, Fail(1), Some(7), {});
  }

  /** The only member has left, and its record is there over an empty hash. */
  lemma RecordLeftIsReachable()
    ensures var s := After(INIT, RECORD_LEFT);
            Reachable(s) && At(s, 1, Left) && Came(s, 1, LeaveCheck(7)) && s.room == Some(7) && s.peers == {}
  {
    hide After, At, Shared, Joins, Departs, Came;
    AfterConcat(INIT, Runs.OPENING, Joins(1));
    AfterConcat(INIT, Runs.OPENING + Joins(1), Departs(1));
    AfterConcat(INIT, Runs.OPENING + Joins(1) + Departs(1), HLEN_FAILS);
    Runs.Opened();
    var s0 := After(INIT, Runs.OPENING);
    SharedHash(s0, Some(7), {}, map[7 := {}], map[]);
    JoinsAlone(s0, 1, Some(7));
    var s1 := After(s0, Joins(1));
    DepartsFrom(s1, 1, 7, {1});
    EndsAtHlen(After(s1, Departs(1)));
    assert Leads(INIT, RECORD_LEFT, After(INIT, RECORD_LEFT));
  }

  // ----- A farewell that a newcomer does not hear -----

  lemma SecondFindsRoom(s: State)
    requires 2 !in s.clients && Hash(s, Some(7), {1})
    ensures var t := Step(Step(Step(s, Connect(2, 0)), Exec(2)), Exec(2)); At(t, 2, AddPeer) && Hash(t, Some(7), {1})
  {
    hide Step, At, Shared;
    Runs.ConnectStep(s, 2, 0);
    var s1 := Step(s, Connect(2, 0));
    Keyed(s, Connect(2, 0), Some(7), {1});
    GetRoomStep(s1, 2);
    var s2 := Step(s1, Exec(2));
    Keyed(s1, Exec(2), Some(7), {1});
    RefreshRoomStep(s2, 2);
    Keyed(s2, Exec(2), Some(7), {1});
  }

  lemma SecondReads(s: State)
    requires 2 !in s.clients && Hash(s, Some(7), {1})
    ensures var t := After(s, Runs.SECOND_READS);
            && At(t, 2, FetchProducers({1}, {})) && Hash(t, Some(7), {1, 2})
            && 2 in t.existingPeers && t.existingPeers[2] == {1}
  {
    hide After, Step, At, Shared;
    Runs.Unroll6(s, Runs.SECOND_READS);
    SecondFindsRoom(s);
    var s3 := Step(Step(Step(s, Connect(2, 0)), Exec(2)), Exec(2));
    AddPeerStep(s3, 2);
    var s4 := Step(s3, Exec(2));
    assert {1} + {2} == {1, 2} && {1, 2} - {2} == {1};
    Keyed(s3, Exec(2), Some(7), {1, 2});
    ExpirePeersStep(s4, 2);
    var s5 := Step(s4, Exec(2));
    Keyed(s4, Exec(2), Some(7), {1, 2});
    ReadPeersStep(s5, 2);
    Keyed(s5, Exec(2), Some(7), {1, 2});
  }

  /** Its check finds somebody in the hash. */
  const FIRST_FINDS_SOMEBODY := [Exec(1), Exec(1)]

  lemma FirstGone(s: State)
    requires At(s, 1, LeaveSfu(7)) && Hash(s, Some(7), {2})
    ensures var t := After(s, FIRST_FINDS_SOMEBODY);
            At(t, 1, Left) && Came(t, 1, LeaveCheck(7)) && Hash(t, Some(7), {2})
  {
    hide After, Step, At, Shared, Came;
    Runs.Nothing(s, FIRST_FINDS_SOMEBODY);
    Runs.Prefix(s, FIRST_FINDS_SOMEBODY, 0);
    Runs.Prefix(s, FIRST_FINDS_SOMEBODY, 1);
    LeaveSfuStep(s, 1, 7);
    Keyed(s, Exec(1), Some(7), {2});
    var s1 := Step(s, Exec(1));
    LeaveCheckStep(s1, 1, 7);
    Keyed(s1, Exec(1), Some(7), {2});
  }

  lemma SecondEntersLate(s: State)
    requires At(s, 2, FetchProducers({1}, {})) && 2 in s.existingPeers && s.existingPeers[2] == {1}
    ensures var t := After(s, Runs.SECOND_ENTERS);
            At(t, 2, Joined) && 2 in t.existingPeers && t.existingPeers[2] == {1}
  {
    hide After, Step, At, Shared;
    Runs.Unroll4(s, Runs.SECOND_ENTERS);
    FetchStep(s, 2, {1}, {}, 1);
    var s1 := Step(s, Fetch(2, 1));
    var nobody: set<PeerId> := {};
    assert nobody + {1} == {1};
    FetchedAllStep(s1, 2, {1});
    var s2 := Step(s1, Exec(2));
    JoinSocketStep(s2, 2);
    AnnounceStep(Step(s2, Exec(2)), 2);
  }

  const FAREWELL := Runs.OPENING + Joins(1) + Runs.SECOND_READS + Departs(1) + FIRST_FINDS_SOMEBODY

  function Parting(): (State, State, State, State, State) {
    var s0 := After(INIT, Runs.OPENING);
    var s1 := After(s0, Joins(1));
    var s2 := After(s1, Runs.SECOND_READS);
    var s3 := After(s2, Departs(1));
    (s0, s1, s2, s3, After(s3, FIRST_FINDS_SOMEBODY))
  }

  lemma PartingIsFarewell()
    ensures After(INIT, FAREWELL) == Parting().4
  {
    hide After, Joins, Departs;
    var a := Runs.OPENING + Joins(1);
    var b := a + Runs.SECOND_READS;
    AfterConcat(INIT, Runs.OPENING, Joins(1));
    AfterConcat(INIT, a, Runs.SECOND_READS);
    AfterConcat(INIT, b, Departs(1));
    AfterConcat(INIT, b + Departs(1), FIRST_FINDS_SOMEBODY);
  }

  lemma NobodyElseYet()
    ensures 2 !in Parting().1.clients
  {
    hide After;
    AfterConcat(INIT, Runs.OPENING, Joins(1));
    OthersKeepOwn(INIT, Runs.OPENING + Joins(1), 2);
  }

  lemma FirstParts()
    requires At(Parting().1, 1, Joined) && Hash(Parting().2, Some(7), {1, 2})
    ensures At(Parting().4, 1, Left) && Came(Parting().4, 1, LeaveCheck(7)) && Hash(Parting().4, Some(7), {2})
  {
    hide After, At, Came, Departs;
    OthersKeepOwn(Parting().1, Runs.SECOND_READS, 1);
    KeptAt(Parting().1, Parting().2, 1, Joined);
    assert {1, 2} - {1} == {2};
    DepartsFrom(Parting().2, 1, 7, {1, 2});
    FirstGone(Parting().3);
  }

  lemma KeptAt(s: State, t: State, p: PeerId, pc: Pc)
    requires At(s, p, pc) && SameOwn(s, t, p)
    ensures At(t, p, pc)
  {
  }

  lemma SecondWaits()
    requires At(Parting().2, 2, FetchProducers({1}, {})) && 2 in Parting().2.existingPeers
    requires Parting().2.existingPeers[2] == {1}
    ensures At(Parting().4, 2, FetchProducers({1}, {})) && 2 in Parting().4.existingPeers
    ensures Parting().4.existingPeers[2] == {1}
  {
    hide After;
    OthersKeepOwn(Parting().2, Departs(1), 2);
    OthersKeepOwn(Parting().3, FIRST_FINDS_SOMEBODY, 2);
  }

  /** When socket 1 has left and says so, socket 2 has read it from the hash but is
      not yet in the socket room; it enters, and still takes socket 1 for a member. */
  lemma FarewellCanBeMissed()
    ensures var s, t := After(INIT, FAREWELL), After(INIT, FAREWELL + Runs.SECOND_ENTERS);
            && Reachable(s) && At(s, 1, Left) && Came(s, 1, LeaveCheck(7)) && 1 !in s.peers && 2 !in s.sockets
            && Reachable(t) && At(t, 2, Joined) && 2 in t.existingPeers && 1 in t.existingPeers[2]
  {
    hide After, At, Shared, Joins, Departs, Came, Parting;
    PartingIsFarewell();
    AfterConcat(INIT, FAREWELL, Runs.SECOND_ENTERS);
    BeforeFarewell();
    var s := After(INIT, FAREWELL);
    assert Leads(INIT, FAREWELL, s);
    assert Leads(INIT, FAREWELL + Runs.SECOND_ENTERS, After(INIT, FAREWELL + Runs.SECOND_ENTERS));
    SecondEntersLate(s);
    NotInRoomYet(s);
  }

  lemma NotInRoomYet(s: State)
    requires Reachable(s) && At(s, 2, FetchProducers({1}, {}))
    ensures 2 !in s.sockets
  {
    hide After;
    RoomEnds.SocketsInRoom(s, 2);
  }

  lemma BeforeFarewell()
    ensures var s := Parting().4;
            && At(s, 1, Left) && Came(s, 1, LeaveCheck(7)) && Hash(s, Some(7), {2})
            && At(s, 2, FetchProducers({1}, {})) && 2 in s.existingPeers && s.existingPeers[2] == {1}
  {
    hide After, At, Shared, Joins, Departs, Came;
    Runs.Opened();
    SharedHash(Parting().0, Some(7), {}, map[7 := {}], map[]);
    JoinsAlone(Parting().0, 1, Some(7));
    NobodyElseYet();
    SecondReads(Parting().1);
    FirstParts();
    SecondWaits();
  }
}
