/** A room that everybody leaves while Redis answers: only requests to the sfu
    fail. Then nothing but a MediaRoom can be left behind. */
module RoomOrphans {
  import opened Wrappers
  import opened RoomProtocol
  import opened RoomTeardown

  /** Nobody arrives, nobody asks, and only requests to the sfu fail. */
  predicate LeaveOnly(s: State, e: Event) {
    && !e.Connect? && !e.Ask? && !e.FailClean?
    && (e.Fail? && e.p in s.clients ==> s.clients[e.p].pc.LeaveSfu? || s.clients[e.p].pc.SfuClose?)
  }

  ghost predicate LeaveRun(s: State, es: seq<Event>) {
    forall k | 0 <= k < |es| :: LeaveOnly(After(s, es[..k]), es[k])
  }

  /** A leave ends only where it found somebody in the hash, or with its close. */
  ghost predicate Orderly(cs: Clients, at: Clients, st: Start)
    requires st.members <= cs.Keys && st.members <= at.Keys
  {
    forall p | p in st.members ::
      if cs[p].pc.Left? then at[p].pc.LeaveCheck? || at[p].pc.LeaveScript? || at[p].pc.SfuClose? else at[p] == cs[p]
  }

  /** While the record stands, somebody has yet to run the closing script. */
  ghost predicate RecordHasCloser(cs: Clients, room: Option<Node>, st: Start)
    requires st.members <= cs.Keys
  {
    room.Some? ==> exists p :: p in st.members && BeforeScript(cs[p].pc)
  }

  /** Somebody has yet to decide about the close of the MediaRoom, or has sent it
      behind everybody's removal. */
  ghost predicate SfuHasCloser(cs: Clients, closes: map<PeerId, SentClose>, st: Start)
    requires st.members <= cs.Keys
  {
    exists p :: p in st.members && (Unfinished(cs[p].pc) || (p in closes && st.members <= closes[p].tried))
  }

  ghost predicate Closers(s: State, st: Start) {
    var at := Places(s.clients, s.cameFrom);
    && st.members <= s.clients.Keys && st.members <= at.Keys
    && Orderly(s.clients, at, st) && RecordHasCloser(s.clients, s.room, st)
    && SfuHasCloser(s.clients, s.h.closes, st)
  }

  lemma ClosersStart(s: State, n: Node)
    requires Occupied(s, n)
    ensures Closers(s, StartOf(s, n))
  {
    SomeMember(s.peers);
    var p :| p in s.peers;
    assert BeforeScript(s.clients[p].pc) && Unfinished(s.clients[p].pc);
    forall q | q in s.peers ensures q in s.clients.Keys {
    }
  }

  // ----- What a member's move keeps -----

  lemma OrderlyMove(s: State, st: Start, p: PeerId, pc: Pc)
    requires Closers(s, st) && p in st.members && !s.clients[p].pc.Left?
    requires var was := s.clients[p].pc; pc.Left? ==> was.LeaveCheck? || was.LeaveScript? || was.SfuClose?
    ensures var t := Goto(s, p, s.clients[p], pc);
            && st.members <= t.clients.Keys && st.members <= Places(t.clients, t.cameFrom).Keys
            && Orderly(t.clients, Places(t.clients, t.cameFrom), st)
  {
    hide RecordHasCloser, SfuHasCloser, Places;
    PlacesMove(s.clients, s.cameFrom, p, pc);
  }

  ghost predicate SameHandlers(s: State, t: State) {
    t.clients == s.clients && t.cameFrom == s.cameFrom && t.h.closes == s.h.closes
  }

  lemma CommandsSame(s: State, p: PeerId, n: Node)
    ensures SameHandlers(s, s)
    ensures SameHandlers(s, RemoveFromPeers(s, p)) && RemoveFromPeers(s, p).room == s.room
    ensures SameHandlers(s, DropProducers(s, p)) && DropProducers(s, p).room == s.room
    ensures SameHandlers(s, SfuRemovePeer(s, n, p)) && SfuRemovePeer(s, n, p).room == s.room
  {
  }

  lemma ScriptSame(s: State)
    requires s.peers == {}
    ensures SameHandlers(s, CloseIfEmpty(s)) && CloseIfEmpty(s).room == None
  {
  }

  lemma LossSame(s: State, p: PeerId, n: Node)
    ensures var t := s.(h := NoteFailure(s.h, p, LeaveSfu(n))); SameHandlers(s, t) && t.room == s.room
  {
  }

  lemma DisconnectSame(s: State, sockets: set<PeerId>)
    ensures SameHandlers(s, s.(sockets := sockets)) && s.(sockets := sockets).room == s.room
  {
  }

  lemma CloseOnly(s: State, n: Node, p: PeerId)
    ensures var t := SfuCloseRoom(s, n, p); t == s.(mediaRooms := t.mediaRooms, h := NoteClose(s.h, p, true))
  {
    hide NoteClose;
  }

  /** The handler goes on; if its script is behind it, the record is gone. */
  lemma MovesOn(s: State, t: State, st: Start, p: PeerId, pc: Pc)
    requires Closers(s, st) && p in st.members && !s.clients[p].pc.Left? && Unfinished(pc)
    requires SameHandlers(s, t)
    requires t.room == None || (t.room == s.room && (BeforeScript(s.clients[p].pc) ==> BeforeScript(pc)))
    ensures Closers(Goto(t, p, s.clients[p], pc), st)
  {
    hide Orderly, RecordHasCloser, SfuHasCloser, Places;
    OrderlyMove(s, st, p, pc);
    RecordOn(s.clients, s.room, t.room, st, p, pc);
    CloserOn(s.clients, s.h.closes, st, p, pc);
  }

  lemma RecordOn(cs: Clients, room: Option<Node>, now: Option<Node>, st: Start, p: PeerId, pc: Pc)
    requires st.members <= cs.Keys && RecordHasCloser(cs, room, st) && p in st.members
    requires now == None || (now == room && (BeforeScript(cs[p].pc) ==> BeforeScript(pc)))
    ensures var u := cs[p := Client(cs[p].instance, pc)]; st.members <= u.Keys && RecordHasCloser(u, now, st)
  {
    if now.Some? {
      var q :| q in st.members && BeforeScript(cs[q].pc);
      assert BeforeScript(cs[p := Client(cs[p].instance, pc)][q].pc);
    }
  }

  lemma CloserOn(cs: Clients, closes: map<PeerId, SentClose>, st: Start, p: PeerId, pc: Pc)
    requires st.members <= cs.Keys && SfuHasCloser(cs, closes, st) && p in st.members && Unfinished(pc)
    ensures var u := cs[p := Client(cs[p].instance, pc)]; st.members <= u.Keys && SfuHasCloser(u, closes, st)
  {
    assert Unfinished(cs[p := Client(cs[p].instance, pc)][p].pc);
  }

  /** Somebody is still a member, so this leave ends without closing. */
  lemma GivesUp(s: State, st: Start, p: PeerId)
    requires Teardown(s, st) && Closers(s, st) && p in st.members && s.peers != {}
    requires s.clients[p].pc.LeaveCheck? || s.clients[p].pc.LeaveScript?
    ensures Closers(Goto(s, p, s.clients[p], Left), st)
  {
    hide Orderly, RecordHasCloser, SfuHasCloser, Places;
    OrderlyMove(s, st, p, Left);
    MemberRemains(s, st, p);
  }

  lemma MemberRemains(s: State, st: Start, p: PeerId)
    requires Teardown(s, st) && Closers(s, st) && p in st.members && s.peers != {} && !StillMember(s.clients[p].pc)
    ensures var u := s.clients[p := Client(s.clients[p].instance, Left)];
            && st.members <= u.Keys && RecordHasCloser(u, s.room, st) && SfuHasCloser(u, s.h.closes, st)
  {
    hide Settled, Elsewhere, Positions, RecordStays, ScriptRan, OwnersStay, SfuStays, TriedStays, ClosesStay, Endings,
         Places;
    SomeMember(s.peers);
    var q :| q in s.peers;
    var u := s.clients[p := Client(s.clients[p].instance, Left)];
    assert StillMember(Places(s.clients, s.cameFrom)[q].pc) && StillMember(s.clients[q].pc);
    assert q != p && BeforeScript(u[q].pc) && Unfinished(u[q].pc);
  }

  /** Whose removal was not tried yet has yet to decide about the close. */
  lemma Sends(s: State, t: State, st: Start, p: PeerId, arrived: bool)
    requires Teardown(s, st) && Closers(s, st) && p in st.members && s.clients[p].pc.SfuClose?
    requires t == s.(mediaRooms := t.mediaRooms, h := NoteClose(s.h, p, arrived))
    ensures Closers(Goto(t, p, s.clients[p], Left), st)
  {
    hide Orderly, RecordHasCloser, SfuHasCloser, Places, Teardown;
    OrderlyMove(s, st, p, Left);
    RecordOn(s.clients, s.room, s.room, st, p, Left);
    SentOrUnfinished(s, st, p, arrived);
  }

  lemma SentOrUnfinished(s: State, st: Start, p: PeerId, arrived: bool)
    requires Teardown(s, st) && Closers(s, st) && p in st.members && s.clients[p].pc.SfuClose?
    ensures var u := s.clients[p := Client(s.clients[p].instance, Left)];
            st.members <= u.Keys && SfuHasCloser(u, s.h.closes[p := SentClose(s.h.tried, arrived)], st)
  {
    hide Settled, Elsewhere, Positions, MembersStay, RecordStays, ScriptRan, OwnersStay, SfuStays, ClosesStay, Endings,
         Places, RecordHasCloser;
    var untried, now := st.members - s.h.tried, s.h.closes[p := SentClose(s.h.tried, arrived)];
    SomeMember(untried);
    if untried == {} {
      forall q | q in st.members ensures q in s.h.tried {
        assert q !in untried;
      }
      assert p in now && st.members <= now[p].tried;
    } else {
      var q :| q in untried;
      assert BeforeSfu(Places(s.clients, s.cameFrom)[q].pc) && BeforeSfu(s.clients[q].pc);
      assert q != p && Unfinished(s.clients[p := Client(s.clients[p].instance, Left)][q].pc);
    }
  }

  lemma DepartClosers(s: State, st: Start, p: PeerId)
    requires Teardown(s, st) && Closers(s, st) && p in st.members && p in s.clients
    requires Departing(s.clients[p].pc)
    ensures Closers(ExecDepart(s, p, s.clients[p]), st)
  {
    hide Teardown, Closers, Goto, RemoveFromPeers, DropProducers, SfuRemovePeer, SameHandlers;
    OnNodeFact(s, st, p);
    CommandsSame(s, p, st.n);
    match s.clients[p].pc {
      case LeaveGet => RecordFact(s, st, p); MovesOn(s, s, st, p, LeavePeer(st.n));
      case LeavePeer(n) => MovesOn(s, RemoveFromPeers(s, p), st, p, LeaveProducers(n));
      case LeaveProducers(n) => MovesOn(s, DropProducers(s, p), st, p, LeaveSfu(n));
      case LeaveSfu(n) => MovesOn(s, SfuRemovePeer(s, n, p), st, p, LeaveCheck(n));
    }
  }

  lemma CloseClosers(s: State, st: Start, p: PeerId)
    requires Teardown(s, st) && Closers(s, st) && p in st.members && p in s.clients && Closing(s.clients[p].pc)
    ensures Closers(ExecClose(s, p, s.clients[p]), st)
  {
    hide Teardown, Closers, Goto, CloseIfEmpty, SfuCloseRoom, NoteClose, SameHandlers;
    CommandsSame(s, p, st.n);
    match s.clients[p].pc {
      case LeaveCheck(n) =>
        if s.peers == {} { MovesOn(s, s, st, p, LeaveKeys(n)); } else { GivesUp(s, st, p); }
      case LeaveKeys(n) => MovesOn(s, s, st, p, LeaveScript(n, s.peers));
      case LeaveScript(n, keys) =>
        if s.peers == {} {
          ScriptSame(s);
          MovesOn(s, CloseIfEmpty(s), st, p, LeaveClean(n, keys));
        } else {
          GivesUp(s, st, p);
          NothingClosed(s);
        }
      case LeaveClean(n, keys) => if keys == {} { MovesOn(s, s, st, p, SfuClose(n)); }
      case SfuClose(n) => CloseOnly(s, n, p); Sends(s, SfuCloseRoom(s, n, p), st, p, true);
    }
  }

  lemma FailureClosers(s: State, st: Start, p: PeerId)
    requires Teardown(s, st) && Closers(s, st) && p in st.members && p in s.clients
    requires s.clients[p].pc.LeaveSfu? || s.clients[p].pc.SfuClose?
    ensures Closers(FailClient(s, p, s.clients[p]), st)
  {
    hide Teardown, Closers, Goto, NoteClose;
    match s.clients[p].pc {
      case LeaveSfu(n) =>
        LossSame(s, p, n);
        MovesOn(s, s.(h := NoteFailure(s.h, p, LeaveSfu(n))), st, p, LeaveCheck(n));
      case SfuClose(_) => Sends(s, s.(h := NoteClose(s.h, p, false)), st, p, false);
    }
  }

  lemma ClientClosers(s: State, st: Start, e: Event, p: PeerId)
    requires Teardown(s, st) && Closers(s, st) && p in st.members && p in s.clients && !e.FailClean?
    requires e.Fail? ==> s.clients[p].pc.LeaveSfu? || s.clients[p].pc.SfuClose?
    ensures Closers(StepClient(s, e, p, s.clients[p]), st)
  {
    hide Teardown, Closers, Goto, FailClient, CleanOne, ExecDepart, ExecClose, SameHandlers;
    OnNodeFact(s, st, p);
    match e {
      case Exec(_) =>
        if Departing(s.clients[p].pc) { DepartClosers(s, st, p); }
        else if Closing(s.clients[p].pc) { CloseClosers(s, st, p); }
      case Fail(_) => FailureClosers(s, st, p);
      case Clean(_, o) => DeletionClosers(s, st, p, o);
      case Disconnect(_) =>
        DisconnectSame(s, s.sockets - {p});
        if s.clients[p].pc.Joined? { MovesOn(s, s.(sockets := s.sockets - {p}), st, p, LeaveGet); }
      case _ =>
    }
  }

  lemma DeletionClosers(s: State, st: Start, p: PeerId, o: PeerId)
    requires Closers(s, st) && p in s.clients && (p in st.members || s.clients[p].pc.Left? || s.clients[p].pc.Rejected?)
    ensures Closers(CleanOne(s, p, s.clients[p], o), st)
  {
    match s.clients[p].pc {
      case LeaveClean(n, keys) =>
        hide Closers, Goto, DropProducers, SameHandlers;
        CommandsSame(s, o, n);
        if o in keys { MovesOn(s, DropProducers(s, o), st, p, LeaveClean(n, keys - {o})); }
      case Left =>
        hide Orderly, RecordHasCloser, SfuHasCloser, Places, StrayOf;
      case _ =>
    }
  }

  lemma ClosersStep(s: State, st: Start, e: Event)
    requires Teardown(s, st) && Closers(s, st) && LeaveOnly(s, e)
    ensures Closers(Step(s, e), st)
  {
    hide Closers, StepClient, StepCreation, StepRequest, Teardown;
    if ByHandler(e) {
      if e.p in st.members {
        OnNodeFact(s, st, e.p);
        ClientClosers(s, st, e, e.p);
      } else if e.p in s.clients {
        GoneClosers(s, st, e, e.p);
      }
    } else {
      SettledClosers(s, st, e);
    }
  }

  lemma GoneClosers(s: State, st: Start, e: Event, p: PeerId)
    requires Teardown(s, st) && Closers(s, st) && p in s.clients && p !in st.members
    ensures Closers(StepClient(s, e, p, s.clients[p]), st)
  {
    hide Teardown, Closers;
    GoneFact(s, st, p);
    GoneSteps(s, e, p);
    if e.Clean? {
      DeletionClosers(s, st, p, e.other);
    }
  }

  lemma SettledClosers(s: State, st: Start, e: Event)
    requires Teardown(s, st) && Closers(s, st) && LeaveOnly(s, e) && !ByHandler(e)
    ensures Closers(Step(s, e), st)
  {
    hide Elsewhere, Positions, MembersStay, RecordStays, ScriptRan, OwnersStay, SfuStays, TriedStays, ClosesStay,
         Endings, Places, Orderly, RecordHasCloser, SfuHasCloser;
    if !e.FailCreation? && !e.FailRequest? {
      assert Step(s, e) == s;
    }
  }

  lemma {:induction false} OrderlyRun(s: State, n: Node, es: seq<Event>)
    requires Occupied(s, n) && LeaveRun(s, es)
    ensures Teardown(After(s, es), StartOf(s, n)) && Closers(After(s, es), StartOf(s, n)) && Departures(es)
  {
    hide Teardown, Closers, Occupied, LeaveOnly, Step;
    if es == [] {
      TeardownStarts(s, n);
      ClosersStart(s, n);
    } else {
      var before := es[..|es| - 1];
      forall k | 0 <= k < |before| ensures LeaveOnly(After(s, before[..k]), before[k]) {
        assert before[..k] == es[..k];
      }
      OrderlyRun(s, n, before);
      assert LeaveOnly(After(s, es[..|es| - 1]), es[|es| - 1]);
      LastDeparts(After(s, before), es[|es| - 1]);
      TeardownStep(After(s, before), StartOf(s, n), es[|es| - 1]);
      ClosersStep(After(s, before), StartOf(s, n), es[|es| - 1]);
    }
  }

  lemma LastDeparts(s: State, e: Event)
    requires LeaveOnly(s, e)
    ensures !e.Connect? && !e.Ask?
  {
  }

  /** Once every leave has finished, whatever the interleaving, nothing of the
      room is left in Redis. Its MediaRoom is left exactly if the removal of one
      of its peers was lost, or every close that was sent behind the last of them
      was; somebody sent one. It then holds the peers whose removal was lost. */
  lemma OrphanFreedom(s: State, n: Node, es: seq<Event>, t: State)
    requires Occupied(s, n) && LeaveRun(s, es) && Leads(s, es, t)
    requires forall p | p in s.peers :: p in t.clients && t.clients[p].pc.Left?
    ensures t.room == None && t.peers == {} && t.producers == map[]
    ensures n in t.mediaRooms <==>
            && n in s.mediaRooms
            && (|| s.mediaRooms[n] * t.h.lost != {}
                || forall p | p in s.peers :: !CameLast(t.h.closes, s.mediaRooms[n], p))
    ensures n in t.mediaRooms ==> t.mediaRooms[n] == s.mediaRooms[n] * t.h.lost
    ensures exists p :: p in s.peers && p in t.h.closes && s.peers <= t.h.closes[p].tried
  {
    hide After, Occupied, LeaveRun, CameLast, Teardown, Closers, Departures;
    OrderlyRun(s, n, es);
    AllLeft(t, StartOf(s, n));
    NothingLeft(t, StartOf(s, n));
  }

  lemma NothingLeft(t: State, st: Start)
    requires Teardown(t, st) && Closers(t, st) && forall p | p in st.members :: p in t.clients && t.clients[p].pc.Left?
    ensures t.room == None && t.peers == {} && t.producers == map[] && st.members <= t.h.tried
    ensures exists p :: p in st.members && p in t.h.closes && st.members <= t.h.closes[p].tried
  {
    hide Settled, Elsewhere, Positions, RecordStays, ScriptRan, SfuStays, ClosesStay, Endings, Places;
    SomeMember(t.peers);
    SomeMember(t.producers.Keys);
    var at := Places(t.clients, t.cameFrom);
    forall p | p in st.members ensures !BeforeSfu(at[p].pc) && p in t.h.tried {
      assert p in t.clients.Keys;
    }
  }
}
