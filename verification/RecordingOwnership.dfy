/** Who holds what the recorder opens: the room and peer entities and the
    recording service's operations on them, one at a time but for the taps of one
    startRoomRecording, which interleave. Whether the foreign calls of a tap succeed
    is a parameter. */
module RecordingOwnership {

  type PeerId = string
  type ProducerId = string

  datatype MediaKind = Audio | Video

  class WebRtcTransport {
    var closed: bool

    method Close()
      modifies `closed
      ensures closed
    {
      closed := true;
    }
  }

  class Producer {
    const kind: MediaKind
    var closed: bool

    constructor (kind: MediaKind)
      ensures this.kind == kind && !closed
    {
      this.kind, closed := kind, false;
    }
  }

  class PlainTransport {
    var closed: bool

    constructor ()
      ensures !closed
    {
      closed := false;
    }

    method Close()
      modifies `closed
      ensures closed
    {
      closed := true;
    }
  }

  class Consumer {
    var closed: bool

    constructor ()
      ensures !closed
    {
      closed := false;
    }

    method Close()
      modifies `closed
      ensures closed
    {
      closed := true;
    }
  }

  /** Only whether it still records; RecordingSessions has the whole session. */
  class Session {
    var closed: bool

    constructor ()
      ensures !closed
    {
      closed := false;
    }

    method Close()
      modifies `closed
      ensures closed
    {
      closed := true;
    }
  }

  class MediaPeer {
    const id: PeerId
    var sendTransport: WebRtcTransport?
    var recvTransport: WebRtcTransport?
    var producers: map<ProducerId, Producer>
    var plainTransport: PlainTransport?
    var recordingConsumer: Consumer?
    var recordingSession: Session?

    constructor (id: PeerId)
      ensures this.id == id && NoRecording() && sendTransport == null && recvTransport == null && producers == map[]
    {
      this.id := id;
      sendTransport, recvTransport, producers := null, null, map[];
      plainTransport, recordingConsumer, recordingSession := null, null, null;
    }

    ghost predicate NoRecording()
      reads `plainTransport, `recordingConsumer, `recordingSession
    {
      plainTransport == null && recordingConsumer == null && recordingSession == null
    }

    ghost predicate TransportOpen()
      reads `plainTransport, Transports()
    {
      plainTransport != null && !plainTransport.closed
    }

    ghost predicate ConsumerOpen()
      reads `recordingConsumer, Consumers()
    {
      recordingConsumer != null && !recordingConsumer.closed
    }

    ghost predicate SessionOpen()
      reads `recordingSession, Sessions()
    {
      recordingSession != null && !recordingSession.closed
    }

    ghost predicate IsRecording()
      reads `plainTransport, Transports(), `recordingConsumer, Consumers(), `recordingSession, Sessions()
    {
      TransportOpen() && ConsumerOpen() && SessionOpen()
    }

    // The slots as sets, for frames.

    ghost function WebRtcTransports(): set<WebRtcTransport>
      reads `sendTransport, `recvTransport
    {
      (if sendTransport == null then {} else {sendTransport}) + (if recvTransport == null then {} else {recvTransport})
    }

    ghost function Transports(): set<PlainTransport>
      reads `plainTransport
    {
      if plainTransport == null then {} else {plainTransport}
    }

    ghost function Consumers(): set<Consumer>
      reads `recordingConsumer
    {
      if recordingConsumer == null then {} else {recordingConsumer}
    }

    ghost function Sessions(): set<Session>
      reads `recordingSession
    {
      if recordingSession == null then {} else {recordingSession}
    }

    /** Whatever is in the three recording slots. */
    ghost function Slots(): set<object>
      reads `plainTransport, `recordingConsumer, `recordingSession
    {
      var t: set<object>, c: set<object>, s: set<object> := Transports(), Consumers(), Sessions();
      t + c + s
    }
  }

  class MediaRoom {
    const id: string
    var recording: bool
    var peers: map<PeerId, MediaPeer>

    // Everything the recorder ever opened for this room.
    ghost var transports: set<PlainTransport>
    ghost var consumers: set<Consumer>
    ghost var sessions: set<Session>

    constructor (id: string)
      ensures this.id == id && !recording && peers == map[] && transports == {} && consumers == {} && sessions == {}
    {
      this.id, recording, peers := id, false, map[];
      transports, consumers, sessions := {}, {}, {};
    }

    // Every slot of a holder holds something of this room, and whatever of this
    // room is open is in a slot of a holder: for each of the three slots.

    ghost predicate TransportsHeld(holders: set<MediaPeer>)
      reads `transports, holders`plainTransport, transports`closed
    {
      && (forall p | p in holders :: p.plainTransport == null || p.plainTransport in transports)
      && (forall t | t in transports :: t.closed || exists p :: p in holders && p.plainTransport == t)
    }

    ghost predicate ConsumersHeld(holders: set<MediaPeer>)
      reads `consumers, holders`recordingConsumer, consumers`closed
    {
      && (forall p | p in holders :: p.recordingConsumer == null || p.recordingConsumer in consumers)
      && (forall c | c in consumers :: c.closed || exists p :: p in holders && p.recordingConsumer == c)
    }

    ghost predicate SessionsHeld(holders: set<MediaPeer>)
      reads `sessions, holders`recordingSession, sessions`closed
    {
      && (forall p | p in holders :: p.recordingSession == null || p.recordingSession in sessions)
      && (forall s | s in sessions :: s.closed || exists p :: p in holders && p.recordingSession == s)
    }

    ghost predicate Owned(holders: set<MediaPeer>)
      reads `transports, holders`plainTransport, transports`closed
      reads `consumers, holders`recordingConsumer, consumers`closed
      reads `sessions, holders`recordingSession, sessions`closed
    {
      TransportsHeld(holders) && ConsumersHeld(holders) && SessionsHeld(holders)
    }

    /** Nothing of what was opened before is forgotten. */
    ghost predicate Remembers(t: set<PlainTransport>, c: set<Consumer>, s: set<Session>)
      reads `transports, `consumers, `sessions
    {
      t <= transports && c <= consumers && s <= sessions
    }

    ghost predicate NothingOpen()
      reads this, transports, consumers, sessions
    {
      && (forall t | t in transports :: t.closed)
      && (forall c | c in consumers :: c.closed)
      && (forall s | s in sessions :: s.closed)
    }

    /** A new peer holds nothing, a known one is returned as it is. */
    method GetOrCreatePeer(peerId: PeerId) returns (peer: MediaPeer)
      requires Owned(peers.Values)
      modifies `peers
      ensures Owned(peers.Values)
      ensures if peerId in old(peers) then peer == old(peers[peerId]) && peers == old(peers)
              else fresh(peer) && peer.id == peerId && peer.NoRecording() && peers == old(peers)[peerId := peer]
                   && peer.sendTransport == null && peer.recvTransport == null && peer.producers == map[]
    {
      hide Owned;
      if peerId in peers {
        return peers[peerId];
      }
      peer := new MediaPeer(peerId);
      ghost var holders := peers.Values;
      NewHolder(this, peer, holders);
      peers := peers[peerId := peer];
      ValuesWith(old(peers), peerId, peer);
    }

    /** The entity's own stopPeerRecording, before a peer is removed */
    method StopPeerRecording(peer: MediaPeer, ghost holders: set<MediaPeer>)
      requires peer in holders && Owned(holders)
      modifies peer`plainTransport, peer`recordingConsumer, peer`recordingSession
      modifies peer.Transports()`closed, peer.Consumers()`closed, peer.Sessions()`closed
      ensures Owned(holders) && Quiet(peer)
      ensures peer.Transports() <= old(peer.Transports()) && peer.Consumers() <= old(peer.Consumers())
    {
      hide TransportsHeld, ConsumersHeld, SessionsHeld;
      var session := peer.recordingSession;
      if session != null && !session.closed {
        CloseSession(this, peer, holders);
      } else {
        DropClosedSession(this, peer, holders);
      }
      if peer.recordingConsumer != null && !peer.recordingConsumer.closed {
        CloseConsumer(this, peer, holders);
      }
      if peer.plainTransport != null && !peer.plainTransport.closed {
        CloseTransport(this, peer, holders);
      }
    }

    /** Everything the peer holds is closed and the peer is
        gone; the others are not touched. */
    method RemovePeer(peerId: PeerId)
      requires Owned(peers.Values)
      modifies `peers
      modifies (if peerId in peers then {peers[peerId]} else {})`plainTransport
      modifies (if peerId in peers then {peers[peerId]} else {})`recordingConsumer
      modifies (if peerId in peers then {peers[peerId]} else {})`recordingSession
      modifies (if peerId in peers then peers[peerId].Transports() else {})`closed
      modifies (if peerId in peers then peers[peerId].Consumers() else {})`closed
      modifies (if peerId in peers then peers[peerId].Sessions() else {})`closed
      modifies (if peerId in peers then peers[peerId].WebRtcTransports() else {})`closed
      ensures peers == old(peers) - {peerId} && Owned(peers.Values)
      ensures peerId in old(peers) ==>
                var peer := old(peers[peerId]);
                && Quiet(peer) && Owned(peers.Values + {peer})
                && peer.Transports() <= old(peers[peerId].Transports())
                && peer.Consumers() <= old(peers[peerId].Consumers())
                && forall t | t in peer.WebRtcTransports() :: t.closed
    {
      hide Owned;
      if peerId !in peers {
        assert peers - {peerId} == peers;
        return;
      }
      var peer := peers[peerId];
      ghost var holders := peers.Values;
      StopPeerRecording(peer, holders);
      CloseWebRtcTransports(peer);
      ValuesWithout(peers, peerId);
      peers := peers - {peerId};
      QuietHoldsNothing(this, peer, holders, peers.Values);
      QuietHoldsNothing(this, peer, holders, peers.Values + {peer});
    }
  }

  // ----- RecordingService.stopPeerRecording, slot by slot -----

  method CloseConsumer(room: MediaRoom, peer: MediaPeer, ghost holders: set<MediaPeer>)
    requires peer in holders && room.ConsumersHeld(holders)
    modifies peer`recordingConsumer, peer.Consumers()`closed
    ensures room.ConsumersHeld(holders) && peer.recordingConsumer == null
  {
    if peer.recordingConsumer != null && !peer.recordingConsumer.closed {
      peer.recordingConsumer.Close();
    }
    peer.recordingConsumer := null;
  }

  method CloseTransport(room: MediaRoom, peer: MediaPeer, ghost holders: set<MediaPeer>)
    requires peer in holders && room.TransportsHeld(holders)
    modifies peer`plainTransport, peer.Transports()`closed
    ensures room.TransportsHeld(holders) && peer.plainTransport == null
  {
    if peer.plainTransport != null && !peer.plainTransport.closed {
      peer.plainTransport.Close();
    }
    peer.plainTransport := null;
  }

  /** The part of closeRecordingSession that closes the session runs before any await. */
  method CloseSession(room: MediaRoom, peer: MediaPeer, ghost holders: set<MediaPeer>)
    requires peer in holders && room.SessionsHeld(holders)
    modifies peer`recordingSession, peer.Sessions()`closed
    ensures room.SessionsHeld(holders) && peer.recordingSession == null
  {
    var session := peer.recordingSession;
    peer.recordingSession := null;
    if session == null {
      return;
    }
    session.Close();
  }

  method StopPeerRecording(room: MediaRoom, peer: MediaPeer, ghost holders: set<MediaPeer>)
    requires peer in holders && room.Owned(holders)
    modifies peer`plainTransport, peer`recordingConsumer, peer`recordingSession
    modifies peer.Transports()`closed, peer.Consumers()`closed, peer.Sessions()`closed
    ensures room.Owned(holders) && peer.NoRecording()
  {
    hide room.TransportsHeld, room.ConsumersHeld, room.SessionsHeld;
    CloseConsumer(room, peer, holders);
    CloseTransport(room, peer, holders);
    CloseSession(room, peer, holders);
  }

  // ----- RecordingService.tapPeer -----

  /** createPlainTransport has succeeded. */
  method OpenTransport(room: MediaRoom, peer: MediaPeer, ghost holders: set<MediaPeer>)
    requires peer in holders && room.TransportsHeld(holders) && peer.plainTransport == null
    modifies room`transports, peer`plainTransport
    ensures room.TransportsHeld(holders) && peer.TransportOpen() && fresh(peer.Transports())
    ensures room.transports == old(room.transports) + peer.Transports()
  {
    var plainTransport := new PlainTransport();
    room.transports := room.transports + {plainTransport};
    peer.plainTransport := plainTransport;
  }

  /** plainTransport.consume has succeeded. */
  method OpenConsumer(room: MediaRoom, peer: MediaPeer, ghost holders: set<MediaPeer>)
    requires peer in holders && room.ConsumersHeld(holders) && peer.recordingConsumer == null
    modifies room`consumers, peer`recordingConsumer
    ensures room.ConsumersHeld(holders) && peer.ConsumerOpen() && fresh(peer.Consumers())
    ensures room.consumers == old(room.consumers) + peer.Consumers()
  {
    var consumer := new Consumer();
    room.consumers := room.consumers + {consumer};
    peer.recordingConsumer := consumer;
  }

  /** startRecordingSession has returned a session. */
  method OpenSession(room: MediaRoom, peer: MediaPeer, ghost holders: set<MediaPeer>)
    requires peer in holders && room.SessionsHeld(holders) && peer.recordingSession == null
    modifies room`sessions, peer`recordingSession
    ensures room.SessionsHeld(holders) && peer.SessionOpen() && fresh(peer.Sessions())
    ensures room.sessions == old(room.sessions) + peer.Sessions()
  {
    var session := new Session();
    room.sessions := room.sessions + {session};
    peer.recordingSession := session;
  }

  datatype Tap = Recording | Nothing | Threw

  /** Whether each call a tap awaits succeeds: the stop of what the peer recorded
      before, mkdir, createPlainTransport, consume, startRecordingSession, connect,
      and, after a failed connect, the stop of what was opened. */
  datatype Outcomes = Outcomes(stopped: bool, made: bool, transport: bool, consumer: bool, session: bool,
                               connected: bool, cleaned: bool)

  /** Only what happened before mkdir and the start of the session is not caught. */
  function TapOutcome(o: Outcomes): Tap {
    if !o.stopped || !o.made then Threw
    else if !o.transport || !o.consumer then Nothing
    else if !o.session then Threw
    else if o.connected then Recording
    else if o.cleaned then Nothing else Threw
  }

  /** The tap gets as far as its consumer and does not clean up after a failed connect. */
  predicate LeavesOpen(o: Outcomes) {
    o.stopped && o.made && o.transport && o.consumer && (o.session ==> o.connected)
  }

  /** What a tap leaves in the slots: a transport and a consumer, and a session if it
      was started, all open; or nothing. */
  ghost predicate TapLeft(peer: MediaPeer, o: Outcomes)
    reads peer`plainTransport, peer.Transports(), peer`recordingConsumer, peer.Consumers()
    reads peer`recordingSession, peer.Sessions()
  {
    if LeavesOpen(o) then
      && peer.TransportOpen() && peer.ConsumerOpen()
      && if o.session then peer.SessionOpen() else peer.recordingSession == null
    else peer.NoRecording()
  }

  /** tapPeer once the transport is in its slot: consume, start the session, connect */
  method TapTransport(room: MediaRoom, peer: MediaPeer, o: Outcomes, ghost holders: set<MediaPeer>) returns (r: Tap)
    requires peer in holders && room.Owned(holders) && o.stopped && o.made && o.transport
    requires peer.TransportOpen() && peer.recordingConsumer == null && peer.recordingSession == null
    modifies room`consumers, room`sessions
    modifies peer`plainTransport, peer`recordingConsumer, peer`recordingSession, peer.Transports()`closed
    ensures room.Owned(holders)
    ensures room.Remembers(old(room.transports), old(room.consumers), old(room.sessions))
    ensures r == TapOutcome(o) && TapLeft(peer, o)
    ensures peer.Transports() <= old(peer.Transports()) && fresh(peer.Consumers()) && fresh(peer.Sessions())
  {
    hide room.TransportsHeld, room.ConsumersHeld, room.SessionsHeld;
    if !o.consumer {
      CloseTransport(room, peer, holders);
      return Nothing;
    }
    OpenConsumer(room, peer, holders);

    if !o.session {
      return Threw;
    }
    OpenSession(room, peer, holders);

    if !o.connected {
      StopPeerRecording(room, peer, holders);
      return if o.cleaned then Nothing else Threw;
    }
    return Recording;
  }

  /** tapPeer: what it returns and what it leaves in the peer's slots, for every
      combination of failures. */
  method TapPeer(room: MediaRoom, peer: MediaPeer, audioProducer: Producer, o: Outcomes, ghost holders: set<MediaPeer>)
    returns (r: Tap)
    requires peer in holders && room.Owned(holders)
    modifies room`transports, room`consumers, room`sessions
    modifies peer`plainTransport, peer`recordingConsumer, peer`recordingSession
    modifies peer.Transports()`closed, peer.Consumers()`closed, peer.Sessions()`closed
    ensures room.Owned(holders)
    ensures room.Remembers(old(room.transports), old(room.consumers), old(room.sessions))
    ensures r == TapOutcome(o) && TapLeft(peer, o)
    ensures fresh(peer.Transports()) && fresh(peer.Consumers()) && fresh(peer.Sessions())
  {
    hide room.TransportsHeld, room.ConsumersHeld, room.SessionsHeld;
    StopPeerRecording(room, peer, holders);
    if !o.stopped {
      return Threw;
    }
    if !o.made {
      return Threw;
    }
    if !o.transport {
      return Nothing;
    }
    OpenTransport(room, peer, holders);
    r := TapTransport(room, peer, o, holders);
  }

  // ----- A tap that is one of several -----

  /** The await a tap stands at, or its result. */
  datatype Stage = Stopping | Making | Opening | Consuming | Starting | Connecting | Cleaning | Done(result: Tap)

  function Next(stage: Stage, o: Outcomes): Stage {
    match stage
    case Stopping => if o.stopped then Making else Done(Threw)
    case Making => if o.made then Opening else Done(Threw)
    case Opening => if o.transport then Consuming else Done(Nothing)
    case Consuming => if o.consumer then Starting else Done(Nothing)
    case Starting => if o.session then Connecting else Done(Threw)
    case Connecting => if o.connected then Done(Recording) else Cleaning
    case Cleaning => Done(if o.cleaned then Nothing else Threw)
    case Done(_) => stage
  }

  function Rank(stage: Stage): int {
    match stage
    case Stopping => 7
    case Making => 6
    case Opening => 5
    case Consuming => 4
    case Starting => 3
    case Connecting => 2
    case Cleaning => 1
    case Done(_) => 0
  }

  /** The tap has come to this stage, and these are its slots there. */
  ghost predicate AtStage(peer: MediaPeer, stage: Stage, o: Outcomes)
    reads peer`plainTransport, peer.Transports(), peer`recordingConsumer, peer.Consumers()
    reads peer`recordingSession, peer.Sessions()
  {
    match stage
    case Stopping => peer.NoRecording()
    case Making => peer.NoRecording() && o.stopped
    case Opening => peer.NoRecording() && o.stopped && o.made
    case Consuming =>
      && o.stopped && o.made && o.transport
      && peer.TransportOpen() && peer.recordingConsumer == null && peer.recordingSession == null
    case Starting =>
      && o.stopped && o.made && o.transport && o.consumer
      && peer.TransportOpen() && peer.ConsumerOpen() && peer.recordingSession == null
    case Connecting => o.stopped && o.made && o.transport && o.consumer && o.session && peer.IsRecording()
    case Cleaning =>
      && o.stopped && o.made && o.transport && o.consumer && o.session && !o.connected
      && peer.NoRecording()
    case Done(result) => result == TapOutcome(o) && TapLeft(peer, o)
  }

  /** The stretch of tapPeer between two awaits. */
  method Resume(room: MediaRoom, peer: MediaPeer, stage: Stage, o: Outcomes, ghost holders: set<MediaPeer>)
    returns (next: Stage)
    requires peer in holders && room.Owned(holders) && AtStage(peer, stage, o)
    modifies room`transports, room`consumers, room`sessions
    modifies peer`plainTransport, peer`recordingConsumer, peer`recordingSession
    modifies peer.Slots()
    ensures room.Owned(holders) && next == Next(stage, o) && AtStage(peer, next, o)
    ensures room.Remembers(old(room.transports), old(room.consumers), old(room.sessions))
    ensures fresh(peer.Slots() - old(peer.Slots()))
  {
    hide room.TransportsHeld, room.ConsumersHeld, room.SessionsHeld;
    next := Next(stage, o);
    match stage {
      case Opening =>
        if o.transport {
          OpenTransport(room, peer, holders);
        }
      case Consuming =>
        if o.consumer {
          OpenConsumer(room, peer, holders);
        } else {
          CloseTransport(room, peer, holders);
        }
      case Starting =>
        if o.session {
          OpenSession(room, peer, holders);
        }
      case Connecting =>
        if !o.connected {
          StopPeerRecording(room, peer, holders);
        }
      case _ =>
    }
  }

  // ----- The recorder's operations on a room -----

  ghost predicate AudioOpen(p: Producer)
    reads p
  {
    p.kind == Audio && !p.closed
  }

  method FindAudioProducer(peer: MediaPeer) returns (found: Producer?)
    ensures found != null ==> found in peer.producers.Values && AudioOpen(found)
    ensures found == null ==> forall p | p in peer.producers.Values :: !AudioOpen(p)
  {
    var todo := peer.producers.Values;
    while todo != {}
      invariant todo <= peer.producers.Values
      invariant forall p | p in peer.producers.Values - todo :: !AudioOpen(p)
      decreases |todo|
    {
      var producer :| producer in todo;
      if producer.kind == Audio && !producer.closed {
        return producer;
      }
      todo := todo - {producer};
    }
    return null;
  }

  ghost predicate HasAudio(peer: MediaPeer)
    reads peer`producers, peer.producers.Values
  {
    exists p | p in peer.producers.Values :: AudioOpen(p)
  }

  ghost function WithAudio(peers: set<MediaPeer>): set<MediaPeer>
    reads peers`producers, set p, x | p in peers && x in p.producers.Values :: x
  {
    set p | p in peers && HasAudio(p)
  }

  /** The peers startRoomRecording taps, each with its producer */
  method FindAudioProducers(peers: set<MediaPeer>) returns (found: map<MediaPeer, Producer>)
    ensures found.Keys == WithAudio(peers)
  {
    found := map[];
    var todo := peers;
    while todo != {}
      invariant todo <= peers && found.Keys <= peers - todo
      invariant forall p | p in peers - todo :: p in found.Keys <==> HasAudio(p)
      decreases |todo|
    {
      var peer :| peer in todo;
      todo := todo - {peer};
      var audioProducer := FindAudioProducer(peer);
      if audioProducer != null {
        found := found[peer := audioProducer];
      }
    }
  }

  type Stages = map<MediaPeer, Stage>

  /** Every tap is at its stage. */
  ghost predicate AtStages(stages: Stages, outcomes: MediaPeer -> Outcomes)
    reads stages.Keys, set p, x | p in stages && x in p.Transports() :: x
    reads set p, x | p in stages && x in p.Consumers() :: x
    reads set p, x | p in stages && x in p.Sessions() :: x
  {
    forall p | p in stages :: AtStage(p, stages[p], outcomes(p))
  }

  /** Whatever is in the slots of these peers is entered under its peer, so no two of
      them have anything in common. */
  ghost predicate Entered(peers: set<MediaPeer>, entries: map<object, MediaPeer>)
    reads peers`plainTransport, peers`recordingConsumer, peers`recordingSession
  {
    forall p, x | p in peers && x in p.Slots() :: x in entries.Keys && entries[x] == p
  }

  /** One peer after the other is stopped. */
  method StopPeers(room: MediaRoom, peers: set<MediaPeer>, ghost holders: set<MediaPeer>)
    requires room.Owned(holders) && peers <= holders
    modifies peers`plainTransport, peers`recordingConsumer, peers`recordingSession
    modifies room.transports`closed, room.consumers`closed, room.sessions`closed
    ensures room.Owned(holders) && forall p | p in peers :: p.NoRecording()
  {
    hide room.Owned, MediaRoom.Owned, MediaPeer.NoRecording;
    var todo := peers;
    while todo != {}
      invariant todo <= peers && room.Owned(holders)
      invariant forall p | p in peers - todo :: p.NoRecording()
      decreases |todo|
    {
      var peer :| peer in todo;
      SlotsKnown(room, peer, holders);
      StopPeerRecording(room, peer, holders);
      todo := todo - {peer};
    }
  }

  /** The loop of startRoomRecording starts every tap: it stops what the peer recorded
      before. */
  method StartTaps(room: MediaRoom, audio: map<MediaPeer, Producer>, ghost holders: set<MediaPeer>)
    returns (stages: Stages)
    requires room.Owned(holders) && audio.Keys <= holders
    modifies holders`plainTransport, holders`recordingConsumer, holders`recordingSession
    modifies room.transports`closed, room.consumers`closed, room.sessions`closed
    ensures room.Owned(holders) && stages.Keys == audio.Keys
    ensures forall p | p in stages :: stages[p] == Stopping && p.NoRecording()
  {
    StopPeers(room, audio.Keys, holders);
    stages := map p | p in audio :: Stopping;
  }

  /** The awaits the taps still have ahead. */
  ghost function Ahead(stages: Stages): set<(MediaPeer, int)> {
    set p, i | p in stages && 0 <= i < 7 && i < Rank(stages[p]) :: (p, i)
  }

  lemma FewerAhead(stages: Stages, p: MediaPeer, o: Outcomes)
    requires p in stages && !stages[p].Done?
    ensures |Ahead(stages[p := Next(stages[p], o)])| < |Ahead(stages)|
  {
    var before, after := Ahead(stages), Ahead(stages[p := Next(stages[p], o)]);
    var last := (p, Rank(stages[p]) - 1);
    assert last in before && last !in after;
    SmallerSet(after, before - {last});
  }

  lemma SmallerSet<T>(a: set<T>, b: set<T>)
    requires a <= b
    ensures |a| <= |b|
  {
    assert |b| == |a| + |b - a| by {
      assert a + (b - a) == b;
    }
  }

  /** One of the things the recorder opens. */
  predicate Opened(x: object) {
    x is PlainTransport || x is Consumer || x is Session
  }

  /** All taps but that of `p` are at their stages, and hold what is entered under them. */
  ghost predicate OthersAt(stages: Stages, outcomes: MediaPeer -> Outcomes, p: MediaPeer,
                           entries: map<object, MediaPeer>)
    reads (stages.Keys - {p})`plainTransport, (stages.Keys - {p})`recordingConsumer
    reads (stages.Keys - {p})`recordingSession, set x | x in entries && entries[x] != p && Opened(x)
  {
    && Entered(stages.Keys - {p}, entries)
    && forall q | q in stages.Keys - {p} :: InSlots(q, entries, p) && AtStage(q, stages[q], outcomes(q))
  }

  /** The slots of `q` hold nothing that is entered under `p`. */
  ghost predicate InSlots(q: MediaPeer, entries: map<object, MediaPeer>, p: MediaPeer)
    reads q`plainTransport, q`recordingConsumer, q`recordingSession
  {
    && (forall x | x in q.Transports() :: x in entries && entries[x] != p)
    && (forall x | x in q.Consumers() :: x in entries && entries[x] != p)
    && (forall x | x in q.Sessions() :: x in entries && entries[x] != p)
  }

  lemma Apart(stages: Stages, outcomes: MediaPeer -> Outcomes, p: MediaPeer, entries: map<object, MediaPeer>)
    requires AtStages(stages, outcomes) && Entered(stages.Keys, entries) && p in stages
    ensures OthersAt(stages, outcomes, p, entries)
    ensures AtStage(p, stages[p], outcomes(p))
    ensures forall x | x in p.Slots() :: x in entries && entries[x] == p
  {
    hide AtStage;
    assert p in stages.Keys;
    forall q | q in stages.Keys - {p} ensures InSlots(q, entries, p) {
      assert q in stages.Keys && q.Transports() <= q.Slots() && q.Consumers() <= q.Slots() && q.Sessions() <= q.Slots();
    }
  }

  /** The entries with what is in the slots of `p` now. */
  ghost function With(entries: map<object, MediaPeer>, p: MediaPeer): map<object, MediaPeer>
    reads p`plainTransport, p`recordingConsumer, p`recordingSession
  {
    entries + map x | x in p.Slots() :: p
  }

  lemma Together(stages: Stages, outcomes: MediaPeer -> Outcomes, p: MediaPeer, next: Stage,
                 entries: map<object, MediaPeer>)
    requires OthersAt(stages, outcomes, p, entries) && p in stages && AtStage(p, next, outcomes(p))
    requires forall x | x in p.Slots() && x in entries :: entries[x] == p
    ensures AtStages(stages[p := next], outcomes) && Entered(stages.Keys, With(entries, p))
  {
    hide AtStage;
    assert p in stages.Keys;
    forall q | q in stages && q != p ensures q in stages.Keys - {p} {
    }
  }

  /** One tap goes on, whichever it is; the others stay where they are. */
  method ResumeOne(room: MediaRoom, stages: Stages, outcomes: MediaPeer -> Outcomes, p: MediaPeer,
                   ghost holders: set<MediaPeer>, ghost entries: map<object, MediaPeer>)
    returns (now: Stages, ghost more: map<object, MediaPeer>)
    requires p in stages && p in holders && room.Owned(holders)
    requires AtStages(stages, outcomes) && Entered(stages.Keys, entries)
    modifies room`transports, room`consumers, room`sessions
    modifies p`plainTransport, p`recordingConsumer, p`recordingSession, p.Slots()
    ensures now == stages[p := Next(stages[p], outcomes(p))]
    ensures room.Owned(holders) && AtStages(now, outcomes) && Entered(stages.Keys, more)
    ensures room.Remembers(old(room.transports), old(room.consumers), old(room.sessions))
    ensures fresh(more.Keys - entries.Keys)
  {
    hide room.Owned, MediaRoom.Owned, room.Remembers, MediaRoom.Remembers, AtStage, AtStages, Entered, OthersAt,
         With, Next;
    Apart(stages, outcomes, p, entries);
    ghost var others := set x | x in entries && entries[x] != p && Opened(x);
    assert room !in others && p !in others && others !! p.Slots();
    assert p !in stages.Keys - {p};
    var next := Resume(room, p, stages[p], outcomes(p), holders);
    now := stages[p := next];
    Together(stages, outcomes, p, next, entries);
    more := With(entries, p);
    WithKeys(entries, p);
  }

  lemma Listed(peers: set<MediaPeer>, p: MediaPeer, entries: map<object, MediaPeer>)
    requires Entered(peers, entries) && p in peers
    ensures p.Slots() <= entries.Keys
  {
  }

  lemma WithKeys(entries: map<object, MediaPeer>, p: MediaPeer)
    ensures With(entries, p).Keys == entries.Keys + p.Slots()
  {
  }

  lemma AllStopping(stages: Stages, outcomes: MediaPeer -> Outcomes)
    requires forall p | p in stages :: stages[p] == Stopping && p.NoRecording()
    ensures AtStages(stages, outcomes) && Entered(stages.Keys, map[])
  {
  }

  lemma AllDone(stages: Stages, outcomes: MediaPeer -> Outcomes)
    requires AtStages(stages, outcomes) && forall p | p in stages :: stages[p].Done?
    ensures forall p | p in stages :: stages[p].result == TapOutcome(outcomes(p)) && TapLeft(p, outcomes(p))
  {
  }

  function Unfinished(stages: Stages): (todo: set<MediaPeer>)
    ensures todo <= stages.Keys && forall p | p in stages :: p in todo <==> !stages[p].Done?
  {
    set p | p in stages && !stages[p].Done?
  }

  /** The taps run together: their stretches interleave in any order. */
  method FinishTaps(room: MediaRoom, stages: Stages, outcomes: MediaPeer -> Outcomes, ghost holders: set<MediaPeer>)
    returns (taps: map<MediaPeer, Tap>)
    requires room.Owned(holders) && stages.Keys <= holders
    requires forall p | p in stages :: stages[p] == Stopping && p.NoRecording()
    modifies room`transports, room`consumers, room`sessions
    modifies stages.Keys`plainTransport, stages.Keys`recordingConsumer, stages.Keys`recordingSession
    ensures room.Owned(holders) && taps.Keys == stages.Keys
    ensures room.Remembers(old(room.transports), old(room.consumers), old(room.sessions))
    ensures forall p | p in taps :: taps[p] == TapOutcome(outcomes(p)) && TapLeft(p, outcomes(p))
  {
    hide room.Owned, MediaRoom.Owned, AtStages, Entered, TapLeft, TapOutcome, Next, Ahead, Unfinished;
    var now, todo := stages, stages.Keys;
    ghost var entries: map<object, MediaPeer> := map[];
    AllStopping(stages, outcomes);
    while todo != {}
      invariant now.Keys == stages.Keys && forall q | q in now :: q in todo <==> !now[q].Done?
      invariant todo <= now.Keys && room.Owned(holders) && AtStages(now, outcomes) && Entered(now.Keys, entries)
      invariant room.Remembers(old(room.transports), old(room.consumers), old(room.sessions))
      invariant fresh(entries.Keys)
      decreases |Ahead(now)|
    {
      var p :| p in todo;
      FewerAhead(now, p, outcomes(p));
      Listed(now.Keys, p, entries);
      ghost var more;
      now, more := ResumeOne(room, now, outcomes, p, holders, entries);
      assert fresh(entries.Keys + (more.Keys - entries.Keys));
      entries := more;
      todo := Unfinished(now);
    }
    AllDone(now, outcomes);
    taps := map p | p in now :: now[p].result;
  }

  method TapAll(room: MediaRoom, audio: map<MediaPeer, Producer>, outcomes: MediaPeer -> Outcomes,
                ghost holders: set<MediaPeer>)
    returns (taps: map<MediaPeer, Tap>)
    requires room.Owned(holders) && audio.Keys <= holders
    modifies room`transports, room`consumers, room`sessions
    modifies holders`plainTransport, holders`recordingConsumer, holders`recordingSession
    modifies room.transports`closed, room.consumers`closed, room.sessions`closed
    ensures room.Owned(holders) && taps.Keys == audio.Keys
    ensures room.Remembers(old(room.transports), old(room.consumers), old(room.sessions))
    ensures forall p | p in taps :: taps[p] == TapOutcome(outcomes(p)) && TapLeft(p, outcomes(p))
  {
    hide room.Owned, MediaRoom.Owned, TapLeft, TapOutcome;
    var stages := StartTaps(room, audio, holders);
    taps := FinishTaps(room, stages, outcomes, holders);
  }

  /** Every peer with an open audio producer is tapped, all of them together, and a
      tap that throws does not keep the others from being started. */
  method StartRoomRecording(room: MediaRoom, outcomes: MediaPeer -> Outcomes) returns (taps: map<MediaPeer, Tap>)
    requires room.Owned(room.peers.Values)
    modifies room`recording, room`transports, room`consumers, room`sessions
    modifies room.peers.Values`plainTransport, room.peers.Values`recordingConsumer, room.peers.Values`recordingSession
    modifies room.transports`closed, room.consumers`closed, room.sessions`closed
    ensures room.recording && room.Owned(room.peers.Values)
    ensures room.Remembers(old(room.transports), old(room.consumers), old(room.sessions))
    ensures taps.Keys == old(WithAudio(room.peers.Values))
    ensures forall p | p in taps :: taps[p] == TapOutcome(outcomes(p)) && TapLeft(p, outcomes(p))
  {
    hide room.Owned, MediaRoom.Owned, room.Remembers, MediaRoom.Remembers, WithAudio, TapLeft, TapOutcome;
    ghost var holders := room.peers.Values;
    AudioWithin(holders);
    room.recording := true;
    var audio := FindAudioProducers(room.peers.Values);
    taps := TapAll(room, audio, outcomes, holders);
  }

  lemma AudioWithin(peers: set<MediaPeer>)
    ensures WithAudio(peers) <= peers
  {
  }

  lemma SlotsKnown(room: MediaRoom, peer: MediaPeer, holders: set<MediaPeer>)
    requires peer in holders && room.Owned(holders)
    ensures peer.Transports() <= room.transports && peer.Consumers() <= room.consumers
            && peer.Sessions() <= room.sessions
  {
  }

  /** Afterwards the room is not recording and nothing the recorder opened for it
      is open, whatever happened before. */
  method StopRoomRecording(room: MediaRoom)
    requires room.Owned(room.peers.Values)
    modifies room`recording, room.peers.Values, room.transports, room.consumers, room.sessions
    ensures !room.recording && room.NothingOpen()
    ensures room.Owned(room.peers.Values)
  {
    hide room.Owned, MediaRoom.Owned, MediaPeer.NoRecording, room.NothingOpen, MediaRoom.NothingOpen;
    room.recording := false;
    ghost var holders := room.peers.Values;
    StopPeers(room, room.peers.Values, holders);
    NoSlotsNothingOpen(room, holders);
  }

  lemma NoSlotsNothingOpen(room: MediaRoom, holders: set<MediaPeer>)
    requires room.Owned(holders) && forall p | p in holders :: p.NoRecording()
    ensures room.NothingOpen()
  {
  }

  /** The tap goes ahead. */
  ghost predicate Taps(room: MediaRoom, peer: MediaPeer, producer: Producer)
    reads room`recording, peer`recordingConsumer, peer.Consumers()
  {
    room.recording && producer.kind == Audio && !peer.ConsumerOpen()
  }

  /** tapProducerIfRecording: a video producer, a room that is not recording and a
      peer whose recording consumer is still open are left alone. */
  method TapProducerIfRecording(room: MediaRoom, peer: MediaPeer, producer: Producer, o: Outcomes,
                                ghost holders: set<MediaPeer>)
    returns (r: Tap)
    requires peer in holders && room.Owned(holders)
    modifies room`transports, room`consumers, room`sessions
    modifies peer`plainTransport, peer`recordingConsumer, peer`recordingSession
    modifies peer.Transports()`closed, peer.Consumers()`closed, peer.Sessions()`closed
    ensures room.Owned(holders)
    ensures room.Remembers(old(room.transports), old(room.consumers), old(room.sessions))
    ensures r == if old(Taps(room, peer, producer)) then TapOutcome(o) else Nothing
    ensures if old(Taps(room, peer, producer)) then TapLeft(peer, o) && fresh(peer.Transports())
            else && unchanged(room) && unchanged(peer) && unchanged(peer.Transports())
                 && unchanged(peer.Consumers()) && unchanged(peer.Sessions())
  {
    hide room.Owned, TapLeft;
    if !room.recording || producer.kind != Audio {
      return Nothing;
    }
    if peer.recordingConsumer != null && !peer.recordingConsumer.closed {
      return Nothing;
    }
    r := TapPeer(room, peer, producer, o, holders);
  }

  /** The end of produce: `peer` was looked up before the await and may have left the
      room since. If the tap goes ahead, the room holds everything the recorder opened
      for it afterwards if and only if the peer is one of its own or the tap leaves
      nothing open. */
  method TapProduced(room: MediaRoom, peer: MediaPeer, producer: Producer, o: Outcomes) returns (r: Tap)
    requires room.Owned(room.peers.Values + {peer})
    modifies room`transports, room`consumers, room`sessions
    modifies peer`plainTransport, peer`recordingConsumer, peer`recordingSession
    modifies peer.Transports()`closed, peer.Consumers()`closed, peer.Sessions()`closed
    ensures room.Owned(room.peers.Values + {peer})
    ensures peer in room.peers.Values || Quiet(peer) ==> room.Owned(room.peers.Values)
    ensures if old(Taps(room, peer, producer))
            then && r == TapOutcome(o) && TapLeft(peer, o)
                 && (room.Owned(room.peers.Values) <==> peer in room.peers.Values || !LeavesOpen(o))
            else && r == Nothing && unchanged(room) && unchanged(peer) && unchanged(peer.Transports())
                 && unchanged(peer.Consumers()) && unchanged(peer.Sessions())
  {
    hide room.Owned, MediaRoom.Owned;
    ghost var holders := room.peers.Values + {peer};
    ghost var taps := Taps(room, peer, producer);
    r := TapProducerIfRecording(room, peer, producer, o, holders);
    QuietOutside(room, peer, room.peers.Values);
    if taps && LeavesOpen(o) {
      assert forall p: MediaPeer | p in room.peers.Values && p != peer :: p.plainTransport == old(p.plainTransport);
      assert forall p: MediaPeer | p in room.peers.Values && p != peer :: p.plainTransport != peer.plainTransport;
      HeldOutside(room, peer, room.peers.Values);
    }
  }

  lemma QuietOutside(room: MediaRoom, peer: MediaPeer, holders: set<MediaPeer>)
    requires room.Owned(holders + {peer})
    ensures peer in holders || Quiet(peer) ==> room.Owned(holders)
  {
    if peer in holders {
      assert holders + {peer} == holders;
    } else if Quiet(peer) {
      QuietHoldsNothing(room, peer, holders + {peer}, holders);
    }
  }

  /** An open transport that only `peer` has in its slot is held exactly if `peer`
      is a holder. */
  lemma HeldOutside(room: MediaRoom, peer: MediaPeer, holders: set<MediaPeer>)
    requires room.Owned(holders + {peer}) && peer.plainTransport != null && !peer.plainTransport.closed
    requires forall p | p in holders && p != peer :: p.plainTransport != peer.plainTransport
    ensures room.Owned(holders) <==> peer in holders
  {
    if peer in holders {
      assert holders + {peer} == holders;
    } else {
      var t := peer.plainTransport;
      assert peer in holders + {peer};
      assert t in room.transports;
    }
  }

  /** The peer leaves during the await of produce: something is then open that no peer
      of the room holds if and only if the room records, the producer is audio and the
      tap leaves something open. */
  method ProduceAcrossRemoval(room: MediaRoom, peerId: PeerId, peer: MediaPeer, producer: Producer, o: Outcomes)
    returns (r: Tap)
    requires room.Owned(room.peers.Values) && peerId in room.peers && room.peers[peerId] == peer
    requires forall id | id in room.peers && id != peerId :: room.peers[id] != peer
    modifies room`peers, room`transports, room`consumers, room`sessions
    modifies peer`plainTransport, peer`recordingConsumer, peer`recordingSession
    modifies peer.Transports()`closed, peer.Consumers()`closed, peer.Sessions()`closed, peer.WebRtcTransports()`closed
    ensures room.peers == old(room.peers) - {peerId}
    ensures !room.Owned(room.peers.Values) <==> room.recording && producer.kind == Audio && LeavesOpen(o)
    ensures r == if room.recording && producer.kind == Audio then TapOutcome(o) else Nothing
    ensures if room.recording && producer.kind == Audio then TapLeft(peer, o) else Quiet(peer)
  {
    hide room.Owned, MediaRoom.Owned;
    room.RemovePeer(peerId);
    assert peer !in room.peers.Values;
    assert Taps(room, peer, producer) <==> room.recording && producer.kind == Audio;
    r := TapProduced(room, peer, producer, o);
  }

  const ALL_SUCCEED := Outcomes(true, true, true, true, true, true, true)

  /** A room that records, and its only peer leaves while it produces audio: the peer
      goes on being recorded, and nobody in the room knows. */
  method DepartedPeerIsRecorded() returns (room: MediaRoom, peer: MediaPeer)
    ensures fresh(room) && fresh(peer) && room.recording && room.peers == map[]
    ensures peer.IsRecording() && !room.Owned(room.peers.Values)
  {
    hide MediaRoom.Owned;
    room := new MediaRoom("room");
    NobodyHolds(room);
    room.recording := true;
    peer := room.GetOrCreatePeer("peer");
    var producer := new Producer(Audio);
    var r := ProduceAcrossRemoval(room, "peer", peer, producer, ALL_SUCCEED);
    assert room.peers == map[];
  }

  lemma NobodyHolds(room: MediaRoom)
    requires room.peers == map[] && room.transports == {} && room.consumers == {} && room.sessions == {}
    ensures room.Owned(room.peers.Values)
  {
  }

  /** The consumer's producerclose event: the consumer is closed by then. */
  method ProducerClosed(room: MediaRoom, peer: MediaPeer, ghost holders: set<MediaPeer>)
    requires peer in holders && room.Owned(holders) && peer.recordingConsumer != null
    modifies peer`plainTransport, peer`recordingConsumer, peer`recordingSession
    modifies peer.Transports()`closed, peer.Consumers()`closed, peer.Sessions()`closed
    ensures room.Owned(holders) && peer.NoRecording()
  {
    peer.recordingConsumer.closed := true;
    StopPeerRecording(room, peer, holders);
  }

  // ----- What the entity's methods rest on -----

  ghost predicate Quiet(peer: MediaPeer)
    reads peer`plainTransport, peer.Transports()`closed
    reads peer`recordingConsumer, peer.Consumers()`closed, peer`recordingSession
  {
    && (peer.plainTransport == null || peer.plainTransport.closed)
    && (peer.recordingConsumer == null || peer.recordingConsumer.closed)
    && peer.recordingSession == null
  }

  method DropClosedSession(room: MediaRoom, peer: MediaPeer, ghost holders: set<MediaPeer>)
    requires peer in holders && room.SessionsHeld(holders)
    requires peer.recordingSession == null || peer.recordingSession.closed
    modifies peer`recordingSession
    ensures room.SessionsHeld(holders) && peer.recordingSession == null
  {
    peer.recordingSession := null;
  }

  lemma QuietHoldsNothing(room: MediaRoom, peer: MediaPeer, holders: set<MediaPeer>, rest: set<MediaPeer>)
    requires room.Owned(holders) && Quiet(peer) && holders - {peer} <= rest <= holders
    ensures room.Owned(rest)
  {
    assert forall p | p in holders && p != peer :: p in rest;
  }

  lemma ValuesWithout(peers: map<PeerId, MediaPeer>, id: PeerId)
    requires id in peers
    ensures peers.Values - {peers[id]} <= (peers - {id}).Values <= peers.Values
  {
    forall p | p in peers.Values && p != peers[id] ensures p in (peers - {id}).Values {
      var k :| k in peers && peers[k] == p;
      assert k in peers - {id} && (peers - {id})[k] == p;
    }
  }

  method CloseWebRtcTransports(peer: MediaPeer)
    modifies peer.WebRtcTransports()`closed
    ensures forall t | t in peer.WebRtcTransports() :: t.closed
  {
    if peer.sendTransport != null {
      peer.sendTransport.Close();
    }
    if peer.recvTransport != null {
      peer.recvTransport.Close();
    }
  }

  lemma NewHolder(room: MediaRoom, peer: MediaPeer, holders: set<MediaPeer>)
    requires room.Owned(holders) && peer.NoRecording()
    ensures room.Owned(holders + {peer})
  {
    assert forall p | p in holders :: p in holders + {peer};
  }

  lemma ValuesWith(peers: map<PeerId, MediaPeer>, id: PeerId, peer: MediaPeer)
    requires id !in peers
    ensures peers[id := peer].Values == peers.Values + {peer}
  {
    var more := peers[id := peer];
    assert id in more && more[id] == peer;
    forall p | p in peers.Values ensures p in more.Values {
      var k :| k in peers && peers[k] == p;
      assert k in more && more[k] == p;
    }
  }
}
