/** One recording session: RTP packets, any number of calls of
    closeRecordingSession (from a stop, a closed producer, a socket error or a
    failed connect) and the room's own close when the peer is removed. A call
    awaits each patch of the header and the close of the file, and anything else
    can happen at each of those awaits; an await may also fail.

    `handed` is what the decoder was given and `patched` which patches have
    landed; no transition reads either. */
module SessionProtocol {
  import opened Wrappers
  import opened Bytes
  import opened Rtp
  import opened Wav

  const OPUS_FRAME_SAMPLES := 960
  const TARGET_FRAME_SAMPLES := 320
  const MAX_SILENCE_GAP_TICKS := 48000

  type CallId = int

  /** Where a call of closeRecordingSession is: it returned at once, awaits one
      of its three file operations, is done, or threw. */
  datatype Phase = Skipped | PatchingRiff | PatchingData | ClosingFile | Finished | Rejected

  datatype Patched = Patched(riff: bool, data: bool)

  datatype Session = Session(closed: bool, bytesWritten: int, lastRtpTimestamp: Option<int>, handed: seq<seq<Byte>>,
                             file: seq<Byte>, socketCloses: int, fileCloses: int, calls: map<CallId, Phase>,
                             patched: Patched)

  /** `packet` is what the parser makes of a datagram, and `decoded` what the Opus
      decoder returns for its payload, if it does not throw. */
  datatype Event =
    | Message(packet: Option<Media>, decoded: Option<seq<Byte>>)
    | Close(call: CallId)
    | Resume(call: CallId, ok: bool)
    | RemovePeer

  const INIT := Session(false, 0, None, [], Header(0, 0), 0, 0, map[], Patched(false, false))

  // ----- Packets -----

  function Gap(last: int, now: int): int {
    (now - last) % 0x1_0000_0000
  }

  /** The samples that fill a gap, computed in the source's order of operations. */
  function GapAtTargetRate(gap: int): int {
    (gap as real / OPUS_FRAME_SAMPLES as real * TARGET_FRAME_SAMPLES as real).Floor
  }

  /** A gap of more than one frame and less than a second is filled. */
  predicate Filled(gap: int) {
    OPUS_FRAME_SAMPLES < gap < MAX_SILENCE_GAP_TICKS
  }

  function SilentSamples(last: Option<int>, now: int): (n: int)
    ensures 0 <= n
  {
    if last.Some? && Filled(Gap(last.value, now)) then Gap(last.value, now) / 3 else 0
  }

  function Silence(last: Option<int>, now: int): (b: seq<Byte>)
    ensures |b| == 2 * SilentSamples(last, now)
  {
    if last.None? then []
    else
      var gap := Gap(last.value, now);
      if Filled(gap) then
        SilenceIsThird(gap);
        seq(GapAtTargetRate(gap) * BYTES_PER_SAMPLE, _ => 0)
      else []
  }

  /** 48 kHz ticks become 16 kHz samples: a third of them, rounded down. */
  lemma SilenceIsThird(gap: int)
    ensures GapAtTargetRate(gap) == gap / 3
  {
    var third := gap as real / 960.0 * 320.0;
    assert third == gap as real / 3.0;
    var q, r := gap / 3, gap % 3;
    assert gap == 3 * q + r;
    assert third == q as real + r as real / 3.0;
  }

  function Pcm(decoded: Option<seq<Byte>>): seq<Byte> {
    if decoded.None? then [] else decoded.value
  }

  function Receive(s: Session, packet: Option<Media>, decoded: Option<seq<Byte>>): Session {
    if s.closed then s
    else
      match packet
      case None => s
      case Some(m) =>
        var audio := Silence(s.lastRtpTimestamp, m.timestamp) + Pcm(decoded);
        s.(file := s.file + audio, bytesWritten := s.bytesWritten + |audio|, handed := s.handed + [m.payload],
           lastRtpTimestamp := Some(m.timestamp))
  }

  // ----- Closing -----

  function At(s: Session, call: CallId, phase: Phase): Session {
    s.(calls := s.calls[call := phase])
  }

  function PatchAt(file: seq<Byte>, at: int, v: int): seq<Byte>
    requires 0 <= at
  {
    if at + 4 <= |file| then Overwrite(file, at, PutLE32(v)) else file
  }

  /** From the call to its first await. writeUInt32LE throws on a size that does
      not fit, and then neither the header nor the file handle is looked after. */
  function BeginClose(s: Session, call: CallId): Session {
    if call in s.calls then s
    else if s.closed then At(s, call, Skipped)
    else
      var t := s.(closed := true, socketCloses := s.socketCloses + 1);
      At(t, call, if IsU32(s.bytesWritten + WAV_HEADER_SIZE - 8) then PatchingRiff else Rejected)
  }

  function Continue(s: Session, call: CallId, ok: bool): Session {
    if call !in s.calls then s
    else
      match s.calls[call]
      case PatchingRiff =>
        if !ok then At(s, call, Rejected)
        else
          var t := s.(file := PatchAt(s.file, 4, s.bytesWritten + WAV_HEADER_SIZE - 8),
                      patched := s.patched.(riff := true));
          At(t, call, if IsU32(s.bytesWritten) then PatchingData else Rejected)
      case PatchingData =>
        if !ok then At(s, call, Rejected)
        else
          var t := s.(file := PatchAt(s.file, 40, s.bytesWritten), patched := s.patched.(data := true));
          At(t.(fileCloses := s.fileCloses + 1), call, ClosingFile)
      case ClosingFile => At(s, call, if ok then Finished else Rejected)
      case _ => s
  }

  /** MediaRoom.removePeer closes the socket and the file, and nothing more. */
  function Abandon(s: Session): Session {
    if s.closed then s else s.(closed := true, socketCloses := s.socketCloses + 1, fileCloses := s.fileCloses + 1)
  }

  function Step(s: Session, e: Event): Session {
    match e
    case Message(packet, decoded) => Receive(s, packet, decoded)
    case Close(call) => BeginClose(s, call)
    case Resume(call, ok) => Continue(s, call, ok)
    case RemovePeer => Abandon(s)
  }

  function After(s: Session, es: seq<Event>): Session {
    if es == [] then s else Step(After(s, es[..|es| - 1]), es[|es| - 1])
  }

  /** The run `es` of a session ends in `s`. */
  ghost predicate Leads(es: seq<Event>, s: Session) {
    s == After(INIT, es)
  }

  // ----- What was recorded, as the packets say it -----

  /** A packet the session took in: its timestamp, its payload and what that decoded to. */
  datatype Frame = Frame(timestamp: int, payload: seq<Byte>, pcm: seq<Byte>)

  ghost predicate Stopped(es: seq<Event>) {
    exists e | e in es :: e.Close? || e.RemovePeer?
  }

  ghost function FrameOf(m: Media, decoded: Option<seq<Byte>>): Frame {
    Frame(m.timestamp, m.payload, Pcm(decoded))
  }

  ghost function Payloads(fs: seq<Frame>): seq<seq<Byte>> {
    seq(|fs|, i requires 0 <= i < |fs| => fs[i].payload)
  }

  /** The RTP packets that came before the first close of any kind. */
  ghost function Frames(es: seq<Event>): seq<Frame> {
    if es == [] then []
    else
      var before, e := es[..|es| - 1], es[|es| - 1];
      if e.Message? && !Stopped(before) && e.packet.Some?
      then Frames(before) + [FrameOf(e.packet.value, e.decoded)]
      else Frames(before)
  }

  ghost function LastTimestamp(fs: seq<Frame>): Option<int> {
    if fs == [] then None else Some(fs[|fs| - 1].timestamp)
  }

  /** The frames in order, each behind the silence for the gap before it. */
  ghost function Audio(fs: seq<Frame>): seq<Byte> {
    if fs == [] then []
    else
      var before, f := fs[..|fs| - 1], fs[|fs| - 1];
      Audio(before) + (Silence(LastTimestamp(before), f.timestamp) + f.pcm)
  }
}
