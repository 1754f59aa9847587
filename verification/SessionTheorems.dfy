/** What every run of a recording session keeps, and what it leaves on disk. */
module SessionTheorems {
  import opened Wrappers
  import opened Bytes
  import opened Rtp
  import opened Wav
  import opened SessionProtocol

  // ----- The invariant -----

  ghost predicate Once(s: Session) {
    && s.socketCloses == (if s.closed then 1 else 0)
    && 0 <= s.fileCloses <= s.socketCloses
    && 0 <= s.bytesWritten
  }

  ghost predicate Active(s: Session, k: CallId) {
    k in s.calls && s.calls[k] != Skipped
  }

  /** At most one call gets past the guard, and no call leaves the session open. */
  ghost predicate OnePatcher(s: Session) {
    && (forall j, k | Active(s, j) && Active(s, k) :: j == k)
    && (forall k | k in s.calls :: s.closed)
  }

  ghost predicate Progress(s: Session, phase: Phase) {
    match phase
    case Skipped => true
    case PatchingRiff => s.patched == Patched(false, false) && s.fileCloses == 0 && IsU32(s.bytesWritten + 36)
    case PatchingData => s.patched == Patched(true, false) && s.fileCloses == 0 && IsU32(s.bytesWritten + 36)
    case ClosingFile => s.patched == Patched(true, true) && s.fileCloses == 1
    case Finished => s.patched == Patched(true, true) && s.fileCloses == 1
    case Rejected => s.fileCloses == (if s.patched.data then 1 else 0)
  }

  ghost predicate Progressed(s: Session) {
    forall k | k in s.calls :: Progress(s, s.calls[k])
  }

  /** Without a call past the guard nothing is patched, and the room closed the file if anyone did. */
  ghost predicate Untouched(s: Session) {
    (forall k | k in s.calls :: s.calls[k] == Skipped)
    ==> s.patched == Patched(false, false) && (s.closed <==> s.fileCloses == 1)
  }

  ghost predicate Patches(s: Session) {
    (s.patched.data ==> s.patched.riff) && (s.patched.riff ==> s.closed && IsU32(s.bytesWritten + 36))
  }

  ghost predicate Written(s: Session, pcm: seq<Byte>) {
    && s.bytesWritten == |pcm|
    && s.file == Header(if s.patched.riff then |pcm| + 36 else 0, if s.patched.data then |pcm| else 0) + pcm
  }

  ghost predicate Discipline(s: Session) {
    Once(s) && OnePatcher(s) && Progressed(s) && Untouched(s) && Patches(s)
  }

  lemma ReceiveKeeps(s: Session, packet: Option<Media>, decoded: Option<seq<Byte>>)
    requires Discipline(s)
    ensures Discipline(Receive(s, packet, decoded))
  {
    hide Silence, Pcm;
    if !s.closed {
      assert forall k | k in s.calls :: !Active(s, k);
    }
  }

  lemma CloseKeeps(s: Session, call: CallId)
    requires Discipline(s)
    ensures Discipline(BeginClose(s, call))
  {
    var t := BeginClose(s, call);
    if call !in s.calls {
      assert call in t.calls && forall k | k in s.calls :: k in t.calls && t.calls[k] == s.calls[k];
      if !s.closed {
        assert forall k | k in s.calls :: !Active(s, k);
        assert Active(t, call) && forall k | Active(t, k) :: k == call;
      } else {
        assert forall k | Active(t, k) :: Active(s, k);
      }
    }
  }

  /** Only the call itself moves, and it is the one past the guard. */
  lemma ContinueMoves(s: Session, call: CallId, ok: bool)
    requires OnePatcher(s) && Continue(s, call, ok) != s
    ensures var t := Continue(s, call, ok);
            && call in s.calls && call in t.calls && Active(s, call) && Active(t, call) && t.closed == s.closed
            && (forall k | k in t.calls && k != call :: k in s.calls && t.calls[k] == Skipped == s.calls[k])
  {
    hide PatchAt;
    assert Active(s, call);
    assert forall k | k in s.calls && k != call :: !Active(s, k);
  }

  lemma ContinueOnce(s: Session, call: CallId, ok: bool)
    requires Once(s) && OnePatcher(s) && Progressed(s)
    ensures Once(Continue(s, call, ok))
  {
    hide PatchAt;
    if call in s.calls {
      assert Progress(s, s.calls[call]);
    }
  }

  lemma ContinueProgress(s: Session, call: CallId, ok: bool)
    requires Once(s) && Progressed(s) && call in s.calls && Patches(s)
    requires Continue(s, call, ok) != s
    ensures var t := Continue(s, call, ok); call in t.calls && Progress(t, t.calls[call])
  {
    hide PatchAt;
    assert Progress(s, s.calls[call]);
  }

  lemma ContinuePatches(s: Session, call: CallId, ok: bool)
    requires Progressed(s) && OnePatcher(s) && Patches(s)
    ensures Patches(Continue(s, call, ok))
  {
    hide PatchAt;
    if call in s.calls {
      assert Progress(s, s.calls[call]);
    }
  }

  lemma ContinueKeeps(s: Session, call: CallId, ok: bool)
    requires Discipline(s)
    ensures Discipline(Continue(s, call, ok))
  {
    hide Continue, Once, Patches, Progress;
    var t := Continue(s, call, ok);
    if t != s {
      ContinueMoves(s, call, ok);
      ContinueOnce(s, call, ok);
      ContinueProgress(s, call, ok);
      ContinuePatches(s, call, ok);
      forall k | k in t.calls ensures Progress(t, t.calls[k]) {
        if k != call {
          NoProgress(t);
        }
      }
    }
  }

  lemma NoProgress(s: Session)
    ensures Progress(s, Skipped)
  {
  }

  lemma AbandonKeeps(s: Session)
    requires Discipline(s)
    ensures Discipline(Abandon(s))
  {
    if !s.closed {
      assert forall k | k in s.calls :: !Active(s, k);
    }
  }

  lemma StepKeeps(s: Session, e: Event)
    requires Discipline(s)
    ensures Discipline(Step(s, e))
  {
    hide Discipline, Receive, BeginClose, Continue, Abandon;
    match e
    case Message(packet, decoded) => ReceiveKeeps(s, packet, decoded);
    case Close(call) => CloseKeeps(s, call);
    case Resume(call, ok) => ContinueKeeps(s, call, ok);
    case RemovePeer => AbandonKeeps(s);
  }

  lemma {:induction false} AfterKeeps(s: Session, es: seq<Event>)
    requires Discipline(s)
    ensures Discipline(After(s, es))
  {
    hide Discipline, Step;
    if es == [] {
    } else {
      AfterKeeps(s, es[..|es| - 1]);
      StepKeeps(After(s, es[..|es| - 1]), es[|es| - 1]);
    }
  }

  lemma InitDisciplined()
    ensures Discipline(INIT)
  {
  }

  // ----- The session tracks the packets -----

  ghost predicate Tracks(s: Session, es: seq<Event>) {
    && (s.closed <==> Stopped(es))
    && s.lastRtpTimestamp == LastTimestamp(Frames(es))
    && s.handed == Payloads(Frames(es))
    && Written(s, Audio(Frames(es)))
  }

  lemma StoppedAppend(es: seq<Event>, e: Event)
    ensures Stopped(es + [e]) <==> Stopped(es) || e.Close? || e.RemovePeer?
  {
    assert forall x | x in es + [e] :: x in es || x == e;
    assert e in es + [e];
    assert forall x | x in es :: x in es + [e];
  }

  lemma FramesAppend(es: seq<Event>, e: Event)
    ensures Frames(es + [e]) == if e.Message? && !Stopped(es) && e.packet.Some?
                                then Frames(es) + [FrameOf(e.packet.value, e.decoded)]
                                else Frames(es)
  {
    hide Pcm, Stopped;
    assert (es + [e])[..|es + [e]| - 1] == es;
  }

  lemma AudioAppend(fs: seq<Frame>, f: Frame)
    ensures Audio(fs + [f]) == Audio(fs) + (Silence(LastTimestamp(fs), f.timestamp) + f.pcm)
    ensures LastTimestamp(fs + [f]) == Some(f.timestamp) && Payloads(fs + [f]) == Payloads(fs) + [f.payload]
  {
    hide Silence;
    assert (fs + [f])[..|fs + [f]| - 1] == fs;
  }

  lemma ReceiveTracks(s: Session, es: seq<Event>, packet: Option<Media>, decoded: Option<seq<Byte>>)
    requires Discipline(s) && Tracks(s, es)
    ensures Tracks(Receive(s, packet, decoded), es + [Message(packet, decoded)])
  {
    hide Silence, Pcm, Frames, Audio, LastTimestamp, Payloads, Stopped, Once, OnePatcher, Progressed, Untouched, Header;
    StoppedAppend(es, Message(packet, decoded));
    FramesAppend(es, Message(packet, decoded));
    if !s.closed && packet.Some? {
      AudioAppend(Frames(es), FrameOf(packet.value, decoded));
    }
  }

  lemma CloseTracks(s: Session, es: seq<Event>, call: CallId)
    requires Discipline(s) && Tracks(s, es)
    ensures Tracks(BeginClose(s, call), es + [Close(call)])
  {
    hide Silence, Frames, Audio, LastTimestamp, Payloads, Stopped, Once, Progressed, Untouched, Patches, Header;
    StoppedAppend(es, Close(call));
    FramesAppend(es, Close(call));
  }

  lemma PatchTracks(s: Session, call: CallId, ok: bool, pcm: seq<Byte>)
    requires Discipline(s) && Written(s, pcm)
    ensures Written(Continue(s, call, ok), pcm)
  {
    hide Header, Overwrite, PutLE32, Once, OnePatcher, Untouched, Patches;
    if call in s.calls && ok {
      assert Progress(s, s.calls[call]);
      PatchRiffSize(pcm, |pcm| + 36);
      PatchDataSize(|pcm| + 36, pcm, |pcm|);
    }
  }

  lemma ContinueTracks(s: Session, es: seq<Event>, call: CallId, ok: bool)
    requires Discipline(s) && Tracks(s, es)
    ensures Tracks(Continue(s, call, ok), es + [Resume(call, ok)])
  {
    hide Frames, Audio, LastTimestamp, Payloads, Stopped, Discipline, Written, PatchAt;
    StoppedAppend(es, Resume(call, ok));
    FramesAppend(es, Resume(call, ok));
    PatchTracks(s, call, ok, Audio(Frames(es)));
  }

  lemma AbandonTracks(s: Session, es: seq<Event>)
    requires Tracks(s, es)
    ensures Tracks(Abandon(s), es + [RemovePeer])
  {
    hide Frames, Audio, LastTimestamp, Payloads, Stopped, Header;
    StoppedAppend(es, RemovePeer);
    FramesAppend(es, RemovePeer);
  }

  lemma StepTracks(s: Session, es: seq<Event>, e: Event)
    requires Discipline(s) && Tracks(s, es)
    ensures Tracks(Step(s, e), es + [e])
  {
    hide Discipline, Tracks, Receive, BeginClose, Continue, Abandon;
    match e
    case Message(packet, decoded) => ReceiveTracks(s, es, packet, decoded);
    case Close(call) => CloseTracks(s, es, call);
    case Resume(call, ok) => ContinueTracks(s, es, call, ok);
    case RemovePeer => AbandonTracks(s, es);
  }

  lemma {:induction false} RunTracks(es: seq<Event>)
    ensures Discipline(After(INIT, es)) && Tracks(After(INIT, es), es)
  {
    hide Discipline, Tracks, Step;
    AfterKeeps(INIT, es) by { InitDisciplined(); }
    if es == [] {
      assert Tracks(INIT, []) by { InitTracks(); }
    } else {
      var before, e := es[..|es| - 1], es[|es| - 1];
      RunTracks(before);
      StepTracks(After(INIT, before), before, e);
      assert before + [e] == es;
    }
  }

  lemma InitTracks()
    ensures Tracks(INIT, [])
  {
    assert INIT.file == Header(0, 0) + Audio(Frames([]));
  }

  // ----- The promises -----

  /** In every run the socket and the file are closed at most once, the socket
      exactly when the session is closed, and at most one call of
      closeRecordingSession gets past its guard. */
  lemma ClosedOnce(es: seq<Event>, s: Session, j: CallId, k: CallId)
    requires Leads(es, s)
    ensures s.socketCloses == (if s.closed then 1 else 0) && 0 <= s.fileCloses <= s.socketCloses
    ensures Active(s, j) && Active(s, k) ==> j == k
  {
    hide After;
    AfterKeeps(INIT, es) by { InitDisciplined(); }
  }

  lemma StepFreezes(s: Session, e: Event)
    requires Discipline(s)
    ensures s.fileCloses == 1 ==> Step(s, e).fileCloses == 1 && Step(s, e).file == s.file
    ensures s.closed ==> var t := Step(s, e); t.closed && t.bytesWritten == s.bytesWritten && |t.file| == |s.file|
  {
    hide Silence, Pcm, OnePatcher, Untouched, Overwrite;
    assert e.Resume? && e.call in s.calls ==> Progress(s, s.calls[e.call]);
  }

  lemma {:induction false} Freezes(es: seq<Event>, more: seq<Event>)
    ensures var s, t := After(INIT, es), After(INIT, es + more);
            && (s.closed ==> t.closed && t.bytesWritten == s.bytesWritten && |t.file| == |s.file|)
            && (s.fileCloses == 1 ==> t.fileCloses == 1 && t.file == s.file)
  {
    hide Step, Discipline;
    if more == [] {
      assert es + more == es;
    } else {
      var before, e := more[..|more| - 1], more[|more| - 1];
      Freezes(es, before);
      assert (es + more)[..|es + more| - 1] == es + before;
      AfterKeeps(INIT, es + before) by { InitDisciplined(); }
      StepFreezes(After(INIT, es + before), e);
    }
  }

  /** From the moment it is closed by anyone, the session counts and appends
      nothing any more, whatever packets and closes still come; and nothing is
      written to the file once it was closed. */
  lemma FrozenOnceClosed(es: seq<Event>, more: seq<Event>, s: Session, t: Session)
    requires Leads(es, s) && Leads(es + more, t)
    ensures s.closed ==> t.closed && t.bytesWritten == s.bytesWritten && |t.file| == |s.file|
    ensures s.fileCloses == 1 ==> t.fileCloses == 1 && t.file == s.file
  {
    hide After;
    Freezes(es, more);
  }

  /** The decoder is handed exactly the payloads of the packets that came before
      the first close, in order. */
  lemma DecoderInput(es: seq<Event>, s: Session)
    requires Leads(es, s)
    ensures s.handed == Payloads(Frames(es))
  {
    hide After, Payloads, Frames, Discipline;
    RunTracks(es);
  }

  /** In every run the file is the header followed by the audio of the packets
      that came before the first close; each size field is zero or exact, and
      the data size is patched only behind the RIFF size. */
  lemma DeclaredSizes(es: seq<Event>, s: Session)
    requires Leads(es, s)
    ensures var pcm := Audio(Frames(es));
            && s.bytesWritten == |pcm|
            && s.file == Header(if s.patched.riff then |pcm| + 36 else 0, if s.patched.data then |pcm| else 0) + pcm
            && (s.patched.data ==> s.patched.riff && s.closed && IsU32(|pcm| + 36))
  {
    hide After, Header, Audio, Frames;
    RunTracks(es);
  }

  /** The header is complete exactly when the one call that got past the guard
      has resumed from its second patch. */
  lemma PatchedByItsCall(es: seq<Event>, k: CallId)
    requires Active(After(INIT, es), k)
    ensures var s := After(INIT, es);
            && (s.calls[k] in {ClosingFile, Finished} ==> s.patched.data && s.fileCloses == 1)
            && (s.calls[k] in {PatchingRiff, PatchingData} ==> !s.patched.data && s.fileCloses == 0)
            && (s.calls[k] == Rejected ==> s.fileCloses == if s.patched.data then 1 else 0)
  {
    hide After;
    AfterKeeps(INIT, es) by { InitDisciplined(); }
    var s := After(INIT, es);
    assert Progress(s, s.calls[k]);
  }

  /** Reading the file by the rules of RIFF yields mono 16 kHz 16-bit PCM with
      exactly the silence and decoded frames in order, if and only if the data
      size has been patched and the audio is a whole number of samples; it never
      yields anything else. (With nothing recorded, the RIFF size alone will do.) */
  lemma WavRoundTrip(es: seq<Event>, s: Session)
    requires Leads(es, s)
    ensures var pcm := Audio(Frames(es));
            ReadWave(s.file) == if (if pcm == [] then s.patched.riff else s.patched.data) && |pcm| % 2 == 0
                                then Some(Wave(PCM_MONO_16K, pcm)) else None
  {
    hide After, Header, Audio, Frames, ReadWave;
    var pcm := Audio(Frames(es));
    RunTracks(es);
    UnpatchedFileIsRejected(pcm);
    if s.patched.riff {
      PatchedFileReads(pcm);
    }
  }

  /** Silence is whole samples, so the audio is as soon as each frame is. */
  lemma {:induction false} WholeSamples(fs: seq<Frame>)
    requires forall i | 0 <= i < |fs| :: |fs[i].pcm| % 2 == 0
    ensures |Audio(fs)| % 2 == 0
  {
    hide Silence;
    if fs == [] {
    } else {
      var before, f := fs[..|fs| - 1], fs[|fs| - 1];
      WholeSamples(before);
      assert |Audio(fs)| == |Audio(before)| + 2 * SilentSamples(LastTimestamp(before), f.timestamp) + |f.pcm|;
    }
  }

  // ----- A whole close, from end to end -----

  predicate By(e: Event, k: CallId) {
    (e.Close? || e.Resume?) && e.call == k
  }

  /** What happens while call `k` awaits: anything but its own steps. */
  predicate Others(es: seq<Event>, k: CallId) {
    forall i | 0 <= i < |es| :: !By(es[i], k)
  }

  lemma StepOfOthers(s: Session, e: Event, k: CallId)
    requires !By(e, k) && k in s.calls
    ensures k in Step(s, e).calls && Step(s, e).calls[k] == s.calls[k]
  {
    hide Silence, PatchAt;
  }

  lemma {:induction false} OthersKeepCall(es: seq<Event>, others: seq<Event>, k: CallId)
    requires Others(others, k) && k in After(INIT, es).calls
    ensures var s := After(INIT, es + others); k in s.calls && s.calls[k] == After(INIT, es).calls[k]
  {
    hide Step;
    if others == [] {
      assert es + others == es;
    } else {
      var before := others[..|others| - 1];
      OthersKeepCall(es, before, k);
      assert (es + others)[..|es + others| - 1] == es + before;
      StepOfOthers(After(INIT, es + before), others[|others| - 1], k);
    }
  }

  lemma {:induction false} FramesStop(es: seq<Event>, more: seq<Event>)
    requires Stopped(es)
    ensures Stopped(es + more) && Frames(es + more) == Frames(es)
  {
    hide Stopped;
    if more == [] {
      assert es + more == es;
    } else {
      var before, e := es + more[..|more| - 1], more[|more| - 1];
      FramesStop(es, more[..|more| - 1]);
      assert es + more == before + [e];
      FramesAppend(before, e);
      StoppedAppend(before, e);
    }
  }

  /** While others run and until its next resume, a call stays where it is. */
  lemma AwaitAndResume(es: seq<Event>, others: seq<Event>, k: CallId)
    requires Others(others, k) && k in After(INIT, es).calls && Stopped(es)
    ensures var run := es + others + [Resume(k, true)];
            var was, now := After(INIT, es).calls[k], After(INIT, run).calls;
            && Stopped(run) && Frames(run) == Frames(es) && k in now
            && (was == PatchingRiff ==> now[k] == PatchingData)
            && (was == PatchingData ==> now[k] == ClosingFile)
            && (was == ClosingFile ==> now[k] == Finished)
            && (was == Rejected ==> now[k] == Rejected)
  {
    hide After, Step, Stopped, Frames, Discipline, Others;
    var awaited := es + others;
    OthersKeepCall(es, others, k);
    AfterSnoc(INIT, awaited, Resume(k, true));
    assert es + others + [Resume(k, true)] == es + (others + [Resume(k, true)]);
    FramesStop(es, others + [Resume(k, true)]);
    AfterKeeps(INIT, awaited) by { InitDisciplined(); }
    ResumeMoves(After(INIT, awaited), k);
  }

  lemma AfterSnoc(s: Session, es: seq<Event>, e: Event)
    ensures After(s, es + [e]) == Step(After(s, es), e)
  {
    assert (es + [e])[..|es + [e]| - 1] == es;
  }

  lemma {:induction false} AfterConcat(s: Session, es: seq<Event>, more: seq<Event>)
    ensures After(s, es + more) == After(After(s, es), more)
  {
    hide Step;
    if more == [] {
      assert es + more == es;
    } else {
      AfterConcat(s, es, more[..|more| - 1]);
      assert (es + more)[..|es + more| - 1] == es + more[..|more| - 1];
    }
  }

  lemma ResumeMoves(s: Session, k: CallId)
    requires Discipline(s) && k in s.calls
    ensures var was, now := s.calls[k], Step(s, Resume(k, true)).calls;
            && k in now
            && (was == PatchingRiff ==> now[k] == PatchingData)
            && (was == PatchingData ==> now[k] == ClosingFile)
            && (was == ClosingFile ==> now[k] == Finished)
            && (was == Rejected ==> now[k] == Rejected)
  {
    hide PatchAt, OnePatcher, Untouched, Patches;
    assert Progress(s, s.calls[k]);
  }

  ghost function WholeClose(es: seq<Event>, k: CallId, a: seq<Event>, b: seq<Event>, c: seq<Event>): seq<Event> {
    es + [Close(k)] + a + [Resume(k, true)] + b + [Resume(k, true)] + c + [Resume(k, true)]
  }

  /** An open session that is closed by a call whose file operations succeed,
      whatever else happens at its three awaits: it completes, with the file
      closed and readable as the recorded audio, if and only if the RIFF size
      fits into 32 bits. Otherwise it throws before the first await, the file
      handle is never closed and the file never becomes readable. */
  lemma CompletedClose(es: seq<Event>, k: CallId, a: seq<Event>, b: seq<Event>, c: seq<Event>)
    requires !After(INIT, es).closed && Others(a, k) && Others(b, k) && Others(c, k)
    ensures var s, pcm := After(INIT, WholeClose(es, k, a, b, c)), Audio(Frames(es));
            && s.closed && s.socketCloses == 1 && k in s.calls
            && (s.calls[k] == Finished <==> IsU32(|pcm| + 36)) && (s.fileCloses == 1 <==> IsU32(|pcm| + 36))
            && ReadWave(s.file) == if IsU32(|pcm| + 36) && |pcm| % 2 == 0 then Some(Wave(PCM_MONO_16K, pcm)) else None
  {
    hide After, Audio, Frames, Stopped, ReadWave, Discipline, Header, Others;
    var pcm, closing := Audio(Frames(es)), es + [Close(k)];
    BeginsClosing(es, k);
    AwaitAndResume(closing, a, k);
    AwaitAndResume(closing + a + [Resume(k, true)], b, k);
    AwaitAndResume(closing + a + [Resume(k, true)] + b + [Resume(k, true)], c, k);
    var run := WholeClose(es, k, a, b, c);
    var s := After(INIT, run);
    RunTracks(run);
    ClosedOnce(run, s, k, k);
    DeclaredSizes(run, s);
    PatchedByItsCall(run, k);
    WavRoundTrip(run, s);
  }

  lemma BeginsClosing(es: seq<Event>, k: CallId)
    requires !After(INIT, es).closed
    ensures var closing := es + [Close(k)];
            && Stopped(closing) && Frames(closing) == Frames(es) && k in After(INIT, closing).calls
            && After(INIT, closing).calls[k] == if IsU32(|Audio(Frames(es))| + 36) then PatchingRiff else Rejected
  {
    hide Audio, Frames, Stopped, Header;
    RunTracks(es);
    StoppedAppend(es, Close(k));
    FramesAppend(es, Close(k));
    assert (es + [Close(k)])[..|es + [Close(k)]| - 1] == es;
  }

  /** A recording whose peer is removed while it runs is closed but never
      patched: its file is not readable, whatever happens afterwards. */
  lemma RemovedPeerIsUnreadable(es: seq<Event>, more: seq<Event>)
    requires !After(INIT, es).closed
    ensures var s := After(INIT, es + [RemovePeer] + more); s.closed && s.fileCloses == 1 && ReadWave(s.file) == None
  {
    hide Audio, Frames, Stopped, Header, ReadWave, Discipline;
    var removed := es + [RemovePeer];
    assert removed[..|removed| - 1] == es;
    RunTracks(es);
    Unpatched(After(INIT, es));
    Freezes(removed, more);
    Freezes(removed, []);
    UnpatchedFileIsRejected(Audio(Frames(es)));
  }

  lemma Unpatched(s: Session)
    requires Discipline(s) && !s.closed
    ensures s.fileCloses == 0 && !s.patched.riff && !s.patched.data
  {
  }
}
