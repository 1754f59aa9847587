/** A recording session as the recorder holds it: mutable fields over a socket,
    a decoder and a file. */
module RecordingSessions {
  import opened Wrappers
  import opened Bytes
  import opened Rtp
  import opened Wav
  import opened SessionProtocol
  import opened SessionTheorems

  class UdpSocket {
    var closes: int

    constructor ()
      ensures closes == 0
    {
      closes := 0;
    }

    method Close()
      modifies this
      ensures closes == old(closes) + 1
    {
      closes := closes + 1;
    }
  }

  class FileHandle {
    var content: seq<Byte>
    var closes: int

    constructor ()
      ensures content == [] && closes == 0
    {
      content, closes := [], 0;
    }

    /** A write without a position; such writes land in the order they are issued. */
    method Append(data: seq<Byte>)
      modifies this
      ensures content == old(content) + data && closes == old(closes)
    {
      content := content + data;
    }

    method WriteAt(data: seq<Byte>, at: int)
      requires 0 <= at && at + |data| <= |content|
      modifies this
      ensures content == Overwrite(old(content), at, data) && closes == old(closes)
    {
      content := Overwrite(content, at, data);
    }

    method Close()
      modifies this
      ensures closes == old(closes) + 1 && content == old(content)
    {
      closes := closes + 1;
    }
  }

  class OpusDecoder {
    var handed: seq<seq<Byte>>

    constructor ()
      ensures handed == []
    {
      handed := [];
    }

    /** The codec is foreign: `outcome` is whatever it makes of the payload, None if it throws. */
    method Decode(payload: seq<Byte>, outcome: Option<seq<Byte>>) returns (pcm: Option<seq<Byte>>)
      modifies this
      ensures handed == old(handed) + [payload] && pcm == outcome
    {
      handed := handed + [payload];
      pcm := outcome;
    }
  }

  class RecordingSession {
    const socket: UdpSocket
    const fileHandle: FileHandle
    const decoder: OpusDecoder
    var closed: bool
    var bytesWritten: int
    var lastRtpTimestamp: Option<int>

    // The calls of closeRecordingSession so far, each where it is suspended.
    var calls: map<CallId, Phase>
    var patched: Patched
    ghost var run: seq<Event>

    function Value(): Session
      reads this, socket, fileHandle, decoder
    {
      Session(closed, bytesWritten, lastRtpTimestamp, decoder.handed, fileHandle.content, socket.closes,
              fileHandle.closes, calls, patched)
    }

    /** The fields are what the session protocol makes of everything that happened. */
    ghost predicate Valid()
      reads this, socket, fileHandle, decoder
    {
      Value() == After(INIT, run)
    }

    /** startRecordingSession, once the socket is bound */
    constructor ()
      ensures Valid() && run == []
      ensures fresh(socket) && fresh(fileHandle) && fresh(decoder)
    {
      decoder := new OpusDecoder();
      var file := new FileHandle();
      var header := BuildWavHeader();
      file.Append(header[..]);
      fileHandle := file;
      socket := new UdpSocket();
      closed, bytesWritten, lastRtpTimestamp := false, 0, None;
      calls, patched, run := map[], Patched(false, false), [];
    }

    /** The middle of handleRtpPacket: silence for what the clock says is missing. */
    method FillGap(rtpTimestamp: int)
      modifies this`bytesWritten, fileHandle
      ensures fileHandle.content == old(fileHandle.content) + Silence(lastRtpTimestamp, rtpTimestamp)
      ensures bytesWritten == old(bytesWritten) + |Silence(lastRtpTimestamp, rtpTimestamp)|
      ensures fileHandle.closes == old(fileHandle.closes)
    {
      hide Gap, GapAtTargetRate, SilentSamples;
      if lastRtpTimestamp.Some? {
        var gap := Gap(lastRtpTimestamp.value, rtpTimestamp);
        var isGapLargerThanOneFrame := gap > OPUS_FRAME_SAMPLES;
        var isGapWithinLimit := gap < MAX_SILENCE_GAP_TICKS;
        if isGapLargerThanOneFrame && isGapWithinLimit {
          SilenceIsThird(gap);
          var silenceBytes := GapAtTargetRate(gap) * BYTES_PER_SAMPLE;
          var silence := new Byte[silenceBytes](_ => 0);
          fileHandle.Append(silence[..]);
          bytesWritten := bytesWritten + silenceBytes;
        }
      }
    }

    method HandleRtpPacket(msg: seq<Byte>, outcome: Option<seq<Byte>>)
      requires Valid()
      modifies this, fileHandle, decoder
      ensures Valid() && run == old(run) + [Message(Parse(msg), outcome)]
      ensures Value() == Receive(old(Value()), Parse(msg), outcome)
    {
      hide Parse, Overwrite, After, Silence;
      run := run + [Message(Parse(msg), outcome)];
      AfterSnoc(INIT, old(run), Message(Parse(msg), outcome));
      if closed {
        return;
      }
      var packet := ReadPacket(msg);
      if packet.None? {
        return;
      }
      var rtpTimestamp, opusPayload := packet.value.timestamp, packet.value.payload;

      FillGap(rtpTimestamp);
      lastRtpTimestamp := Some(rtpTimestamp);

      var pcm := decoder.Decode(opusPayload, outcome);
      if pcm.None? {
        return;
      }
      fileHandle.Append(pcm.value);
      bytesWritten := bytesWritten + |pcm.value|;
    }

    /** MediaRoom.stopPeerRecording, the part that ends the session. */
    method Abandon()
      requires Valid()
      modifies this, socket, fileHandle
      ensures Valid() && run == old(run) + [RemovePeer]
      ensures Value() == SessionProtocol.Abandon(old(Value()))
    {
      hide After;
      run := run + [RemovePeer];
      AfterSnoc(INIT, old(run), RemovePeer);
      if !closed {
        closed := true;
        socket.Close();
        fileHandle.Close();
      }
    }

    /** An await of call `call`: whatever packets, other calls and the room do
        before the event loop comes back to it. */
    method Await(call: CallId)
      requires Valid()
      modifies this, socket, fileHandle, decoder
      ensures Valid() && old(run) <= run && Others(run[|old(run)|..], call)
    {
      hide After, Others;
      var others: seq<Event> := *;
      if Others(others, call) {
        AfterConcat(INIT, run, others);
        var s := After(Value(), others);
        closed, bytesWritten, lastRtpTimestamp := s.closed, s.bytesWritten, s.lastRtpTimestamp;
        decoder.handed := s.handed;
        fileHandle.content, fileHandle.closes, socket.closes := s.file, s.fileCloses, s.socketCloses;
        calls, patched, run := s.calls, s.patched, run + others;
        assert run[|old(run)|..] == others;
      } else {
        assert run[|old(run)|..] == [];
        NoOthers(call);
      }
    }

    /** closeRecordingSession: false if it throws. If it is the call that closed
        the session and it returns, the file reads as the audio recorded until
        then; a call that finds the session closed does nothing. */
    method CloseRecordingSession(call: CallId) returns (ok: bool)
      requires Valid() && call !in calls
      modifies this, socket, fileHandle, decoder
      ensures Valid() && old(run) + [Close(call)] <= run
      ensures call in calls && calls[call] == if !ok then Rejected else if old(closed) then Skipped else Finished
      ensures old(closed) ==> ok && run == old(run) + [Close(call)]
      ensures ok && !old(closed) ==>
                var pcm := Audio(Frames(old(run)));
                ReadWave(fileHandle.content) == if |pcm| % 2 == 0 then Some(Wave(PCM_MONO_16K, pcm)) else None
    {
      hide After, Others, Audio, Frames, ReadWave, Overwrite, PutLE32;
      run := run + [Close(call)];
      AfterSnoc(INIT, old(run), Close(call));
      if closed {
        calls := calls[call := Skipped];
        return true;
      }
      closed := true;
      socket.Close();

      if !IsU32(bytesWritten + WAV_HEADER_SIZE - 8) {
        calls := calls[call := Rejected];
        return false;
      }
      var riffSize := SizeField(bytesWritten + WAV_HEADER_SIZE - 8);
      calls := calls[call := PatchingRiff];
      ok := PatchRiff(call, riffSize);
      if !ok {
        return;
      }

      var dataSize := SizeField(bytesWritten);
      ok := PatchData(call, dataSize);
      if !ok {
        return;
      }
      ok := AwaitClosed(call);
      if ok {
        FinishedReads(old(run), run, call);
      }
    }

    /** `await fileHandle.write(riffSize, 0, 4, 4)`: false if it failed */
    method PatchRiff(call: CallId, riffSize: seq<Byte>) returns (ok: bool)
      requires Valid() && call in calls && calls[call] == PatchingRiff && closed
      requires riffSize == PutLE32(bytesWritten + WAV_HEADER_SIZE - 8)
      modifies this, socket, fileHandle, decoder
      ensures Valid() && old(run) <= run && closed && bytesWritten == old(bytesWritten)
      ensures call in calls && calls[call] == if ok then PatchingData else Rejected
    {
      hide After, Others, Overwrite, PutLE32, Discipline;
      Await(call);
      ghost var others := run[|old(run)|..];
      Awaited(old(run), others, call);
      assert run == old(run) + others;
      ok := *;
      run := run + [Resume(call, ok)];
      AfterSnoc(INIT, old(run) + others, Resume(call, ok));
      if !ok {
        calls := calls[call := Rejected];
        return;
      }
      fileHandle.WriteAt(riffSize, 4);
      patched := patched.(riff := true);
      calls := calls[call := PatchingData];
    }

    /** `await fileHandle.write(dataSize, 0, 4, 40)`, and the start of the close */
    method PatchData(call: CallId, dataSize: seq<Byte>) returns (ok: bool)
      requires Valid() && call in calls && calls[call] == PatchingData && closed
      requires dataSize == PutLE32(bytesWritten)
      modifies this, socket, fileHandle, decoder
      ensures Valid() && old(run) <= run && closed
      ensures call in calls && calls[call] == if ok then ClosingFile else Rejected
    {
      hide After, Others, Overwrite, PutLE32, Discipline;
      Await(call);
      ghost var others := run[|old(run)|..];
      Awaited(old(run), others, call);
      assert run == old(run) + others;
      ok := *;
      run := run + [Resume(call, ok)];
      AfterSnoc(INIT, old(run) + others, Resume(call, ok));
      if !ok {
        calls := calls[call := Rejected];
        return;
      }
      fileHandle.WriteAt(dataSize, 40);
      patched := patched.(data := true);
      fileHandle.Close();
      calls := calls[call := ClosingFile];
    }

    method AwaitClosed(call: CallId) returns (ok: bool)
      requires Valid() && call in calls && calls[call] == ClosingFile && closed
      modifies this, socket, fileHandle, decoder
      ensures Valid() && old(run) <= run
      ensures call in calls && calls[call] == if ok then Finished else Rejected
    {
      hide After, Others, Discipline;
      Await(call);
      ghost var others := run[|old(run)|..];
      Awaited(old(run), others, call);
      assert run == old(run) + others;
      ok := *;
      run := run + [Resume(call, ok)];
      AfterSnoc(INIT, old(run) + others, Resume(call, ok));
      calls := calls[call := if ok then Finished else Rejected];
    }
  }

  /** While a call awaits, its phase, the session's length and the header stay put. */
  lemma Awaited(es: seq<Event>, others: seq<Event>, call: CallId)
    requires Others(others, call) && call in After(INIT, es).calls && After(INIT, es).closed
    ensures var s, t := After(INIT, es), After(INIT, es + others);
            && call in t.calls && t.calls[call] == s.calls[call] && t.closed && t.bytesWritten == s.bytesWritten
            && |t.file| >= 44 && Progress(t, t.calls[call]) && t.bytesWritten >= 0
  {
    hide After, Audio, Frames;
    OthersKeepCall(es, others, call);
    Freezes(es, others);
    RunTracks(es + others);
  }

  lemma FinishedReads(es: seq<Event>, run: seq<Event>, call: CallId)
    requires es + [Close(call)] <= run && call in After(INIT, run).calls && After(INIT, run).calls[call] == Finished
    ensures var pcm := Audio(Frames(es));
            ReadWave(After(INIT, run).file) == if |pcm| % 2 == 0 then Some(Wave(PCM_MONO_16K, pcm)) else None
    ensures Frames(run) == Frames(es)
  {
    hide After, Audio, Frames, ReadWave, Stopped, Discipline;
    var rest := run[|es| + 1..];
    assert run == es + [Close(call)] + rest;
    StoppedAppend(es, Close(call));
    FramesStop(es + [Close(call)], rest);
    FramesAppend(es, Close(call));
    PatchedByItsCall(run, call);
    DeclaredSizes(run, After(INIT, run));
    WavRoundTrip(run, After(INIT, run));
  }

  lemma NoOthers(call: CallId)
    ensures Others([], call)
  {
  }
}
