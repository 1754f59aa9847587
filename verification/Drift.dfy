/** How the length of a recording follows the sender's RTP clock. */
module Drift {
  import opened Wrappers
  import opened Bytes
  import opened SessionProtocol
  import opened SessionTheorems

  /** `clock` is the sender's 48 kHz clock before it is cut down to 32 bits: the
      frames come in order, each 20 ms frame decoded to 320 samples, and
      consecutive ones are at least one frame and less than a second apart. */
  ghost predicate InOrder(fs: seq<Frame>, clock: seq<int>) {
    && |fs| == |clock|
    && (forall i | 0 <= i < |fs| :: fs[i].timestamp == clock[i] % 0x1_0000_0000)
    && (forall i | 0 <= i < |fs| :: |fs[i].pcm| == 640)
    && (forall i | 1 <= i < |clock| :: 960 <= clock[i] - clock[i - 1] < 48000)
  }

  ghost function LastGap(clock: seq<int>): int
    requires |clock| > 1
  {
    clock[|clock| - 1] - clock[|clock| - 2]
  }

  /** How many gaps the recorder fills. */
  ghost function FilledGaps(clock: seq<int>): (k: int)
    ensures 0 <= k
  {
    if |clock| <= 1 then 0
    else FilledGaps(clock[..|clock| - 1]) + if LastGap(clock) > 960 then 1 else 0
  }

  /** The ticks lost by rounding each filled gap down to whole samples. */
  ghost function LostTicks(clock: seq<int>): (r: int)
    ensures 0 <= r <= 2 * FilledGaps(clock)
  {
    if |clock| <= 1 then 0
    else LostTicks(clock[..|clock| - 1]) + if LastGap(clock) > 960 then LastGap(clock) % 3 else 0
  }

  lemma GapAcrossWrap(last: int, now: int)
    requires 0 <= now - last < 0x1_0000_0000
    ensures Gap(last % 0x1_0000_0000, now % 0x1_0000_0000) == now - last
  {
    var m := 0x1_0000_0000;
    var difference := now % m - last % m;
    assert difference == now - last - m * (now / m - last / m);
    assert now / m - last / m == 0 || now / m - last / m == 1;
  }

  lemma LastFrame(fs: seq<Frame>, clock: seq<int>)
    requires InOrder(fs, clock) && |fs| > 1
    ensures var before, f := fs[..|fs| - 1], fs[|fs| - 1];
            && InOrder(before, clock[..|clock| - 1]) && LastGap(clock) >= 960
            && SilentSamples(LastTimestamp(before), f.timestamp) ==
               if LastGap(clock) > 960 then LastGap(clock) / 3 else 0
  {
    hide Gap;
    var n := |fs| - 1;
    GapAcrossWrap(clock[n - 1], clock[n]);
  }

  lemma {:induction false} DoubledDrift(fs: seq<Frame>, clock: seq<int>)
    requires InOrder(fs, clock) && fs != []
    ensures 3 * |Audio(fs)| == 2 * (clock[|clock| - 1] - clock[0] + 960 * (1 + FilledGaps(clock)) - LostTicks(clock))
  {
    hide Silence, SilentSamples, InOrder, Audio;
    var before, f := fs[..|fs| - 1], fs[|fs| - 1];
    AudioSize(fs, clock);
    if |clock| == 1 {
      assert SilentSamples(LastTimestamp(before), f.timestamp) == 0 by { NoSilenceAtStart(f.timestamp); }
      assert Audio(before) == [] by { NoAudio(); }
    } else {
      LastFrame(fs, clock);
      DoubledDrift(before, clock[..|clock| - 1]);
      Thirds(LastGap(clock));
    }
  }

  lemma AudioSize(fs: seq<Frame>, clock: seq<int>)
    requires InOrder(fs, clock) && fs != []
    ensures var before, f := fs[..|fs| - 1], fs[|fs| - 1];
            |Audio(fs)| == |Audio(before)| + 2 * SilentSamples(LastTimestamp(before), f.timestamp) + 640
    ensures |fs| == |clock|
  {
    hide Silence;
  }

  lemma NoAudio()
    ensures Audio([]) == []
  {
  }

  lemma Thirds(gap: int)
    ensures 3 * (gap / 3) == gap - gap % 3
  {
  }

  /** The exact law: three times the samples written and the ticks elapsed differ
      by one frame for the first packet and one for every filled gap, less the
      ticks lost to rounding. It holds across every wrap of the timestamp. */
  lemma DriftLaw(fs: seq<Frame>, clock: seq<int>)
    requires InOrder(fs, clock) && fs != []
    ensures |Audio(fs)| % 2 == 0
    ensures 3 * (|Audio(fs)| / 2) - (clock[|clock| - 1] - clock[0]) == 960 * (1 + FilledGaps(clock)) - LostTicks(clock)
  {
    hide Audio, FilledGaps, LostTicks;
    DoubledDrift(fs, clock);
  }

  lemma NoSilenceAtStart(now: int)
    ensures SilentSamples(None, now) == 0
  {
  }

  /** A recording stays with the RTP clock to within one frame per filled gap. */
  lemma RecordingTracksClock(es: seq<Event>, s: Session, clock: seq<int>)
    requires Leads(es, s) && InOrder(Frames(es), clock) && clock != []
    ensures var written := s.bytesWritten;
            var samples, elapsed, k := written / 2, clock[|clock| - 1] - clock[0], FilledGaps(clock);
            && written % 2 == 0
            && 960 * (1 + k) - 2 * k <= 3 * samples - elapsed <= 960 * (1 + k)
  {
    hide After, Audio, Frames, InOrder;
    RunTracks(es);
    FramesNonempty(Frames(es), clock);
    DriftLaw(Frames(es), clock);
  }

  lemma FramesNonempty(fs: seq<Frame>, clock: seq<int>)
    requires InOrder(fs, clock) && clock != []
    ensures fs != []
  {
  }
}
