/** The 44-byte header the recorder writes, and what a reader of RIFF files
    finds in the result. */
module Wav {
  import opened Wrappers
  import opened Bytes

  const WAV_HEADER_SIZE := 44
  const SAMPLE_RATE := 16000
  const CHANNELS := 1
  const BITS_PER_SAMPLE := 16
  const BYTES_PER_SAMPLE := 2

  const RIFF: seq<Byte> := [0x52, 0x49, 0x46, 0x46]
  const WAVE: seq<Byte> := [0x57, 0x41, 0x56, 0x45]
  const FMT: seq<Byte> := [0x66, 0x6d, 0x74, 0x20]
  const DATA: seq<Byte> := [0x64, 0x61, 0x74, 0x61]

  function FormatBody(): (b: seq<Byte>)
    ensures |b| == 16
  {
    PutLE16(1) + PutLE16(CHANNELS) + PutLE32(SAMPLE_RATE) + PutLE32(SAMPLE_RATE * CHANNELS * BYTES_PER_SAMPLE)
    + PutLE16(CHANNELS * BYTES_PER_SAMPLE) + PutLE16(BITS_PER_SAMPLE)
  }

  function Header(riffSize: int, dataSize: int): (b: seq<Byte>)
    ensures |b| == WAV_HEADER_SIZE
  {
    RIFF + PutLE32(riffSize) + WAVE + FMT + PutLE32(16) + FormatBody() + DATA + PutLE32(dataSize)
  }

  // ----- Writing -----

  /** Buffer.write of an ASCII text */
  method WriteText(buffer: array<Byte>, text: seq<Byte>, at: int)
    requires 0 <= at && at + |text| <= buffer.Length
    modifies buffer
    ensures buffer[..at + |text|] == old(buffer[..at]) + text
  {
    for i := 0 to |text|
      invariant buffer[..at + i] == old(buffer[..at]) + text[..i]
    {
      buffer[at + i] := text[i];
      assert buffer[..at + (i + 1)] == buffer[..at + i] + [text[i]];
    }
  }

  method WriteUInt16LE(buffer: array<Byte>, v: int, at: int)
    requires 0 <= at && at + 2 <= buffer.Length
    modifies buffer
    ensures buffer[..at + 2] == old(buffer[..at]) + PutLE16(v)
  {
    buffer[at] := v % 256;
    buffer[at + 1] := v / 0x100 % 256;
  }

  method WriteUInt32LE(buffer: array<Byte>, v: int, at: int)
    requires 0 <= at && at + 4 <= buffer.Length
    modifies buffer
    ensures buffer[..at + 4] == old(buffer[..at]) + PutLE32(v)
  {
    WriteUInt16LE(buffer, v % 0x1_0000, at);
    WriteUInt16LE(buffer, v / 0x1_0000, at + 2);
  }

  method SizeField(size: int) returns (b: seq<Byte>)
    ensures b == PutLE32(size)
  {
    var field := new Byte[4];
    WriteUInt32LE(field, size, 0);
    return field[..];
  }

  /** The header the session starts with: both sizes are still zero. */
  method BuildWavHeader() returns (header: array<Byte>)
    ensures fresh(header) && header[..] == Header(0, 0)
  {
    hide PutLE16, PutLE32;
    header := new Byte[WAV_HEADER_SIZE];
    var byteRate := SAMPLE_RATE * CHANNELS * BYTES_PER_SAMPLE;
    var blockAlign := CHANNELS * BYTES_PER_SAMPLE;

    WriteText(header, RIFF, 0);
    WriteUInt32LE(header, 0, 4);
    WriteText(header, WAVE, 8);
    WriteText(header, FMT, 12);
    WriteUInt32LE(header, 16, 16);
    assert header[..20] == RIFF + PutLE32(0) + WAVE + FMT + PutLE32(16);
    WriteUInt16LE(header, 1, 20);
    WriteUInt16LE(header, CHANNELS, 22);
    WriteUInt32LE(header, SAMPLE_RATE, 24);
    WriteUInt32LE(header, byteRate, 28);
    WriteUInt16LE(header, blockAlign, 32);
    WriteUInt16LE(header, BITS_PER_SAMPLE, 34);
    assert header[..36] == RIFF + PutLE32(0) + WAVE + FMT + PutLE32(16) + FormatBody();
    WriteText(header, DATA, 36);
    WriteUInt32LE(header, 0, 40);
    assert header[..] == header[..44];
  }

  /** A positioned write over bytes that are already there. */
  function Overwrite(file: seq<Byte>, at: int, data: seq<Byte>): (r: seq<Byte>)
    requires 0 <= at && at + |data| <= |file|
    ensures |r| == |file|
  {
    file[..at] + data + file[at + |data|..]
  }

  lemma PatchRiffSize(pcm: seq<Byte>, v: int)
    ensures Overwrite(Header(0, 0) + pcm, 4, PutLE32(v)) == Header(v, 0) + pcm
  {
    hide PutLE32, FormatBody;
    var tail := WAVE + FMT + PutLE32(16) + FormatBody() + DATA + PutLE32(0) + pcm;
    assert Header(0, 0) + pcm == RIFF + PutLE32(0) + tail;
    assert Header(v, 0) + pcm == RIFF + PutLE32(v) + tail;
    OverwriteMiddle(RIFF, PutLE32(0), PutLE32(v), tail);
  }

  lemma PatchDataSize(riffSize: int, pcm: seq<Byte>, v: int)
    ensures Overwrite(Header(riffSize, 0) + pcm, 40, PutLE32(v)) == Header(riffSize, v) + pcm
  {
    hide PutLE32, FormatBody;
    var head := RIFF + PutLE32(riffSize) + WAVE + FMT + PutLE32(16) + FormatBody() + DATA;
    OverwriteMiddle(head, PutLE32(0), PutLE32(v), pcm);
  }

  lemma OverwriteMiddle(head: seq<Byte>, was: seq<Byte>, now: seq<Byte>, tail: seq<Byte>)
    requires |was| == |now|
    ensures Overwrite(head + was + tail, |head|, now) == head + now + tail
  {
  }

  // ----- Reading, by the rules of RIFF -----

  datatype Chunk = Chunk(id: seq<Byte>, body: seq<Byte>)

  /** A chunk is an id, a size and that many bytes, padded to an even length. */
  function Chunks(b: seq<Byte>): Option<seq<Chunk>> {
    if b == [] then Some([])
    else if |b| < 8 then None
    else
      var size := GetLE32(b, 4);
      var padded := size + size % 2;
      if size < 0 || 8 + padded > |b| then None
      else
        match Chunks(b[8 + padded..])
        case None => None
        case Some(rest) => Some([Chunk(b[..4], b[8..8 + size])] + rest)
  }

  datatype Format = Format(tag: int, channels: int, sampleRate: int, byteRate: int, blockAlign: int, bitsPerSample: int)

  datatype Wave = Wave(format: Format, samples: seq<Byte>)

  function GetFormat(b: seq<Byte>): Format
    requires |b| >= 16
  {
    Format(GetLE16(b, 0), GetLE16(b, 2), GetLE32(b, 4), GetLE32(b, 8), GetLE16(b, 12), GetLE16(b, 14))
  }

  /** A RIFF form of type WAVE that covers the whole file and holds a format
      chunk followed by a data chunk. */
  function ReadWave(file: seq<Byte>): Option<Wave> {
    if |file| < 12 || file[..4] != RIFF || file[8..12] != WAVE || GetLE32(file, 4) != |file| - 8 then None
    else
      match Chunks(file[12..])
      case None => None
      case Some(cs) =>
        if |cs| == 2 && cs[0].id == FMT && |cs[0].body| == 16 && cs[1].id == DATA
        then Some(Wave(GetFormat(cs[0].body), cs[1].body))
        else None
  }

  const PCM_MONO_16K := Format(1, 1, 16000, 32000, 2, 16)

  lemma FormatRead()
    ensures GetFormat(FormatBody()) == PCM_MONO_16K
  {
    var b := FormatBody();
    hide PutLE32, PutLE16, GetLE16, GetLE32;
    assert b[0..2] == PutLE16(1) && b[2..4] == PutLE16(1) && b[4..8] == PutLE32(16000) && b[8..12] == PutLE32(32000);
    assert b[12..14] == PutLE16(2) && b[14..16] == PutLE16(16);
    Field16(b, 0, 1);
    Field16(b, 2, 1);
    Field32(b, 4, 16000);
    Field32(b, 8, 32000);
    Field16(b, 12, 2);
    Field16(b, 14, 16);
  }

  lemma Field16(b: seq<Byte>, at: int, v: int)
    requires 0 <= at && at + 2 <= |b| && b[at..at + 2] == PutLE16(v) && IsU16(v)
    ensures GetLE16(b, at) == v
  {
    SliceGet16(b, at);
    Get16Put16(v);
  }

  lemma Field32(b: seq<Byte>, at: int, v: int)
    requires 0 <= at && at + 4 <= |b| && b[at..at + 4] == PutLE32(v) && IsU32(v)
    ensures GetLE32(b, at) == v
  {
    SliceGet32(b, at);
    GetLE32PutLE32(v);
  }

  /** A well-formed chunk in front of other chunks. */
  lemma ChunkInFront(id: seq<Byte>, body: seq<Byte>, rest: seq<Byte>)
    requires |id| == 4 && IsU32(|body|) && |body| % 2 == 0
    ensures var b := id + PutLE32(|body|) + body + rest;
            Chunks(b) == if Chunks(rest).None? then None else Some([Chunk(id, body)] + Chunks(rest).value)
  {
    var b := id + PutLE32(|body|) + body + rest;
    hide PutLE32, GetLE32;
    assert b[4..8] == PutLE32(|body|);
    Field32(b, 4, |body|);
    assert b[..4] == id && b[8..8 + |body|] == body && b[8 + |body|..] == rest;
  }

  /** A data chunk of odd length at the end of a file lacks its padding byte. */
  lemma OddChunkAtEnd(b: seq<Byte>)
    requires |b| >= 8 && GetLE32(b, 4) == |b| - 8 && |b| % 2 == 1
    ensures Chunks(b) == None
  {
    hide GetLE32;
  }

  lemma HeaderParts(riffSize: int, dataSize: int, pcm: seq<Byte>)
    requires IsU32(riffSize)
    ensures var file := Header(riffSize, dataSize) + pcm;
            && |file| == 44 + |pcm| && file[..4] == RIFF && file[8..12] == WAVE && GetLE32(file, 4) == riffSize
            && file[12..] == FMT + PutLE32(|FormatBody()|) + FormatBody() + (DATA + PutLE32(dataSize) + pcm)
  {
    hide PutLE32, GetLE32, FormatBody;
    var file := Header(riffSize, dataSize) + pcm;
    assert file[4..8] == PutLE32(riffSize);
    Field32(file, 4, riffSize);
  }

  /** With both sizes patched the file reads back as mono 16 kHz 16-bit PCM that
      holds exactly `pcm`, as long as that is a whole number of samples. */
  lemma PatchedFileReads(pcm: seq<Byte>)
    requires IsU32(|pcm| + 36)
    ensures ReadWave(Header(|pcm| + 36, |pcm|) + pcm)
         == if |pcm| % 2 == 0 then Some(Wave(PCM_MONO_16K, pcm)) else None
  {
    hide PutLE32, GetLE32, FormatBody, GetFormat, Header, Chunks;
    HeaderParts(|pcm| + 36, |pcm|, pcm);
    FormatRead();
    ChunkInFront(FMT, FormatBody(), DATA + PutLE32(|pcm|) + pcm);
    if |pcm| % 2 == 0 {
      ChunkInFront(DATA, pcm, []);
      assert DATA + PutLE32(|pcm|) + pcm + [] == DATA + PutLE32(|pcm|) + pcm;
      assert Chunks([]) == Some([]) by { NoChunks(); }
    } else {
      var data := DATA + PutLE32(|pcm|) + pcm;
      assert data[4..8] == PutLE32(|pcm|);
      Field32(data, 4, |pcm|);
      OddChunkAtEnd(data);
    }
  }

  lemma NoChunks()
    ensures Chunks([]) == Some([])
  {
  }

  lemma SomeChunk(b: seq<Byte>)
    requires b != [] && Chunks(b).Some?
    ensures Chunks(b).value != []
  {
  }

  /** A file whose sizes are still zero is no RIFF file, and one with only its
      RIFF size patched is one only if nothing was recorded. */
  lemma UnpatchedFileIsRejected(pcm: seq<Byte>)
    ensures ReadWave(Header(0, 0) + pcm) == None
    ensures IsU32(|pcm| + 36) && pcm != [] ==> ReadWave(Header(|pcm| + 36, 0) + pcm) == None
  {
    hide PutLE32, GetLE32, FormatBody, GetFormat, Header, Chunks;
    HeaderParts(0, 0, pcm);
    if IsU32(|pcm| + 36) && pcm != [] {
      HeaderParts(|pcm| + 36, 0, pcm);
      ChunkInFront(FMT, FormatBody(), DATA + PutLE32(0) + pcm);
      ChunkInFront(DATA, [], pcm);
      assert DATA + PutLE32(0) + [] + pcm == DATA + PutLE32(0) + pcm;
      if Chunks(pcm).Some? {
        SomeChunk(pcm);
      }
    }
  }
}
