/** Bytes, and the fixed-width integers that Buffer reads and writes. */
module Bytes {

  type Byte = b: int | 0 <= b < 256

  predicate IsU16(v: int) {
    0 <= v < 0x1_0000
  }

  predicate IsU32(v: int) {
    0 <= v < 0x1_0000_0000
  }

  function Word(high: int, low: int): int {
    high * 0x100 + low
  }

  function Double(high: int, low: int): int {
    high * 0x1_0000 + low
  }

  /** writeUInt16BE, writeUInt32BE */
  function Put16(v: int): (b: seq<Byte>)
    ensures |b| == 2
  {
    [v / 0x100 % 256, v % 256]
  }

  function Put32(v: int): (b: seq<Byte>)
    ensures |b| == 4
  {
    Put16(v / 0x1_0000) + Put16(v % 0x1_0000)
  }

  /** readUInt16BE, readUInt32BE */
  function Get16(b: seq<Byte>, at: int): int
    requires 0 <= at && at + 2 <= |b|
  {
    Word(b[at], b[at + 1])
  }

  function Get32(b: seq<Byte>, at: int): int
    requires 0 <= at && at + 4 <= |b|
  {
    Double(Get16(b, at), Get16(b, at + 2))
  }

  /** writeUInt32LE, writeUInt16LE */
  function PutLE16(v: int): (b: seq<Byte>)
    ensures |b| == 2
  {
    [v % 256, v / 0x100 % 256]
  }

  function PutLE32(v: int): (b: seq<Byte>)
    ensures |b| == 4
  {
    PutLE16(v % 0x1_0000) + PutLE16(v / 0x1_0000)
  }

  function GetLE16(b: seq<Byte>, at: int): int
    requires 0 <= at && at + 2 <= |b|
  {
    Word(b[at + 1], b[at])
  }

  function GetLE32(b: seq<Byte>, at: int): int
    requires 0 <= at && at + 4 <= |b|
  {
    Double(GetLE16(b, at + 2), GetLE16(b, at))
  }

  // ----- Reading back what was written, and writing back what was read -----

  lemma Get16Put16(v: int)
    requires IsU16(v)
    ensures Get16(Put16(v), 0) == v && GetLE16(PutLE16(v), 0) == v
  {
  }

  lemma Get32Put32(v: int)
    requires IsU32(v)
    ensures Get32(Put32(v), 0) == v
  {
    hide Put16, Word;
    Get16Put16(v / 0x1_0000);
    Get16Put16(v % 0x1_0000);
    SliceGet16(Put32(v), 0);
    SliceGet16(Put32(v), 2);
    assert Put32(v)[..2] == Put16(v / 0x1_0000) && Put32(v)[2..] == Put16(v % 0x1_0000);
  }

  lemma GetLE32PutLE32(v: int)
    requires IsU32(v)
    ensures GetLE32(PutLE32(v), 0) == v
  {
    hide PutLE16, Word;
    Get16Put16(v / 0x1_0000);
    Get16Put16(v % 0x1_0000);
    SliceGet16(PutLE32(v), 0);
    SliceGet16(PutLE32(v), 2);
    assert PutLE32(v)[..2] == PutLE16(v % 0x1_0000) && PutLE32(v)[2..] == PutLE16(v / 0x1_0000);
  }

  lemma SliceGet16(b: seq<Byte>, at: int)
    requires 0 <= at && at + 2 <= |b|
    ensures Get16(b, at) == Get16(b[at..at + 2], 0) && GetLE16(b, at) == GetLE16(b[at..at + 2], 0)
    ensures IsU16(Get16(b, at)) && IsU16(GetLE16(b, at))
  {
  }

  lemma SliceGet32(b: seq<Byte>, at: int)
    requires 0 <= at && at + 4 <= |b|
    ensures Get32(b, at) == Get32(b[at..at + 4], 0) && GetLE32(b, at) == GetLE32(b[at..at + 4], 0)
    ensures IsU32(Get32(b, at))
  {
    SliceGet16(b, at);
    SliceGet16(b, at + 2);
  }

  lemma Put16Get16(b: seq<Byte>)
    requires |b| == 2
    ensures IsU16(Get16(b, 0)) && Put16(Get16(b, 0)) == b
  {
    var high: int, low: int := b[0], b[1];
    assert Get16(b, 0) == Word(high, low);
    WordParts(high, low);
    assert Put16(Get16(b, 0))[0] == high && Put16(Get16(b, 0))[1] == low;
  }

  lemma WordParts(high: int, low: int)
    requires 0 <= high < 256 && 0 <= low < 256
    ensures IsU16(Word(high, low)) && Word(high, low) / 0x100 % 256 == high && Word(high, low) % 256 == low
  {
    var w := Word(high, low);
    assert w / 0x100 == high;
  }

  lemma Put32Get32(b: seq<Byte>)
    requires |b| == 4
    ensures IsU32(Get32(b, 0)) && Put32(Get32(b, 0)) == b
  {
    hide Put16, Word;
    SliceGet16(b, 0);
    SliceGet16(b, 2);
    Put16Get16(b[..2]);
    Put16Get16(b[2..]);
    assert b == b[..2] + b[2..];
  }
}
