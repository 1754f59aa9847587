/** RTP packets as sections 5.1 and 5.3.1 of RFC 3550 lay them out, and the
    recorder's parser for them. */
module Rtp {
  import opened Wrappers
  import opened Bytes

  datatype Extension = Extension(profile: int, words: seq<int>)

  /** A version 2 packet. `payload` is everything behind the header. */
  datatype Packet = Packet(padding: bool, marker: bool, payloadType: int, sequence: int, timestamp: int, ssrc: int,
                           csrcs: seq<int>, extension: Option<Extension>, payload: seq<Byte>)

  ghost predicate Words(ws: seq<int>) {
    forall i | 0 <= i < |ws| :: IsU32(ws[i])
  }

  ghost predicate Valid(p: Packet) {
    && 0 <= p.payloadType < 128 && IsU16(p.sequence) && IsU32(p.timestamp) && IsU32(p.ssrc)
    && |p.csrcs| < 16 && Words(p.csrcs)
    && (p.extension.Some? ==> IsU16(p.extension.value.profile) && |p.extension.value.words| < 0x1_0000
                              && Words(p.extension.value.words))
  }

  function FirstByte(p: Packet): int {
    128 + (if p.padding then 32 else 0) + (if p.extension.Some? then 16 else 0) + |p.csrcs|
  }

  function PutWords(ws: seq<int>): (b: seq<Byte>)
    ensures |b| == 4 * |ws|
  {
    if ws == [] then [] else PutWords(ws[..|ws| - 1]) + Put32(ws[|ws| - 1])
  }

  function PutExtension(e: Option<Extension>): seq<Byte> {
    if e.None? then [] else Put16(e.value.profile) + Put16(|e.value.words|) + PutWords(e.value.words)
  }

  function FirstTwo(p: Packet): (b: seq<Byte>)
    ensures |b| == 2
  {
    [FirstByte(p) % 256, (if p.marker then 128 else 0) + p.payloadType % 128]
  }

  function FixedHeader(p: Packet): (b: seq<Byte>)
    ensures |b| == 12
  {
    FirstTwo(p) + Put16(p.sequence) + Put32(p.timestamp) + Put32(p.ssrc)
  }

  function Serialize(p: Packet): (b: seq<Byte>)
    ensures |b| >= 12
  {
    FixedHeader(p) + PutWords(p.csrcs) + PutExtension(p.extension) + p.payload
  }

  // ----- The recorder's parser -----

  const RTP_HEADER_MIN_SIZE := 12

  datatype Media = Media(timestamp: int, payload: seq<Byte>)

  /** Where the payload starts, if the header with its extension fits. */
  function PayloadOffset(msg: seq<Byte>): Option<int>
    requires |msg| >= RTP_HEADER_MIN_SIZE
  {
    var csrcCount := msg[0] % 16;
    var hasExtension := msg[0] / 16 % 2 == 1;
    var offset := RTP_HEADER_MIN_SIZE + csrcCount * 4;
    if !hasExtension then Some(offset)
    else if |msg| < offset + 4 then None
    else Some(offset + 4 + Get16(msg, offset + 2) * 4)
  }

  /** What handleRtpPacket makes of a datagram: nothing, or a timestamp and the
      bytes it hands to the decoder. */
  function Parse(msg: seq<Byte>): Option<Media> {
    if |msg| < RTP_HEADER_MIN_SIZE || msg[0] / 64 % 4 != 2 then None
    else
      match PayloadOffset(msg)
      case None => None
      case Some(offset) => if offset >= |msg| then None else Some(Media(Get32(msg, 4), msg[offset..]))
  }

  /** The first half of handleRtpPacket, with its early returns. */
  method ReadPacket(msg: seq<Byte>) returns (packet: Option<Media>)
    ensures packet == Parse(msg)
  {
    hide Get16, Get32;
    if |msg| < RTP_HEADER_MIN_SIZE {
      return None;
    }
    var firstByte: int := msg[0];
    var version := firstByte / 64 % 4;
    if version != 2 {
      return None;
    }
    var csrcCount := firstByte % 16;
    var hasExtension := firstByte / 16 % 2 == 1;
    var payloadOffset := RTP_HEADER_MIN_SIZE + csrcCount * 4;
    if hasExtension {
      if |msg| < payloadOffset + 4 {
        return None;
      }
      SliceGet16(msg, payloadOffset + 2);
      var extensionLength := Get16(msg, payloadOffset + 2);
      payloadOffset := payloadOffset + (4 + extensionLength * 4);
    }
    if payloadOffset >= |msg| {
      return None;
    }
    var rtpTimestamp := Get32(msg, 4);
    var opusPayload := msg[payloadOffset..];
    return Some(Media(rtpTimestamp, opusPayload));
  }

  // ----- The parser inverts the format, on all datagrams -----

  lemma HeaderFields(p: Packet)
    requires Valid(p)
    ensures var h := FixedHeader(p); h[0] == FirstByte(p) && h[4..8] == Put32(p.timestamp)
  {
    hide Put16, Put32;
  }

  lemma FirstByteFields(p: Packet)
    requires Valid(p)
    ensures FirstByte(p) / 64 % 4 == 2 && FirstByte(p) % 16 == |p.csrcs|
    ensures FirstByte(p) / 16 % 2 == 1 <==> p.extension.Some?
    ensures 0 <= FirstByte(p) < 256
  {
  }

  lemma ExtensionLength(p: Packet, msg: seq<Byte>)
    requires Valid(p) && p.extension.Some?
    requires |msg| >= 12 + 4 * |p.csrcs| + 4
    requires msg[12 + 4 * |p.csrcs|..] == PutExtension(p.extension) + p.payload
    ensures Get16(msg, 12 + 4 * |p.csrcs| + 2) == |p.extension.value.words|
  {
    var offset, e, n := 12 + 4 * |p.csrcs|, PutExtension(p.extension), |p.extension.value.words|;
    hide Put16;
    Get16Put16(n);
    SliceGet16(msg, offset + 2);
    assert msg[offset + 2..offset + 4] == (msg[offset..])[2..4] == e[2..4] == Put16(n);
  }

  lemma ExtensionSize(e: Option<Extension>)
    ensures |PutExtension(e)| == if e.None? then 0 else 4 + 4 * |e.value.words|
  {
  }

  lemma SerializedShape(p: Packet)
    ensures var msg, h, at := Serialize(p), FixedHeader(p), 12 + 4 * |p.csrcs|;
            && |msg| == at + |PutExtension(p.extension)| + |p.payload|
            && msg[0] == h[0] && msg[4..8] == h[4..8]
            && msg[at..] == PutExtension(p.extension) + p.payload
            && msg[at + |PutExtension(p.extension)|..] == p.payload
  {
    hide FixedHeader, PutExtension, PutWords;
  }

  lemma SerializedOffset(p: Packet)
    requires Valid(p)
    ensures PayloadOffset(Serialize(p)) == Some(12 + 4 * |p.csrcs| + |PutExtension(p.extension)|)
  {
    hide Serialize, FixedHeader, PutExtension, FirstByte, Get16;
    SerializedShape(p);
    HeaderFields(p);
    FirstByteFields(p);
    ExtensionSize(p.extension);
    if p.extension.Some? {
      ExtensionLength(p, Serialize(p));
    }
  }

  /** What the recorder makes of `p` on the wire. */
  ghost predicate Received(p: Packet, m: Media) {
    Parse(Serialize(p)) == Some(m)
  }

  /** Every packet with a payload parses to its timestamp and payload: 0 to 15
      CSRCs, with or without an extension of any length. */
  lemma ParseSerialized(p: Packet)
    requires Valid(p) && p.payload != []
    ensures exists m :: Received(p, m) && m.timestamp == p.timestamp && m.payload == p.payload
  {
    hide Serialize, FixedHeader, PutExtension, FirstByte, Get32, Put32, PayloadOffset;
    var msg := Serialize(p);
    SerializedShape(p);
    HeaderFields(p);
    FirstByteFields(p);
    SerializedOffset(p);
    Get32Put32(p.timestamp);
    SliceGet32(msg, 4);
    assert Received(p, Media(p.timestamp, p.payload));
  }

  // ----- What the parser accepts is a packet -----

  ghost function GetWords(b: seq<Byte>, n: int): (ws: seq<int>)
    requires 0 <= n && |b| == 4 * n
    ensures |ws| == n
    decreases n
  {
    if n == 0 then [] else GetWords(b[..4 * (n - 1)], n - 1) + [Get32(b, 4 * (n - 1))]
  }

  lemma Put32At(b: seq<Byte>, at: int)
    requires 0 <= at && at + 4 <= |b|
    ensures Put32(Get32(b, at)) == b[at..at + 4] && IsU32(Get32(b, at))
  {
    hide Put32, Get32;
    SliceGet32(b, at);
    Put32Get32(b[at..at + 4]);
  }

  lemma OneMoreWord(ws: seq<int>, w: int)
    ensures PutWords(ws + [w]) == PutWords(ws) + Put32(w)
    ensures Words(ws) && IsU32(w) ==> Words(ws + [w])
  {
    hide Put32;
    assert (ws + [w])[..|ws|] == ws;
  }

  lemma NoWords(b: seq<Byte>)
    requires b == []
    ensures GetWords(b, 0) == [] && Words(GetWords(b, 0)) && PutWords([]) == []
  {
  }

  lemma LastWord(b: seq<Byte>, n: int)
    requires 0 < n && |b| == 4 * n
    ensures GetWords(b, n) == GetWords(b[..4 * (n - 1)], n - 1) + [Get32(b, 4 * (n - 1))]
  {
    hide Get32;
  }

  lemma {:induction false} PutGetWords(b: seq<Byte>, n: int)
    requires 0 <= n && |b| == 4 * n
    ensures Words(GetWords(b, n)) && PutWords(GetWords(b, n)) == b
    decreases n
  {
    hide Put32, Get32, IsU32, Words, PutWords, GetWords;
    if n == 0 {
      NoWords(b);
    } else {
      var at := 4 * (n - 1);
      LastWord(b, n);
      PutGetWords(b[..at], n - 1);
      Put32At(b, at);
      OneMoreWord(GetWords(b[..at], n - 1), Get32(b, at));
      assert b == b[..at] + b[at..at + 4];
    }
  }

  ghost function ReadExtension(b: seq<Byte>): (e: Extension)
    requires |b| >= 4 && |b| == 4 + 4 * Get16(b, 2)
  {
    Extension(Get16(b, 0), GetWords(b[4..], Get16(b, 2)))
  }

  lemma PutReadExtension(b: seq<Byte>)
    requires |b| >= 4 && |b| == 4 + 4 * Get16(b, 2)
    ensures PutExtension(Some(ReadExtension(b))) == b
    ensures var e := ReadExtension(b); IsU16(e.profile) && |e.words| < 0x1_0000 && Words(e.words)
  {
    hide Put16, Get16, PutWords, Words;
    SliceGet16(b, 0);
    SliceGet16(b, 2);
    Put16Get16(b[0..2]);
    Put16Get16(b[2..4]);
    PutGetWords(b[4..], Get16(b, 2));
    assert b == b[0..2] + b[2..4] + b[4..];
  }

  /** The fixed header's fields, given what the first byte announces. */
  ghost function ReadFixed(b: seq<Byte>): (p: Packet)
    requires |b| >= 12
  {
    var second: int := b[1];
    Packet(b[0] / 32 % 2 == 1, second >= 128, second % 128, Get16(b, 2), Get32(b, 4), Get32(b, 8), [], None, [])
  }

  lemma FirstByteRead(first: int, n: int)
    requires 0 <= first < 256 && first / 64 % 4 == 2 && n == first % 16
    ensures first == 128 + (if first / 32 % 2 == 1 then 32 else 0) + (if first / 16 % 2 == 1 then 16 else 0) + n
  {
    var high, mid := first / 64, first / 16;
    assert high == 2;
    assert mid == 8 || mid == 9 || mid == 10 || mid == 11;
    assert first / 32 == mid / 2;
  }

  /** `p` has the fixed fields that `b` announces. */
  ghost predicate HasFixedFields(p: Packet, b: seq<Byte>)
    requires |b| >= 12
  {
    && |p.csrcs| == b[0] % 16 && (p.extension.Some? <==> b[0] / 16 % 2 == 1)
    && p == ReadFixed(b).(csrcs := p.csrcs, extension := p.extension, payload := p.payload)
  }

  lemma FixedInRange(b: seq<Byte>, p: Packet)
    requires |b| >= 12 && HasFixedFields(p, b)
    ensures 0 <= p.payloadType < 128 && IsU16(p.sequence) && IsU32(p.timestamp) && IsU32(p.ssrc)
  {
    hide Get16, Get32;
    SliceGet16(b, 2);
    SliceGet32(b, 4);
    SliceGet32(b, 8);
  }

  lemma PutFirstTwo(b: seq<Byte>, p: Packet)
    requires |b| >= 12 && b[0] / 64 % 4 == 2 && HasFixedFields(p, b)
    ensures FirstTwo(p) == b[..2]
  {
    hide Get16, Get32;
    FirstByteRead(b[0], |p.csrcs|);
  }

  lemma PutSequence(b: seq<Byte>)
    requires |b| >= 12
    ensures Put16(Get16(b, 2)) == b[2..4]
  {
    hide Put16, Get16;
    SliceGet16(b, 2);
    Put16Get16(b[2..4]);
  }

  lemma PutFixed(b: seq<Byte>, p: Packet)
    requires |b| >= 12 && FirstTwo(p) == b[..2] && Put16(p.sequence) == b[2..4]
    requires Put32(p.timestamp) == b[4..8] && Put32(p.ssrc) == b[8..12]
    ensures FixedHeader(p) == b[..12]
  {
    hide Put16, Put32, FirstTwo;
    assert b[..12] == b[..2] + b[2..4] + b[4..8] + b[8..12];
  }

  /** The packet an accepted datagram is. */
  ghost function Read(b: seq<Byte>): (p: Packet)
    requires Parse(b).Some?
  {
    var n, offset := b[0] % 16, PayloadOffset(b).value;
    var at := 12 + 4 * n;
    ReadFixed(b).(csrcs := GetWords(b[12..at], n),
                  extension := if at == offset then None else Some(ReadExtension(b[at..offset])),
                  payload := b[offset..])
  }

  lemma ReadParts(b: seq<Byte>)
    requires Parse(b).Some?
    ensures var at, offset := 12 + 4 * (b[0] % 16), PayloadOffset(b).value;
            && b[0] / 64 % 4 == 2 && 12 <= at <= offset < |b|
            && (at == offset <==> b[0] / 16 % 2 != 1)
            && (at < offset ==> at + 4 <= offset && Get16(b[at..offset], 2) * 4 == offset - at - 4)
  {
    hide Get16;
    var at, offset := 12 + 4 * (b[0] % 16), PayloadOffset(b).value;
    if at < offset {
      SliceGet16(b, at + 2);
      SliceGet16(b[at..offset], 2);
      assert b[at + 2..at + 4] == b[at..offset][2..4];
    } else if b[0] / 16 % 2 == 1 {
      SliceGet16(b, at + 2);
    }
  }

  lemma Assemble(b: seq<Byte>, p: Packet, at: int, offset: int)
    requires 12 <= at <= offset <= |b|
    requires FixedHeader(p) == b[..12] && PutWords(p.csrcs) == b[12..at] && PutExtension(p.extension) == b[at..offset]
    requires p.payload == b[offset..]
    ensures Serialize(p) == b
  {
    hide FixedHeader, PutWords, PutExtension;
    assert b == b[..12] + b[12..at] + b[at..offset] + b[offset..];
  }

  ghost predicate Carries(msg: seq<Byte>, m: Media, p: Packet) {
    Valid(p) && Serialize(p) == msg && p.timestamp == m.timestamp && p.payload == m.payload != []
  }

  /** Every accepted datagram is the serialisation of a valid packet, with the
      timestamp and the payload the parser returns. */
  lemma SerializeRead(b: seq<Byte>)
    requires Parse(b).Some?
    ensures exists p :: Carries(b, Parse(b).value, p)
  {
    hide PayloadOffset, FixedHeader, FirstTwo, PutWords, GetWords, Get16, Get32, Put16, Put32, ReadExtension, Serialize,
         HasFixedFields, Words;
    var p, n, at, offset := Read(b), b[0] % 16, 12 + 4 * (b[0] % 16), PayloadOffset(b).value;
    ReadParts(b);
    assert HasFixedFields(p, b) by { ReadHasFixedFields(b); }
    assert FixedHeader(p) == b[..12] by {
      PutFirstTwo(b, p);
      PutSequence(b);
      Put32At(b, 4);
      Put32At(b, 8);
      PutFixed(b, p);
    }
    PutGetWords(b[12..at], n);
    if at < offset {
      PutReadExtension(b[at..offset]);
    }
    Assemble(b, p, at, offset);
    FixedInRange(b, p);
    assert Valid(p);
    assert Carries(b, Parse(b).value, p);
  }

  lemma ReadHasFixedFields(b: seq<Byte>)
    requires Parse(b).Some?
    ensures HasFixedFields(Read(b), b)
  {
    hide PayloadOffset, GetWords, Get16, Get32, ReadExtension;
    ReadParts(b);
  }

  /** The parser accepts exactly the datagrams that are a version 2 packet with
      something behind the header, and returns exactly that packet's timestamp
      and everything behind its header. */
  lemma ParserInvertsFormat(msg: seq<Byte>, m: Media)
    ensures Parse(msg) == Some(m) <==> exists p :: Carries(msg, m, p)
  {
    hide Parse, Serialize, Valid;
    if Parse(msg) == Some(m) {
      SerializeRead(msg);
    }
    forall p | Carries(msg, m, p) ensures Parse(msg) == Some(m) {
      ParseSerialized(p);
    }
  }

  // ----- Padding -----

  /** Section 5.1 of RFC 3550: with the padding bit set, the last octet of the
      packet counts the padding octets, itself included. */
  ghost predicate PaddingCounts(p: Packet) {
    p.padding ==> p.payload != [] && 0 < p.payload[|p.payload| - 1] <= |p.payload|
  }

  ghost function WithoutPadding(p: Packet): seq<Byte>
    requires PaddingCounts(p)
  {
    if p.padding then p.payload[..|p.payload| - p.payload[|p.payload| - 1]] else p.payload
  }

  /** The recorder does not look at the padding bit: it accepts the packet, and what
      it decodes is what the RFC calls the payload exactly when the sender did not
      pad. */
  lemma PaddingIsDecoded(p: Packet)
    requires Valid(p) && PaddingCounts(p) && p.payload != []
    ensures exists m :: Received(p, m) && (m.payload == WithoutPadding(p) <==> !p.padding)
  {
    hide Parse, Serialize, Valid;
    ParseSerialized(p);
    if p.padding {
      assert |WithoutPadding(p)| < |p.payload|;
    }
  }
}
