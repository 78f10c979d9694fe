/** The FLV wire format written by the session (Adobe Flash Video File Format
    Specification version 10.1, Annex E): the tag framer `createFlvMessage`
    (Annex E.4.1 tag header, with the PreviousTagSize trailer of Annex E.3),
    the 13-byte file header of Annex E.2 with PreviousTagSize0, and decoders
    for both that the framers are proved against. */
module Flv {

  import opened Wrappers
  import opened Bytes

  /** The JavaScript exceptions the framer can raise. */
  datatype Error =
    | RangeError  // Buffer.writeUIntBE with a value that does not fit 3 bytes
    | TypeError   // `.length` of a null body

  datatype Result<T> = Ok(value: T) | Err(error: Error)

  /** The RTMP message header handed to the framer. Only the type id and the
      timestamp reach the output. */
  datatype RtmpHeader = RtmpHeader(chunkStreamId: int, timestamp: int, messageTypeId: int, messageStreamId: int)

  const TagHeaderSize: nat := 11
  const TrailerSize: nat := 4
  /** DataSize is a UI24: the largest body the framer accepts is 2^24 - 1 bytes. */
  const MaxDataSize: nat := 0x100_0000

  /** The 32-bit pattern of a timestamp. JavaScript's `>>` converts its left
      operand with ToInt32 first, and `& 0xFF` keeps 8 bits of that pattern, so
      every byte the source extracts is a byte of this value. */
  function Uint32(x: int): (r: nat)
    ensures r < 0x1_0000_0000
  {
    x % 0x1_0000_0000
  }

  /** createFlvMessage: an 11-byte tag header, the body, and the 4-byte
      PreviousTagSize trailer. `writeUIntBE(length, 1, 3)` throws for a body
      of 2^24 bytes or more. */
  function CreateFlvMessage(h: RtmpHeader, body: seq<byte>): (r: Result<seq<byte>>)
    ensures r.Ok? <==> |body| < MaxDataSize
    ensures r.Err? ==> r.error == RangeError
    ensures r.Ok? ==>
      var tag, n, ts := r.value, |body|, Uint32(h.timestamp);
      && |tag| == TagHeaderSize + n + TrailerSize
      && tag[0] as int == h.messageTypeId % 256
      && FromBigEndian(tag[1..4]) == n
      && tag[4] as int == ts / 0x1_0000 % 256
      && tag[5] as int == ts / 0x100 % 256
      && tag[6] as int == ts % 256
      && tag[7] as int == ts / 0x100_0000 % 256
      && tag[8..11] == [0, 0, 0]
      && tag[11..11 + n] == body
      && FromBigEndian(tag[11 + n..]) == TagHeaderSize + n
  {
    if |body| >= MaxDataSize then Err(RangeError)
    else
      var tag := TagBytes(h.messageTypeId, h.timestamp, body);
      var ts := BigEndian(Uint32(h.timestamp), 4);
      TagBytesLayout(h.messageTypeId, h.timestamp, body);
      assert tag[4] == ts[1] && tag[5] == ts[2] && tag[6] == ts[3] && tag[7] == ts[0];
      TimestampBytes(h.timestamp);
      DecodeEncode(|body|, 3);
      DecodeEncode(TagHeaderSize + |body|, 4);
      Ok(tag)
  }

  /** The four bytes of a timestamp's 32-bit pattern, high byte first. */
  lemma TimestampBytes(timestamp: int)
    ensures var ts, u := BigEndian(Uint32(timestamp), 4), Uint32(timestamp);
      && ts[0] as int == u / 0x100_0000 % 256
      && ts[1] as int == u / 0x1_0000 % 256
      && ts[2] as int == u / 0x100 % 256
      && ts[3] as int == u % 256
  {
    var u := Uint32(timestamp);
    BigEndianByte(u, 4, 0);
    BigEndianByte(u, 4, 1);
    BigEndianByte(u, 4, 2);
    BigEndianByte(u, 4, 3);
    assert Pow256(3) == 0x100_0000 && Pow256(2) == 0x1_0000 && Pow256(1) == 0x100 && Pow256(0) == 1;
  }

  /** The bytes of a tag whose body fits: the type byte, DataSize as 3 bytes,
      the low three timestamp bytes, the high one, StreamID 0, the body, and
      PreviousTagSize. */
  function TagBytes(typeId: int, timestamp: int, body: seq<byte>): (tag: seq<byte>)
    ensures |tag| == TagHeaderSize + |body| + TrailerSize
  {
    var ts := BigEndian(Uint32(timestamp), 4);
    [(typeId % 256) as byte] + BigEndian(|body|, 3) + ts[1..4] + [ts[0]] + [0, 0, 0]
      + body + BigEndian(TagHeaderSize + |body|, 4)
  }

  /** Where each field of `TagBytes` lies. */
  lemma TagBytesLayout(typeId: int, timestamp: int, body: seq<byte>)
    ensures var tag, n, ts := TagBytes(typeId, timestamp, body), |body|, BigEndian(Uint32(timestamp), 4);
      && |tag| == TagHeaderSize + n + TrailerSize
      && tag[0] == (typeId % 256) as byte
      && tag[1..4] == BigEndian(n, 3)
      && tag[4..8] == ts[1..4] + [ts[0]]
      && tag[8..11] == [0, 0, 0]
      && tag[11..11 + n] == body
      && tag[11 + n..] == BigEndian(TagHeaderSize + n, 4)
  {
    var n, ts := |body|, BigEndian(Uint32(timestamp), 4);
    var header := [(typeId % 256) as byte] + BigEndian(n, 3) + ts[1..4] + [ts[0]] + [0, 0, 0];
    var trailer := BigEndian(TagHeaderSize + n, 4);
    var tag := header + body + trailer;
    assert TagBytes(typeId, timestamp, body) == tag;
    assert |header| == 11;
    assert tag[..11] == header;
    assert header[1..4] == BigEndian(n, 3);
    assert header[4..8] == ts[1..4] + [ts[0]];
    assert tag[11..11 + n] == body;
    assert tag[11 + n..] == trailer;
  }

  /** What a reader of an FLV tag recovers from it. */
  datatype FlvTag = FlvTag(tagType: byte, timestamp: nat, body: seq<byte>)

  /** Reads one FLV tag with its PreviousTagSize trailer: DataSize says how
      long the body is, TimestampExtended is the high byte of the timestamp,
      StreamID must be 0 and the trailer must equal 11 + DataSize. */
  function ParseTag(s: seq<byte>): (r: Option<FlvTag>)
    ensures r.Some? ==> |s| == TagHeaderSize + |r.value.body| + TrailerSize
  {
    if |s| < TagHeaderSize + TrailerSize then None
    else
      var n := FromBigEndian(s[1..4]);
      if |s| != TagHeaderSize + n + TrailerSize || s[8..11] != [0, 0, 0]
         || FromBigEndian(s[TagHeaderSize + n..]) != TagHeaderSize + n
      then None
      else Some(FlvTag(s[0], FromBigEndian([s[7]] + s[4..7]), s[11..11 + n]))
  }

  /** Decoding a framed tag recovers the type byte, the body verbatim and the
      timestamp modulo 2^32. */
  lemma TagRoundTrip(h: RtmpHeader, body: seq<byte>)
    requires |body| < MaxDataSize
    ensures ParseTag(CreateFlvMessage(h, body).value)
         == Some(FlvTag((h.messageTypeId % 256) as byte, Uint32(h.timestamp), body))
  {
    var tag := CreateFlvMessage(h, body).value;
    var ts := BigEndian(Uint32(h.timestamp), 4);
    assert [tag[7]] + tag[4..7] == ts;
    DecodeEncode(Uint32(h.timestamp), 4);
  }

  /** Every tag a reader accepts is exactly what the framer produces from the
      decoded fields, whatever the chunk and message stream ids. */
  lemma ParsedTagIsFramed(s: seq<byte>, chunkStreamId: int, messageStreamId: int)
    requires ParseTag(s).Some?
    ensures var t := ParseTag(s).value;
      CreateFlvMessage(RtmpHeader(chunkStreamId, t.timestamp, t.tagType as int, messageStreamId), t.body) == Ok(s)
  {
    var t := ParseTag(s).value;
    var n := |t.body|;
    assert n == FromBigEndian(s[1..4]);
    assert Pow256(3) == MaxDataSize;
    ParsedTagBytes(s);
    assert CreateFlvMessage(RtmpHeader(chunkStreamId, t.timestamp, t.tagType as int, messageStreamId), t.body)
        == Ok(TagBytes(t.tagType as int, t.timestamp, t.body));
  }

  /** The bytes of an accepted tag are those built from its decoded fields. */
  lemma ParsedTagBytes(s: seq<byte>)
    requires ParseTag(s).Some?
    ensures var t := ParseTag(s).value; TagBytes(t.tagType as int, t.timestamp, t.body) == s
  {
    var t := ParseTag(s).value;
    var n := |t.body|;
    assert n == FromBigEndian(s[1..4]);
    EncodeDecode(s[1..4]);
    EncodeDecode(s[11 + n..]);
    EncodeDecode([s[7]] + s[4..7]);
    assert Pow256(4) == 0x1_0000_0000;
    assert Uint32(t.timestamp) == t.timestamp;
    var ts := BigEndian(t.timestamp, 4);
    assert ts == [s[7]] + s[4..7];
    TagBytesLayout(t.tagType as int, t.timestamp, t.body);
    var tag := TagBytes(t.tagType as int, t.timestamp, t.body);
    assert ts[1..4] == s[4..7] && ts[0] == s[7];
    assert s[4..8] == s[4..7] + [s[7]];
    assert tag[4..8] == s[4..8];
    EqualBySlices(tag, s, n);
  }

  /** Two tags of the same length agree when each of their fields does. */
  lemma EqualBySlices(a: seq<byte>, b: seq<byte>, n: nat)
    requires |a| == |b| == TagHeaderSize + n + TrailerSize
    requires a[0] == b[0] && a[1..4] == b[1..4] && a[4..8] == b[4..8] && a[8..11] == b[8..11]
    requires a[11..11 + n] == b[11..11 + n] && a[11 + n..] == b[11 + n..]
    ensures a == b
  {
    forall i | 0 <= i < |a|
      ensures a[i] == b[i]
    {
      if i == 0 {
      } else if i < 4 {
        assert a[i] == a[1..4][i - 1] && b[i] == b[1..4][i - 1];
      } else if i < 8 {
        assert a[i] == a[4..8][i - 4] && b[i] == b[4..8][i - 4];
      } else if i < 11 {
        assert a[i] == a[8..11][i - 8] && b[i] == b[8..11][i - 8];
      } else if i < 11 + n {
        assert a[i] == a[11..11 + n][i - 11] && b[i] == b[11..11 + n][i - 11];
      } else {
        assert a[i] == a[11 + n..][i - 11 - n] && b[i] == b[11 + n..][i - 11 - n];
      }
    }
  }

  /** The chunk stream id and the message stream id never reach the output. */
  lemma FramingIgnoresStreamIds(h: RtmpHeader, h': RtmpHeader, body: seq<byte>)
    requires h.messageTypeId == h'.messageTypeId && h.timestamp == h'.timestamp
    ensures CreateFlvMessage(h, body) == CreateFlvMessage(h', body)
  {
  }

  /** The FLV header of version 1 followed by PreviousTagSize0 = 0:
      "FLV", version 1, the type flags, DataOffset 9, then four zero bytes. */
  function FlvHeader(hasAudio: bool, hasVideo: bool): (h: seq<byte>)
    ensures |h| == 13
    ensures h[..4] == [0x46, 0x4C, 0x56, 0x01]
    ensures h[4] as int == (if hasAudio then 4 else 0) + (if hasVideo then 1 else 0)
    ensures FromBigEndian(h[5..9]) == 9 && FromBigEndian(h[9..]) == 0
  {
    var blank: seq<byte> := [0x46, 0x4C, 0x56, 0x01, 0x00, 0x00, 0x00, 0x00, 0x09, 0x00, 0x00, 0x00, 0x00];
    var withAudio := if hasAudio then BitOr(blank[4], 0x04) else blank[4];
    var flags := if hasVideo then BitOr(withAudio, 0x01) else withAudio;
    var h := blank[4 := flags];
    FlagBits(hasAudio, hasVideo);
    HeaderWords();
    assert h[..4] == blank[..4];
    assert h[5..9] == [0, 0, 0, 9];
    assert h[9..] == [0, 0, 0, 0];
    h
  }

  /** OR-ing 4 and then 1 into a zero byte, each when its flag is set. */
  lemma FlagBits(hasAudio: bool, hasVideo: bool)
    ensures var withAudio := if hasAudio then BitOr(0, 0x04) else 0;
      (if hasVideo then BitOr(withAudio, 0x01) else withAudio) as int
        == (if hasAudio then 4 else 0) + (if hasVideo then 1 else 0)
  {
    assert BitOr(0, 0x04) == 4 && BitOr(0, 0x01) == 1 && BitOr(4, 0x01) == 5;
  }

  /** DataOffset 9 and PreviousTagSize0 0, as 4-byte big-endian words. */
  lemma HeaderWords()
    ensures FromBigEndian([0, 0, 0, 9]) == 9 && FromBigEndian([0, 0, 0, 0]) == 0
  {
    assert BigEndian(9, 4) == [0, 0, 0, 9];
    assert BigEndian(0, 4) == [0, 0, 0, 0];
    DecodeEncode(9, 4);
    DecodeEncode(0, 4);
  }

  /** `a | b` on bytes. */
  function BitOr(a: byte, b: byte): (r: byte)
  {
    ((a as bv8) | (b as bv8)) as byte
  }

  /** Bit test `(a & mask) != 0` on bytes. */
  predicate HasBits(a: byte, mask: bv8): (hit: bool)
  {
    (a as bv8) & mask != 0
  }

  /** The two type flags of a stream header. */
  datatype StreamFlags = StreamFlags(hasAudio: bool, hasVideo: bool)

  /** Reads a 13-byte FLV header with PreviousTagSize0: the signature "FLV",
      version 1, reserved flag bits zero, DataOffset 9, PreviousTagSize0 0. */
  function ParseFlvHeader(h: seq<byte>): (r: Option<StreamFlags>)
  {
    if |h| != 13 || h[..4] != [0x46, 0x4C, 0x56, 0x01] || HasBits(h[4], 0xFA)
       || FromBigEndian(h[5..9]) != 9 || FromBigEndian(h[9..]) != 0
    then None
    else Some(StreamFlags(HasBits(h[4], 0x04), HasBits(h[4], 0x01)))
  }

  /** The header's flags read back as the two booleans it was built from. */
  lemma FlvHeaderRoundTrip(hasAudio: bool, hasVideo: bool)
    ensures ParseFlvHeader(FlvHeader(hasAudio, hasVideo)) == Some(StreamFlags(hasAudio, hasVideo))
  {
  }

  /** Every header a reader accepts is the one the session builds for its flags. */
  lemma ParsedHeaderIsBuilt(h: seq<byte>)
    requires ParseFlvHeader(h).Some?
    ensures FlvHeader(ParseFlvHeader(h).value.hasAudio, ParseFlvHeader(h).value.hasVideo) == h
  {
    EncodeDecode(h[5..9]);
    EncodeDecode(h[9..]);
    FlagsByte(h[4]);
    var b := FlvHeader(ParseFlvHeader(h).value.hasAudio, ParseFlvHeader(h).value.hasVideo);
    assert b[..4] == h[..4];
    assert b[4] == h[4];
    assert b[5..9] == h[5..9];
    assert b[9..] == h[9..];
    assert b == b[..4] + [b[4]] + b[5..9] + b[9..];
    assert h == h[..4] + [h[4]] + h[5..9] + h[9..];
  }

  /** A flags byte with the reserved bits clear is the sum of its two type bits. */
  lemma FlagsByte(x: byte)
    requires !HasBits(x, 0xFA)
    ensures x as int == (if HasBits(x, 0x04) then 4 else 0) + (if HasBits(x, 0x01) then 1 else 0)
  {
    var f := x as bv8;
    assert f & 0xFA == 0;
    assert f == 0 || f == 1 || f == 4 || f == 5;
  }

  /** A publisher that has received both audio and video gives flags 0b00000101. */
  lemma AudioVideoFlags()
    ensures FlvHeader(true, true)[4] == 0x05
  {
  }

  /** The framed bytes for type 9, timestamp 0x01020304: the low three bytes
      of the timestamp in order, then its high byte. */
  lemma VideoTagExample(ts: int, body: seq<byte>)
    requires ts == 0x01020304 && |body| < MaxDataSize
    ensures var tag := CreateFlvMessage(RtmpHeader(6, ts, 9, 1), body).value;
      tag[0] == 9 && tag[4..8] == [0x02, 0x03, 0x04, 0x01] && tag[8..11] == [0, 0, 0]
  {
    var r := CreateFlvMessage(RtmpHeader(6, ts, 9, 1), body);
    assert r.Ok?;
    var tag := r.value;
    ExampleTimestamp(ts);
    assert tag[4] == 2 && tag[5] == 3 && tag[6] == 4 && tag[7] == 1;
    assert tag[4..8] == [tag[4], tag[5], tag[6], tag[7]];
  }

  /** The bytes of the example timestamp 0x01020304. */
  lemma ExampleTimestamp(ts: int)
    requires ts == 0x01020304
    ensures Uint32(ts) == ts
    ensures ts / 0x1_0000 % 256 == 2 && ts / 0x100 % 256 == 3 && ts % 256 == 4 && ts / 0x100_0000 % 256 == 1
  {
  }

}
