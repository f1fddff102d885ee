/** Bytes on the control socket: big-endian numbers, float bit patterns and length-prefixed strings. */
module Wire {
  import opened Lists

  type byte = n: int | 0 <= n < 0x100
  type uint16 = n: int | 0 <= n < 0x1_0000
  /** The bit pattern of a 32-bit float; the codec copies it without looking inside. */
  type word = n: int | 0 <= n < 0x1_0000_0000

  const HEADER_SIZE: nat := 3
  const MAX_PAYLOAD_SIZE: nat := 4096

  function Uint16Bytes(v: uint16): (b: seq<byte>)
    ensures |b| == 2
  {
    [v / 0x100, v % 0x100]
  }

  function ReadUint16(b: seq<byte>, at: nat): uint16
    requires at + 2 <= |b|
  {
    var hi: int, lo: int := b[at], b[at + 1];
    hi * 0x100 + lo
  }

  lemma Uint16RoundTrip(v: uint16, before: seq<byte>, after: seq<byte>)
    ensures ReadUint16(before + Uint16Bytes(v) + after, |before|) == v
  {
  }

  function FloatBytes(w: word): (b: seq<byte>)
    ensures |b| == 4
  {
    [w / 0x100_0000, w / 0x1_0000 % 0x100, w / 0x100 % 0x100, w % 0x100]
  }

  function ReadFloat(b: seq<byte>, at: nat): word
    requires at + 4 <= |b|
  {
    var b3: int, b2: int, b1: int, b0: int := b[at], b[at + 1], b[at + 2], b[at + 3];
    b3 * 0x100_0000 + b2 * 0x1_0000 + b1 * 0x100 + b0
  }

  lemma BytesAddUp(w: word)
    ensures w / 0x100_0000 * 0x100_0000 + w / 0x1_0000 % 0x100 * 0x1_0000 + w / 0x100 % 0x100 * 0x100 + w % 0x100 == w
  {
    assert w / 0x1_0000 == w / 0x100 / 0x100 && w / 0x100_0000 == w / 0x1_0000 / 0x100;
  }

  /** Floats survive bit by bit, wherever they stand in a payload. */
  lemma FloatRoundTrip(w: word, before: seq<byte>, after: seq<byte>)
    ensures ReadFloat(before + FloatBytes(w) + after, |before|) == w
  {
    var b := before + FloatBytes(w) + after;
    var n := |before|;
    assert b[n..n + 4] == FloatBytes(w);
    var bytes := FloatBytes(w);
    assert b[n] == bytes[0] && b[n + 1] == bytes[1] && b[n + 2] == bytes[2] && b[n + 3] == bytes[3];
    BytesAddUp(w);
  }

  function BoolByte(b: bool): byte {
    if b then 1 else 0
  }

  /** A string behind its length; longer strings are cut to what the length can say. */
  function StringBytes(s: seq<byte>): (b: seq<byte>)
    ensures |b| == 2 + Min(|s|, 0xFFFF)
  {
    var len := Min(|s|, 0xFFFF);
    Uint16Bytes(len) + s[..len]
  }

  /** Reads a length-prefixed string; gives it and the offset behind it. */
  function ReadString(payload: seq<byte>, offset: nat): (r: Option<(seq<byte>, nat)>)
    ensures r.Some? ==> offset + 2 <= r.value.1 <= |payload| && r.value.1 == offset + 2 + |r.value.0|
  {
    if offset + 2 > |payload| then None
    else
      var len := ReadUint16(payload, offset);
      if offset + 2 + len > |payload| then None
      else Some((payload[offset + 2..offset + 2 + len], offset + 2 + len))
  }

  lemma StringRoundTrip(s: seq<byte>, before: seq<byte>, after: seq<byte>)
    requires |s| <= 0xFFFF
    ensures ReadString(before + StringBytes(s) + after, |before|) == Some((s, |before| + 2 + |s|))
  {
    var payload := before + StringBytes(s) + after;
    assert payload == before + Uint16Bytes(|s|) + (s + after);
    Uint16RoundTrip(|s|, before, s + after);
    assert payload[|before| + 2..|before| + 2 + |s|] == s;
  }

  /** Opcode and length in front of a payload; the length field keeps 16 bits. */
  function Message(opcode: byte, payload: seq<byte>): (m: seq<byte>)
    ensures |m| == HEADER_SIZE + |payload|
  {
    [opcode] + Uint16Bytes(|payload| % 0x1_0000) + payload
  }

  datatype Header = Header(opcode: byte, payloadLength: uint16)

  function TryReadHeader(buffer: seq<byte>): Option<Header> {
    if |buffer| < HEADER_SIZE then None else Some(Header(buffer[0], ReadUint16(buffer, 1)))
  }

  lemma HeaderRoundTrip(opcode: byte, payload: seq<byte>, after: seq<byte>)
    ensures TryReadHeader(Message(opcode, payload) + after) == Some(Header(opcode, |payload| % 0x1_0000))
  {
    var len: uint16 := |payload| % 0x1_0000;
    assert Message(opcode, payload) + after == [opcode] + Uint16Bytes(len) + (payload + after);
    Uint16RoundTrip(len, [opcode], payload + after);
  }
}
