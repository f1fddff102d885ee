/** The control protocol byte by byte: opcodes as numbers, numbers most significant byte first, and
    where each field of a request stands. */
module WireLayout {
  import opened Lists
  import opened Wire
  import opened Protocol
  import opened StateResponses
  import opened ListResponses

  /** The number a row of bytes stands for, most significant byte first. */
  function BigEndian(b: seq<byte>): nat {
    if b == [] then 0 else 0x100 * BigEndian(b[..|b| - 1]) + b[|b| - 1]
  }

  lemma BigEndianOfTwo(b: seq<byte>)
    requires |b| == 2
    ensures var b1: int, b0: int := b[0], b[1]; BigEndian(b) == b1 * 0x100 + b0
  {
    var front := b[..1];
    assert front[..0] == [];
    assert BigEndian(front) == 0x100 * BigEndian([]) + front[0];
  }

  lemma BigEndianOfFour(b: seq<byte>)
    requires |b| == 4
    ensures var b3: int, b2: int, b1: int, b0: int := b[0], b[1], b[2], b[3];
            BigEndian(b) == b3 * 0x100_0000 + b2 * 0x1_0000 + b1 * 0x100 + b0
  {
    assert b[..3][..2] == b[..2];
    BigEndianOfTwo(b[..2]);
  }

  lemma Uint16IsBigEndian(v: uint16, b: seq<byte>, at: nat)
    requires at + 2 <= |b|
    ensures BigEndian(Uint16Bytes(v)) == v && ReadUint16(b, at) == BigEndian(b[at..at + 2])
  {
    BigEndianOfTwo(Uint16Bytes(v));
    BigEndianOfTwo(b[at..at + 2]);
  }

  /** Numbers and float patterns travel most significant byte first, and are read that way. */
  lemma FloatIsBigEndian(w: word, b: seq<byte>, at: nat)
    requires at + 4 <= |b|
    ensures BigEndian(FloatBytes(w)) == w && ReadFloat(b, at) == BigEndian(b[at..at + 4])
  {
    BigEndianOfFour(FloatBytes(w));
    BytesAddUp(w);
    var f := b[at..at + 4];
    BigEndianOfFour(f);
    assert f[0] == b[at] && f[1] == b[at + 1] && f[2] == b[at + 2] && f[3] == b[at + 3];
  }

  /** A message is its opcode, the payload's length in two bytes, and the payload. */
  lemma MessageLayout(opcode: byte, p: seq<byte>)
    requires |p| <= 0xFFFF
    ensures var m := Message(opcode, p); m[0] == opcode && BigEndian(m[1..3]) == |p| && m[3..] == p
  {
    var m := Message(opcode, p);
    Uint16IsBigEndian(|p|, [0, 0], 0);
    assert m[1..3] == Uint16Bytes(|p|);
  }

  /** The four bytes at `at` are a float's. */
  ghost predicate FloatAt(p: seq<byte>, at: nat, w: word) {
    at + 4 <= |p| && BigEndian(p[at..at + 4]) == w
  }

  lemma FloatStands(before: seq<byte>, w: word, after: seq<byte>)
    ensures FloatAt(before + FloatBytes(w) + after, |before|, w)
  {
    var p := before + FloatBytes(w) + after;
    assert p[|before|..|before| + 4] == FloatBytes(w);
    FloatIsBigEndian(w, [0, 0, 0, 0], 0);
  }

  ghost predicate BandAt(p: seq<byte>, at: nat, b: EqBand) {
    && at + 13 <= |p| && p[at] == b.filterType
    && FloatAt(p, at + 1, b.frequencyHz) && FloatAt(p, at + 5, b.gainDb) && FloatAt(p, at + 9, b.q)
  }

  lemma BandStands(before: seq<byte>, b: EqBand, after: seq<byte>)
    ensures BandAt(before + EqBandBytes(b) + after, |before|, b)
  {
    hide FloatAt, FloatBytes;
    var p := before + EqBandBytes(b) + after;
    var t, f, g, q := [b.filterType], FloatBytes(b.frequencyHz), FloatBytes(b.gainDb), FloatBytes(b.q);
    assert p == (before + t) + f + (g + q + after);
    assert p == (before + t + f) + g + (q + after);
    assert p == (before + t + f + g) + q + after;
    FloatStands(before + t, b.frequencyHz, g + q + after);
    FloatStands(before + t + f, b.gainDb, q + after);
    FloatStands(before + t + f + g, b.q, after);
  }

  /** A name behind its length in two bytes. */
  ghost predicate NameAt(p: seq<byte>, name: seq<byte>) {
    2 + |name| <= |p| && BigEndian(p[0..2]) == |name| && p[2..2 + |name|] == name
  }

  lemma NameStands(name: seq<byte>, after: seq<byte>)
    requires |name| <= 0xFFFF
    ensures NameAt(StringBytes(name) + after, name)
  {
    var p := StringBytes(name) + after;
    Uint16IsBigEndian(|name|, [0, 0], 0);
    assert p[0..2] == Uint16Bytes(|name|) && p[2..2 + |name|] == name;
  }

  /** The opcode and payload of a request, as other implementations of the protocol would write them. */
  ghost predicate OnTheWire(r: Request, opcode: int, p: seq<byte>) {
    match r
    case GetStatus => opcode == 0x01 && p == []
    case SetSpatialMode(mode) => opcode == 0x02 && p == [mode]
    case SetSpeakerAzimuth(speaker, azimuth) => opcode == 0x03 && |p| == 5 && p[0] == speaker && FloatAt(p, 1, azimuth)
    case GetDevices => opcode == 0x04 && p == []
    case SetOutputDevice(device) => opcode == 0x05 && p == device
    case ResetSpeakerPositions => opcode == 0x06 && p == []
    case SetSpeakerMute(speaker, muted) => opcode == 0x07 && p == [speaker, if muted then 1 else 0]
    case SetTestNoise(enabled) => opcode == 0x08 && p == [if enabled then 1 else 0]
    case GetHrtfCatalog => opcode == 0x09 && p == []
    case SetHrtfFile(hrtf) => opcode == 0x0A && p == [hrtf]
    case SetSpeakerDistance(speaker, distance) => opcode == 0x0B && |p| == 5 && p[0] == speaker && FloatAt(p, 1, distance)
    case SetNearFieldEnabled(enabled) => opcode == 0x0C && p == [if enabled then 1 else 0]
    case SetHwEqBand(index, band) => opcode == 0x0D && |p| == 14 && p[0] == index && BandAt(p, 1, band)
    case SetHwEqPreset(preset) => opcode == 0x0E && p == [preset]
    case SaveHwEqPreset(name) => opcode == 0x0F && p == name
    case GetContentStreams => opcode == 0x10 && p == []
    case SetContentEqBand(app, index, band) =>
      opcode == 0x11 && |p| == 16 + |app| && NameAt(p, app) && p[2 + |app|] == index && BandAt(p, 3 + |app|, band)
    case SetContentEqPreset(app, preset) => opcode == 0x12 && |p| == 3 + |app| && NameAt(p, app) && p[2 + |app|] == preset
    case SaveContentEqPreset(app, name) => opcode == 0x13 && |p| == 2 + |app| + |name| && NameAt(p, app) && p[2 + |app|..] == name
    case GetEqPresetCatalog => opcode == 0x14 && p == []
    case GetHwEqState => opcode == 0x15 && p == []
    case SetBassEnhancer(s) =>
      && opcode == 0x16 && |p| == 13 && p[0] == (if s.enabled then 1 else 0)
      && FloatAt(p, 1, s.cutoffHz) && FloatAt(p, 5, s.drive) && FloatAt(p, 9, s.mix)
    case GetBassEnhancerState => opcode == 0x17 && p == []
  }

  lemma PayloadOnTheWire(r: Request)
    requires Sendable(r)
    ensures OnTheWire(r, OpcodeOf(r), PayloadOf(r))
  {
    hide FloatAt, BandAt, NameAt, FloatBytes, EqBandBytes, StringBytes;
    match r
    case SetSpeakerAzimuth(speaker, azimuth) =>
      FloatStands([speaker], azimuth, []);
      assert [speaker] + FloatBytes(azimuth) + [] == PayloadOf(r);
    case SetSpeakerDistance(speaker, distance) =>
      FloatStands([speaker], distance, []);
      assert [speaker] + FloatBytes(distance) + [] == PayloadOf(r);
    case SetHwEqBand(index, band) =>
      BandStands([index], band, []);
      assert [index] + EqBandBytes(band) + [] == PayloadOf(r);
    case SetContentEqBand(app, index, band) => ContentBandOnTheWire(app, index, band);
    case SetContentEqPreset(app, preset) => NameStands(app, [preset]);
    case SaveContentEqPreset(app, name) => NamedPresetOnTheWire(app, name);
    case SetBassEnhancer(s) => BassOnTheWire(s);
    case _ =>
  }

  lemma ContentBandOnTheWire(app: seq<byte>, index: byte, band: EqBand)
    requires |app| <= 0xFFFF - 16
    ensures var p := StringBytes(app) + [index] + EqBandBytes(band);
            |p| == 16 + |app| && NameAt(p, app) && p[2 + |app|] == index && BandAt(p, 3 + |app|, band)
  {
    hide NameAt, BandAt, EqBandBytes;
    var n, b := StringBytes(app), EqBandBytes(band);
    NameStands(app, [index] + b);
    assert n + ([index] + b) == n + [index] + b;
    BandStands(n + [index], band, []);
    assert n + [index] + b + [] == n + [index] + b;
  }

  lemma NamedPresetOnTheWire(app: seq<byte>, name: seq<byte>)
    requires |app| + |name| <= MAX_PAYLOAD_SIZE - 2 || (name == [] && |app| <= 0xFFFF - 2)
    ensures var p := NamedPreset(app, name);
            |p| == 2 + |app| + |name| && NameAt(p, app) && p[2 + |app|..] == name
  {
    hide NameAt;
    NameStands(app, name);
    assert NamedPreset(app, name) == StringBytes(app) + name;
  }

  lemma BassOnTheWire(s: BassEnhancerSettings)
    ensures var p := BassEnhancerBytes(s);
            && |p| == 13 && p[0] == (if s.enabled then 1 else 0)
            && FloatAt(p, 1, s.cutoffHz) && FloatAt(p, 5, s.drive) && FloatAt(p, 9, s.mix)
  {
    BandStands([], EqBand(BoolByte(s.enabled), s.cutoffHz, s.drive, s.mix), []);
    assert [] + BassEnhancerBytes(s) + [] == BassEnhancerBytes(s);
    hide FloatAt, FloatBytes;
  }

  /** Every request a client may send stands on the wire as the protocol header documents it: opcode
      number, length, and each field at its place. */
  lemma RequestOnTheWire(r: Request)
    requires Sendable(r)
    ensures var m := EncodeRequest(r);
            |m| >= 3 && BigEndian(m[1..3]) == |m| - 3 && OnTheWire(r, m[0], m[3..])
  {
    PayloadOnTheWire(r);
    SendableFits(r);
    MessageLayout(OpcodeOf(r), PayloadOf(r));
    hide OnTheWire, Message, PayloadOf;
  }

  lemma SendableFits(r: Request)
    requires Sendable(r)
    ensures |PayloadOf(r)| <= 0xFFFF
  {
    hide StringBytes, FloatBytes, EqBandBytes;
  }

  /** Which indices, modes and filter types the server accepts. */
  lemma RangesOnTheWire(i: byte, w: word, b: EqBand)
    ensures DecodeCommand(0x02, [i]).Some? <==> i <= 2
    ensures DecodeCommand(0x03, [i] + FloatBytes(w)).Some? <==> i < 7
    ensures DecodeCommand(0x07, [i, 1]).Some? <==> i < 7
    ensures DecodeCommand(0x0B, [i] + FloatBytes(w)).Some? <==> i < 7
    ensures DecodeCommand(0x0D, [i] + EqBandBytes(b)).Some? <==> i < 10 && b.filterType <= 5
  {
    hide FloatBytes, ReadFloat;
    assert ([i] + EqBandBytes(b))[1] == b.filterType;
    hide ReadEqBand;
  }

  // ------------------------------------------------------ responses

  /** The opcode of each list response. */
  lemma ListOnTheWire(kind: ListKind, entries: seq<Entry>)
    requires |entries| <= 0xFFFF && Fits(entries)
    ensures |ListMessage(kind, entries)| <= 4099
    ensures var m := ListMessage(kind, entries);
            && m[0] == (match kind case Devices => 0x83 case HrtfNames => 0x84 case ContentStreams => 0x85 case EqPresets => 0x86)
            && BigEndian(m[1..3]) == |m| - 3 && BigEndian(m[3..5]) == |entries|
  {
    hide EntriesBytes;
    var p := Uint16Bytes(|entries|) + EntriesBytes(entries);
    MessageLayout(ListOpcode(kind), p);
    Uint16IsBigEndian(|entries|, [0, 0], 0);
    assert ListMessage(kind, entries)[3..5] == p[0..2] == Uint16Bytes(|entries|);
  }

  /** An error response, its text cut at 4096 bytes. */
  lemma ErrorOnTheWire(message: seq<byte>)
    ensures var m := EncodeErrorResponse(message);
            && m[0] == 0x82 && BigEndian(m[1..3]) == |m| - 3
            && m[3..] == if |message| <= 4096 then message else message[..4096]
  {
    MessageLayout(ERROR_RESPONSE, RawString(message));
  }

  /** The header of a status, an equaliser and a bass enhancer response. */
  lemma StateOnTheWire(s: Status, bands: Curve, bass: BassEnhancerSettings)
    requires |s.device| <= 0xFFFF - STATUS_FIXED_SIZE - 2
    ensures var m := Message(STATUS_RESPONSE, StatusPayload(s)); m[0] == 0x81 && BigEndian(m[1..3]) == |m| - 3
    ensures var m := Message(HW_EQ_STATE_RESPONSE, Flatten(BandParts(bands))); m[0] == 0x87 && BigEndian(m[1..3]) == 130 == |m| - 3
    ensures var m := EncodeBassEnhancerStateResponse(bass); m[0] == 0x88 && BigEndian(m[1..3]) == 13 == |m| - 3
  {
    StatusLayout(s);
    MessageLayout(STATUS_RESPONSE, StatusPayload(s));
    FlattenLength(BandParts(bands), 13);
    MessageLayout(HW_EQ_STATE_RESPONSE, Flatten(BandParts(bands)));
    MessageLayout(BASS_ENHANCER_STATE_RESPONSE, BassEnhancerBytes(bass));
    hide StatusPayload, BassEnhancerBytes, Flatten, BandParts, Message;
  }
}
