/** The responses with a fixed layout: the daemon's status, its hardware equaliser curve, the bass
    enhancer's settings, and error messages. */
module StateResponses {
  import opened Lists
  import opened Wire
  import opened Protocol

  type SpeakerWords = s: seq<word> | |s| == SPEAKER_COUNT witness [0, 0, 0, 0, 0, 0, 0]
  type SpeakerFlags = s: seq<bool> | |s| == SPEAKER_COUNT witness [false, false, false, false, false, false, false]

  // ------------------------------------------------------ runs of floats, flags and bands

  function FloatParts(ws: seq<word>): (parts: seq<seq<byte>>) {
    seq(|ws|, i requires 0 <= i < |ws| => FloatBytes(ws[i]))
  }

  function ReadFloats(p: seq<byte>, at: nat, n: nat): seq<word>
    requires at + 4 * n <= |p|
  {
    seq(n, i requires 0 <= i < n => ReadFloat(p, at + 4 * i))
  }

  lemma FloatAt(ws: seq<word>, before: seq<byte>, after: seq<byte>, i: nat)
    requires i < |ws|
    ensures var p := before + Flatten(FloatParts(ws)) + after;
            |before| + 4 * i + 4 <= |p| && ReadFloat(p, |before| + 4 * i) == ws[i]
  {
    hide Flatten, FloatBytes, ReadFloat;
    var parts := FloatParts(ws);
    FlattenSplit(parts, i);
    FlattenLength(parts[..i], 4);
    SpanIsProduct(4, i);
    var front, back := before + Flatten(parts[..i]), Flatten(parts[i + 1..]) + after;
    assert before + Flatten(parts) + after == front + FloatBytes(ws[i]) + back;
    FloatRoundTrip(ws[i], front, back);
  }

  lemma FloatsRoundTrip(ws: seq<word>, before: seq<byte>, after: seq<byte>)
    ensures |Flatten(FloatParts(ws))| == 4 * |ws|
    ensures ReadFloats(before + Flatten(FloatParts(ws)) + after, |before|, |ws|) == ws
  {
    hide Flatten, FloatBytes, ReadFloat;
    FlattenLength(FloatParts(ws), 4);
    SpanIsProduct(4, |ws|);
    hide FloatParts;
    forall i | 0 <= i < |ws|
      ensures ReadFloat(before + Flatten(FloatParts(ws)) + after, |before| + 4 * i) == ws[i]
    {
      FloatAt(ws, before, after, i);
    }
  }

  method AppendFloats(payload: seq<byte>, ws: seq<word>) returns (r: seq<byte>)
    ensures r == payload + Flatten(FloatParts(ws))
  {
    r := payload;
    for i := 0 to |ws|
      invariant r == payload + Flatten(FloatParts(ws[..i]))
    {
      r := r + FloatBytes(ws[i]);
      FlattenAppend(FloatParts(ws[..i]), FloatBytes(ws[i]));
      assert FloatParts(ws[..i + 1]) == FloatParts(ws[..i]) + [FloatBytes(ws[i])];
    }
    assert ws[..|ws|] == ws;
  }

  function FlagBytes(flags: seq<bool>): (b: seq<byte>)
    ensures |b| == |flags|
  {
    seq(|flags|, i requires 0 <= i < |flags| => BoolByte(flags[i]))
  }

  function ReadFlags(p: seq<byte>, at: nat, n: nat): seq<bool>
    requires at + n <= |p|
  {
    seq(n, i requires 0 <= i < n => p[at + i] != 0)
  }

  lemma FlagsRoundTrip(flags: seq<bool>, p: seq<byte>, at: nat)
    requires at + |flags| <= |p| && p[at..at + |flags|] == FlagBytes(flags)
    ensures ReadFlags(p, at, |flags|) == flags
  {
    forall i | 0 <= i < |flags| ensures (p[at + i] != 0) == flags[i] {
      assert p[at..at + |flags|][i] == FlagBytes(flags)[i];
    }
  }

  function BandParts(bands: seq<EqBand>): seq<seq<byte>> {
    seq(|bands|, i requires 0 <= i < |bands| => EqBandBytes(bands[i]))
  }

  lemma BandsRoundTrip(bands: seq<EqBand>, i: nat)
    requires i < |bands|
    ensures |Flatten(BandParts(bands))| == EQ_BAND_WIRE_SIZE * |bands|
    ensures EQ_BAND_WIRE_SIZE * i + EQ_BAND_WIRE_SIZE <= |Flatten(BandParts(bands))|
    ensures ReadEqBand(Flatten(BandParts(bands)), EQ_BAND_WIRE_SIZE * i) == bands[i]
  {
    hide Flatten, EqBandBytes, ReadEqBand;
    var parts := BandParts(bands);
    FlattenLength(parts, EQ_BAND_WIRE_SIZE);
    SpanIsProduct(EQ_BAND_WIRE_SIZE, |bands|);
    FlattenSplit(parts, i);
    FlattenLength(parts[..i], EQ_BAND_WIRE_SIZE);
    SpanIsProduct(EQ_BAND_WIRE_SIZE, i);
    EqBandRoundTrip(bands[i], Flatten(parts[..i]), Flatten(parts[i + 1..]));
  }

  // ------------------------------------------------------ status

  datatype Status = Status(
    mode: byte, azimuths: SpeakerWords, muted: SpeakerFlags, testNoise: bool, device: seq<byte>,
    activeHrtf: byte, distances: SpeakerWords, nearField: bool)

  const MUTED_OFFSET: nat := 29
  const DISTANCE_OFFSET: nat := 38
  const STATUS_FIXED_SIZE: nat := 67

  function StatusPayload(s: Status): seq<byte> {
    [s.mode] + Flatten(FloatParts(s.azimuths)) + FlagBytes(s.muted) + [BoolByte(s.testNoise), s.activeHrtf]
    + Flatten(FloatParts(s.distances)) + [BoolByte(s.nearField)] + StringBytes(s.device)
  }

  method EncodeStatusResponse(s: Status) returns (m: seq<byte>)
    ensures m == Message(STATUS_RESPONSE, StatusPayload(s))
  {
    hide Flatten, FloatParts, StringBytes, Message;
    var payload := [s.mode];
    payload := AppendFloats(payload, s.azimuths);
    ghost var front := payload;
    for i := 0 to SPEAKER_COUNT
      invariant payload == front + FlagBytes(s.muted)[..i]
    {
      payload := payload + [BoolByte(s.muted[i])];
    }
    payload := payload + [BoolByte(s.testNoise)];
    payload := payload + [s.activeHrtf];
    payload := AppendFloats(payload, s.distances);
    payload := payload + [BoolByte(s.nearField)];
    payload := payload + StringBytes(s.device);
    assert payload == StatusPayload(s);
    m := Message(STATUS_RESPONSE, payload);
  }

  function DecodeStatus(p: seq<byte>): Option<Status> {
    if |p| < STATUS_FIXED_SIZE || p[0] > LAST_MODE then None
    else
      match ReadString(p, STATUS_FIXED_SIZE)
      case None => None
      case Some((device, _)) =>
        Some(Status(p[0], ReadFloats(p, 1, SPEAKER_COUNT),
                    ReadFlags(p, MUTED_OFFSET, SPEAKER_COUNT),
                    p[MUTED_OFFSET + SPEAKER_COUNT] != 0, device, p[MUTED_OFFSET + SPEAKER_COUNT + 1],
                    ReadFloats(p, DISTANCE_OFFSET, SPEAKER_COUNT), p[DISTANCE_OFFSET + 4 * SPEAKER_COUNT] != 0))
  }

  method DecodeStatusResponse(p: seq<byte>) returns (r: Option<Status>)
    ensures r == DecodeStatus(p)
  {
    if |p| < STATUS_FIXED_SIZE || p[0] > LAST_MODE {
      return None;
    }
    var azimuths := [];
    for i := 0 to SPEAKER_COUNT
      invariant azimuths == ReadFloats(p, 1, i)
    {
      azimuths := azimuths + [ReadFloat(p, 1 + 4 * i)];
    }
    var muted := [];
    for i := 0 to SPEAKER_COUNT
      invariant muted == ReadFlags(p, MUTED_OFFSET, i)
    {
      muted := muted + [p[MUTED_OFFSET + i] != 0];
    }
    var distances := [];
    for i := 0 to SPEAKER_COUNT
      invariant distances == ReadFloats(p, DISTANCE_OFFSET, i)
    {
      distances := distances + [ReadFloat(p, DISTANCE_OFFSET + 4 * i)];
    }
    var device := ReadString(p, STATUS_FIXED_SIZE);
    if device == None {
      return None;
    }
    r := Some(Status(p[0], azimuths, muted, p[MUTED_OFFSET + SPEAKER_COUNT] != 0, device.value.0,
                     p[MUTED_OFFSET + SPEAKER_COUNT + 1], distances, p[DISTANCE_OFFSET + 4 * SPEAKER_COUNT] != 0));
  }

  /** Where the fields of a status lie in its payload. */
  lemma StatusLayout(s: Status)
    ensures var p := StatusPayload(s);
            && |p| == STATUS_FIXED_SIZE + 2 + Min(|s.device|, 0xFFFF)
            && p[0] == s.mode && ReadFloats(p, 1, SPEAKER_COUNT) == s.azimuths
            && p[MUTED_OFFSET..MUTED_OFFSET + SPEAKER_COUNT] == FlagBytes(s.muted)
            && p[MUTED_OFFSET + SPEAKER_COUNT] == BoolByte(s.testNoise)
            && p[MUTED_OFFSET + SPEAKER_COUNT + 1] == s.activeHrtf
            && ReadFloats(p, DISTANCE_OFFSET, SPEAKER_COUNT) == s.distances
            && p[DISTANCE_OFFSET + 4 * SPEAKER_COUNT] == BoolByte(s.nearField)
            && p[STATUS_FIXED_SIZE..] == StringBytes(s.device)
  {
    hide Flatten, FloatParts, StringBytes, ReadFloats;
    var p := StatusPayload(s);
    var azimuths, distances := Flatten(FloatParts(s.azimuths)), Flatten(FloatParts(s.distances));
    var middle := FlagBytes(s.muted) + [BoolByte(s.testNoise), s.activeHrtf];
    var end := [BoolByte(s.nearField)] + StringBytes(s.device);
    assert p == [s.mode] + azimuths + (middle + distances + end);
    FloatsRoundTrip(s.azimuths, [s.mode], middle + distances + end);
    assert p == ([s.mode] + azimuths + middle) + distances + end;
    FloatsRoundTrip(s.distances, [s.mode] + azimuths + middle, end);
  }

  /** A status arrives field by field exactly when its mode is one of the three and the device name
      leaves the length field enough room. */
  lemma StatusArrivesIff(s: Status)
    ensures |StatusPayload(s)| <= 0xFFFF && DecodeStatus(StatusPayload(s)) == Some(s)
       <==> s.mode <= LAST_MODE && |s.device| <= 0xFFFF - STATUS_FIXED_SIZE - 2
  {
    hide StatusPayload, ReadFloats, StringBytes, ReadString;
    StatusLayout(s);
    var p := StatusPayload(s);
    if |s.device| <= 0xFFFF {
      StringRoundTrip(s.device, p[..STATUS_FIXED_SIZE], []);
      assert p[..STATUS_FIXED_SIZE] + StringBytes(s.device) + [] == p;
    }
    FlagsRoundTrip(s.muted, p, MUTED_OFFSET);
  }

  // ------------------------------------------------------ equaliser curve, bass enhancer, errors

  type Curve = s: seq<EqBand> | |s| == MAX_EQ_BANDS witness seq(MAX_EQ_BANDS, _ => EqBand(0, 0, 0, 0))

  method EncodeHwEqStateResponse(bands: Curve) returns (m: seq<byte>)
    ensures m == Message(HW_EQ_STATE_RESPONSE, Flatten(BandParts(bands)))
  {
    var payload := [];
    for i := 0 to MAX_EQ_BANDS
      invariant payload == Flatten(BandParts(bands[..i]))
    {
      payload := payload + EqBandBytes(bands[i]);
      FlattenAppend(BandParts(bands[..i]), EqBandBytes(bands[i]));
      assert BandParts(bands[..i + 1]) == BandParts(bands[..i]) + [EqBandBytes(bands[i])];
    }
    assert bands[..MAX_EQ_BANDS] == bands;
    m := Message(HW_EQ_STATE_RESPONSE, payload);
  }

  /** Only a payload of ten bands is accepted; what the encoder wrote comes back band by band. */
  method DecodeHwEqStateResponse(p: seq<byte>) returns (r: Option<Curve>)
    ensures r.Some? <==> |p| == MAX_EQ_BANDS * EQ_BAND_WIRE_SIZE
    ensures forall bands: Curve | p == Flatten(BandParts(bands)) :: r == Some(bands)
  {
    if |p| != MAX_EQ_BANDS * EQ_BAND_WIRE_SIZE {
      forall bands: Curve
        ensures p != Flatten(BandParts(bands))
      {
        BandsRoundTrip(bands, 0);
      }
      return None;
    }
    var bands := [];
    for i := 0 to MAX_EQ_BANDS
      invariant |bands| == i
      invariant forall k | 0 <= k < i :: bands[k] == ReadEqBand(p, k * EQ_BAND_WIRE_SIZE)
    {
      bands := bands + [ReadEqBand(p, i * EQ_BAND_WIRE_SIZE)];
    }
    forall sent: Curve | p == Flatten(BandParts(sent))
      ensures sent == bands
    {
      forall k | 0 <= k < MAX_EQ_BANDS
        ensures sent[k] == bands[k]
      {
        BandsRoundTrip(sent, k);
      }
    }
    r := Some(bands);
  }

  function EncodeBassEnhancerStateResponse(s: BassEnhancerSettings): seq<byte> {
    Message(BASS_ENHANCER_STATE_RESPONSE, BassEnhancerBytes(s))
  }

  function DecodeBassEnhancerStateResponse(p: seq<byte>): Option<BassEnhancerSettings> {
    if |p| != BASS_ENHANCER_WIRE_SIZE then None else Some(ReadBassEnhancer(p))
  }

  lemma BassEnhancerStateArrives(s: BassEnhancerSettings)
    ensures DecodeBassEnhancerStateResponse(EncodeBassEnhancerStateResponse(s)[HEADER_SIZE..]) == Some(s)
  {
    BassEnhancerRoundTrip(s);
    assert EncodeBassEnhancerStateResponse(s)[HEADER_SIZE..] == BassEnhancerBytes(s);
  }

  function EncodeErrorResponse(message: seq<byte>): (m: seq<byte>)
    ensures HEADER_SIZE <= |m| <= HEADER_SIZE + MAX_PAYLOAD_SIZE
    ensures m[HEADER_SIZE..] <= message
    ensures |message| <= MAX_PAYLOAD_SIZE ==> m[HEADER_SIZE..] == message
  {
    Message(ERROR_RESPONSE, RawString(message))
  }
}
