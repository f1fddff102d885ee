/** The control protocol's requests and fixed-layout responses. */
module Protocol {
  import opened Lists
  import opened Wire

  const GET_STATUS: byte := 0x01
  const SET_SPATIAL_MODE: byte := 0x02
  const SET_SPEAKER_AZIMUTH: byte := 0x03
  const GET_DEVICES: byte := 0x04
  const SET_OUTPUT_DEVICE: byte := 0x05
  const RESET_SPEAKER_POSITIONS: byte := 0x06
  const SET_SPEAKER_MUTE: byte := 0x07
  const SET_TEST_NOISE: byte := 0x08
  const GET_HRTF_CATALOG: byte := 0x09
  const SET_HRTF_FILE: byte := 0x0A
  const SET_SPEAKER_DISTANCE: byte := 0x0B
  const SET_NEAR_FIELD_ENABLED: byte := 0x0C
  const SET_HW_EQ_BAND: byte := 0x0D
  const SET_HW_EQ_PRESET: byte := 0x0E
  const SAVE_HW_EQ_PRESET: byte := 0x0F
  const GET_CONTENT_STREAMS: byte := 0x10
  const SET_CONTENT_EQ_BAND: byte := 0x11
  const SET_CONTENT_EQ_PRESET: byte := 0x12
  const SAVE_CONTENT_EQ_PRESET: byte := 0x13
  const GET_EQ_PRESET_CATALOG: byte := 0x14
  const GET_HW_EQ_STATE: byte := 0x15
  const SET_BASS_ENHANCER: byte := 0x16
  const GET_BASS_ENHANCER_STATE: byte := 0x17
  const STATUS_RESPONSE: byte := 0x81
  const ERROR_RESPONSE: byte := 0x82
  const DEVICE_LIST_RESPONSE: byte := 0x83
  const HRTF_CATALOG_RESPONSE: byte := 0x84
  const CONTENT_STREAM_LIST_RESPONSE: byte := 0x85
  const EQ_PRESET_CATALOG_RESPONSE: byte := 0x86
  const HW_EQ_STATE_RESPONSE: byte := 0x87
  const BASS_ENHANCER_STATE_RESPONSE: byte := 0x88

  const SPEAKER_COUNT: nat := 7
  const MAX_EQ_BANDS: nat := 10
  /** SpatialMode::Advanced, the last mode. */
  const LAST_MODE: byte := 2
  /** EqFilterType::Notch, the last filter type. */
  const LAST_FILTER_TYPE: byte := 5
  const EQ_BAND_WIRE_SIZE: nat := 13
  const BASS_ENHANCER_WIRE_SIZE: nat := 13

  datatype EqBand = EqBand(filterType: byte, frequencyHz: word, gainDb: word, q: word)
  datatype BassEnhancerSettings = BassEnhancerSettings(enabled: bool, cutoffHz: word, drive: word, mix: word)

  function EqBandBytes(b: EqBand): (s: seq<byte>)
    ensures |s| == EQ_BAND_WIRE_SIZE
  {
    [b.filterType] + FloatBytes(b.frequencyHz) + FloatBytes(b.gainDb) + FloatBytes(b.q)
  }

  function ReadEqBand(p: seq<byte>, at: nat): EqBand
    requires at + EQ_BAND_WIRE_SIZE <= |p|
  {
    EqBand(p[at], ReadFloat(p, at + 1), ReadFloat(p, at + 5), ReadFloat(p, at + 9))
  }

  lemma EqBandRoundTrip(b: EqBand, before: seq<byte>, after: seq<byte>)
    ensures ReadEqBand(before + EqBandBytes(b) + after, |before|) == b
  {
    var f, g, q := FloatBytes(b.frequencyHz), FloatBytes(b.gainDb), FloatBytes(b.q);
    var p := before + EqBandBytes(b) + after;
    var t := [b.filterType];
    assert p == (before + t) + f + (g + q + after);
    assert p == (before + t + f) + g + (q + after);
    assert p == (before + t + f + g) + q + after;
    FloatRoundTrip(b.frequencyHz, before + t, g + q + after);
    FloatRoundTrip(b.gainDb, before + t + f, q + after);
    FloatRoundTrip(b.q, before + t + f + g, after);
    hide FloatBytes;
    hide ReadFloat;
  }

  function BassEnhancerBytes(s: BassEnhancerSettings): (b: seq<byte>)
    ensures |b| == BASS_ENHANCER_WIRE_SIZE
  {
    [BoolByte(s.enabled)] + FloatBytes(s.cutoffHz) + FloatBytes(s.drive) + FloatBytes(s.mix)
  }

  function ReadBassEnhancer(p: seq<byte>): BassEnhancerSettings
    requires BASS_ENHANCER_WIRE_SIZE <= |p|
  {
    BassEnhancerSettings(p[0] != 0, ReadFloat(p, 1), ReadFloat(p, 5), ReadFloat(p, 9))
  }

  lemma BassEnhancerRoundTrip(s: BassEnhancerSettings)
    ensures ReadBassEnhancer(BassEnhancerBytes(s)) == s
  {
    EqBandRoundTrip(EqBand(BoolByte(s.enabled), s.cutoffHz, s.drive, s.mix), [], []);
    assert [] + BassEnhancerBytes(s) + [] == BassEnhancerBytes(s);
  }

  // ------------------------------------------------------ commands

  datatype Command = Command(
    opcode: byte, modeValue: byte, speakerIndex: byte, azimuthDegrees: word, muted: bool,
    testNoiseEnabled: bool, outputDeviceName: seq<byte>, hrtfIndex: byte, distanceMeters: word,
    nearFieldEnabled: bool, bandIndex: byte, band: EqBand, eqPresetIndex: byte,
    presetName: seq<byte>, contentAppName: seq<byte>, bassEnhancer: BassEnhancerSettings)

  /** A fresh command: 1000 Hz, 0 dB, Q 0.707 as band, and the bass enhancer's defaults. */
  function FreshCommand(opcode: byte): Command {
    Command(opcode, 0, 0, 0, false, false, [], 0, 0, false, 0, EqBand(0, 0x447A_0000, 0, 0x3F34_FDF4), 0, [], [],
            BassEnhancerSettings(false, 0x4270_0000, 0x3F00_0000, 0x3F00_0000))
  }

  function DecodeCommand(opcode: byte, p: seq<byte>): Option<Command> {
    var c := FreshCommand(opcode);
    if opcode == GET_STATUS then Some(c)
    else if opcode == SET_SPATIAL_MODE then
      if |p| < 1 || p[0] > LAST_MODE then None else Some(c.(modeValue := p[0]))
    else if opcode == SET_SPEAKER_AZIMUTH then
      if |p| < 5 || p[0] >= SPEAKER_COUNT then None
      else Some(c.(speakerIndex := p[0], azimuthDegrees := ReadFloat(p, 1)))
    else if opcode == GET_DEVICES then Some(c)
    else if opcode == SET_OUTPUT_DEVICE then Some(c.(outputDeviceName := p))
    else if opcode == RESET_SPEAKER_POSITIONS then Some(c)
    else if opcode == SET_SPEAKER_MUTE then
      if |p| < 2 || p[0] >= SPEAKER_COUNT then None
      else Some(c.(speakerIndex := p[0], muted := p[1] != 0))
    else if opcode == SET_TEST_NOISE then
      if |p| < 1 then None else Some(c.(testNoiseEnabled := p[0] != 0))
    else if opcode == GET_HRTF_CATALOG then Some(c)
    else if opcode == SET_HRTF_FILE then
      if |p| < 1 then None else Some(c.(hrtfIndex := p[0]))
    else if opcode == SET_SPEAKER_DISTANCE then
      if |p| < 5 || p[0] >= SPEAKER_COUNT then None
      else Some(c.(speakerIndex := p[0], distanceMeters := ReadFloat(p, 1)))
    else if opcode == SET_NEAR_FIELD_ENABLED then
      if |p| < 1 then None else Some(c.(nearFieldEnabled := p[0] != 0))
    else if opcode == SET_HW_EQ_BAND then
      if |p| < 1 + EQ_BAND_WIRE_SIZE || p[0] >= MAX_EQ_BANDS || p[1] > LAST_FILTER_TYPE then None
      else Some(c.(bandIndex := p[0], band := ReadEqBand(p, 1)))
    else if opcode == SET_HW_EQ_PRESET then
      if |p| < 1 then None else Some(c.(eqPresetIndex := p[0]))
    else if opcode == SAVE_HW_EQ_PRESET then Some(c.(presetName := p))
    else if opcode == GET_HW_EQ_STATE then Some(c)
    else if opcode == SET_BASS_ENHANCER then
      if |p| != BASS_ENHANCER_WIRE_SIZE then None else Some(c.(bassEnhancer := ReadBassEnhancer(p)))
    else if opcode == GET_BASS_ENHANCER_STATE then Some(c)
    else if opcode == GET_CONTENT_STREAMS then Some(c)
    else if opcode == SET_CONTENT_EQ_BAND then
      match ReadString(p, 0) {
        case None => None
        case Some((name, at)) =>
          if at + 1 + EQ_BAND_WIRE_SIZE > |p| || p[at] >= MAX_EQ_BANDS || p[at + 1] > LAST_FILTER_TYPE then None
          else Some(c.(contentAppName := name, bandIndex := p[at], band := ReadEqBand(p, at + 1)))
      }
    else if opcode == SET_CONTENT_EQ_PRESET then
      match ReadString(p, 0) {
        case None => None
        case Some((name, at)) =>
          if at + 1 > |p| then None else Some(c.(contentAppName := name, eqPresetIndex := p[at]))
      }
    else if opcode == SAVE_CONTENT_EQ_PRESET then
      match ReadString(p, 0) {
        case None => None
        case Some((name, at)) => Some(c.(contentAppName := name, presetName := p[at..]))
      }
    else if opcode == GET_EQ_PRESET_CATALOG then Some(c)
    else None
  }

  // ------------------------------------------------------ requests, as clients build them

  datatype Request =
    | GetStatus
    | SetSpatialMode(mode: byte)
    | SetSpeakerAzimuth(speaker: byte, azimuth: word)
    | GetDevices
    | SetOutputDevice(device: seq<byte>)
    | ResetSpeakerPositions
    | SetSpeakerMute(speaker: byte, muted: bool)
    | SetTestNoise(enabled: bool)
    | GetHrtfCatalog
    | SetHrtfFile(hrtf: byte)
    | SetSpeakerDistance(speaker: byte, distance: word)
    | SetNearFieldEnabled(enabled: bool)
    | SetHwEqBand(index: byte, band: EqBand)
    | SetHwEqPreset(preset: byte)
    | SaveHwEqPreset(name: seq<byte>)
    | GetHwEqState
    | SetBassEnhancer(settings: BassEnhancerSettings)
    | GetBassEnhancerState
    | GetContentStreams
    | SetContentEqBand(app: seq<byte>, index: byte, band: EqBand)
    | SetContentEqPreset(app: seq<byte>, preset: byte)
    | SaveContentEqPreset(app: seq<byte>, name: seq<byte>)
    | GetEqPresetCatalog

  /** A raw string payload: cut at the payload limit. */
  function RawString(s: seq<byte>): seq<byte> {
    s[..Min(|s|, MAX_PAYLOAD_SIZE)]
  }

  /** Name and preset name: only the second is cut, to what the limit leaves. */
  function NamedPreset(app: seq<byte>, name: seq<byte>): seq<byte> {
    var front := StringBytes(app);
    var available := if |front| < MAX_PAYLOAD_SIZE then MAX_PAYLOAD_SIZE - |front| else 0;
    front + name[..Min(|name|, available)]
  }

  function OpcodeOf(r: Request): byte {
    match r
    case GetStatus => GET_STATUS
    case SetSpatialMode(_) => SET_SPATIAL_MODE
    case SetSpeakerAzimuth(_, _) => SET_SPEAKER_AZIMUTH
    case GetDevices => GET_DEVICES
    case SetOutputDevice(_) => SET_OUTPUT_DEVICE
    case ResetSpeakerPositions => RESET_SPEAKER_POSITIONS
    case SetSpeakerMute(_, _) => SET_SPEAKER_MUTE
    case SetTestNoise(_) => SET_TEST_NOISE
    case GetHrtfCatalog => GET_HRTF_CATALOG
    case SetHrtfFile(_) => SET_HRTF_FILE
    case SetSpeakerDistance(_, _) => SET_SPEAKER_DISTANCE
    case SetNearFieldEnabled(_) => SET_NEAR_FIELD_ENABLED
    case SetHwEqBand(_, _) => SET_HW_EQ_BAND
    case SetHwEqPreset(_) => SET_HW_EQ_PRESET
    case SaveHwEqPreset(_) => SAVE_HW_EQ_PRESET
    case GetHwEqState => GET_HW_EQ_STATE
    case SetBassEnhancer(_) => SET_BASS_ENHANCER
    case GetBassEnhancerState => GET_BASS_ENHANCER_STATE
    case GetContentStreams => GET_CONTENT_STREAMS
    case SetContentEqBand(_, _, _) => SET_CONTENT_EQ_BAND
    case SetContentEqPreset(_, _) => SET_CONTENT_EQ_PRESET
    case SaveContentEqPreset(_, _) => SAVE_CONTENT_EQ_PRESET
    case GetEqPresetCatalog => GET_EQ_PRESET_CATALOG
  }

  function PayloadOf(r: Request): seq<byte> {
    match r
    case SetSpatialMode(mode) => [mode]
    case SetSpeakerAzimuth(speaker, azimuth) => [speaker] + FloatBytes(azimuth)
    case SetOutputDevice(device) => RawString(device)
    case SetSpeakerMute(speaker, muted) => [speaker, BoolByte(muted)]
    case SetTestNoise(enabled) => [BoolByte(enabled)]
    case SetHrtfFile(hrtf) => [hrtf]
    case SetSpeakerDistance(speaker, distance) => [speaker] + FloatBytes(distance)
    case SetNearFieldEnabled(enabled) => [BoolByte(enabled)]
    case SetHwEqBand(index, band) => [index] + EqBandBytes(band)
    case SetHwEqPreset(preset) => [preset]
    case SaveHwEqPreset(name) => RawString(name)
    case SetBassEnhancer(settings) => BassEnhancerBytes(settings)
    case SetContentEqBand(app, index, band) => StringBytes(app) + [index] + EqBandBytes(band)
    case SetContentEqPreset(app, preset) => StringBytes(app) + [preset]
    case SaveContentEqPreset(app, name) => NamedPreset(app, name)
    case _ => []
  }

  function EncodeRequest(r: Request): seq<byte> {
    Message(OpcodeOf(r), PayloadOf(r))
  }

  /** The command a request asks for. */
  function CommandOf(r: Request): Command {
    match r
    case GetStatus => FreshCommand(GET_STATUS)
    case SetSpatialMode(mode) => FreshCommand(SET_SPATIAL_MODE).(modeValue := mode)
    case SetSpeakerAzimuth(speaker, azimuth) =>
      FreshCommand(SET_SPEAKER_AZIMUTH).(speakerIndex := speaker, azimuthDegrees := azimuth)
    case GetDevices => FreshCommand(GET_DEVICES)
    case SetOutputDevice(device) => FreshCommand(SET_OUTPUT_DEVICE).(outputDeviceName := device)
    case ResetSpeakerPositions => FreshCommand(RESET_SPEAKER_POSITIONS)
    case SetSpeakerMute(speaker, muted) => FreshCommand(SET_SPEAKER_MUTE).(speakerIndex := speaker, muted := muted)
    case SetTestNoise(enabled) => FreshCommand(SET_TEST_NOISE).(testNoiseEnabled := enabled)
    case GetHrtfCatalog => FreshCommand(GET_HRTF_CATALOG)
    case SetHrtfFile(hrtf) => FreshCommand(SET_HRTF_FILE).(hrtfIndex := hrtf)
    case SetSpeakerDistance(speaker, distance) =>
      FreshCommand(SET_SPEAKER_DISTANCE).(speakerIndex := speaker, distanceMeters := distance)
    case SetNearFieldEnabled(enabled) => FreshCommand(SET_NEAR_FIELD_ENABLED).(nearFieldEnabled := enabled)
    case SetHwEqBand(index, band) => FreshCommand(SET_HW_EQ_BAND).(bandIndex := index, band := band)
    case SetHwEqPreset(preset) => FreshCommand(SET_HW_EQ_PRESET).(eqPresetIndex := preset)
    case SaveHwEqPreset(name) => FreshCommand(SAVE_HW_EQ_PRESET).(presetName := name)
    case GetHwEqState => FreshCommand(GET_HW_EQ_STATE)
    case SetBassEnhancer(settings) => FreshCommand(SET_BASS_ENHANCER).(bassEnhancer := settings)
    case GetBassEnhancerState => FreshCommand(GET_BASS_ENHANCER_STATE)
    case GetContentStreams => FreshCommand(GET_CONTENT_STREAMS)
    case SetContentEqBand(app, index, band) =>
      FreshCommand(SET_CONTENT_EQ_BAND).(contentAppName := app, bandIndex := index, band := band)
    case SetContentEqPreset(app, preset) =>
      FreshCommand(SET_CONTENT_EQ_PRESET).(contentAppName := app, eqPresetIndex := preset)
    case SaveContentEqPreset(app, name) =>
      FreshCommand(SAVE_CONTENT_EQ_PRESET).(contentAppName := app, presetName := name)
    case GetEqPresetCatalog => FreshCommand(GET_EQ_PRESET_CATALOG)
  }

  /** What a client can check before it sends: indices and types in range, strings short enough. */
  predicate Sendable(r: Request) {
    match r
    case SetSpatialMode(mode) => mode <= LAST_MODE
    case SetSpeakerAzimuth(speaker, _) => speaker < SPEAKER_COUNT
    case SetOutputDevice(device) => |device| <= MAX_PAYLOAD_SIZE
    case SetSpeakerMute(speaker, _) => speaker < SPEAKER_COUNT
    case SetSpeakerDistance(speaker, _) => speaker < SPEAKER_COUNT
    case SetHwEqBand(index, band) => index < MAX_EQ_BANDS && band.filterType <= LAST_FILTER_TYPE
    case SaveHwEqPreset(name) => |name| <= MAX_PAYLOAD_SIZE
    case SetContentEqBand(app, index, band) =>
      |app| <= 0xFFFF - 16 && index < MAX_EQ_BANDS && band.filterType <= LAST_FILTER_TYPE
    case SetContentEqPreset(app, _) => |app| <= 0xFFFF - 3
    case SaveContentEqPreset(app, name) =>
      |app| + |name| <= MAX_PAYLOAD_SIZE - 2 || (name == [] && |app| <= 0xFFFF - 2)
    case _ => true
  }

  /** The message is framed by its own header, and its payload decodes to the command. */
  ghost predicate Arrives(message: seq<byte>, c: Command) {
    && |message| >= HEADER_SIZE
    && |message| == HEADER_SIZE + ReadUint16(message, 1)
    && DecodeCommand(message[0], message[HEADER_SIZE..]) == Some(c)
  }

  lemma FramedIff(opcode: byte, p: seq<byte>, c: Command)
    ensures Arrives(Message(opcode, p), c) <==> |p| <= 0xFFFF && DecodeCommand(opcode, p) == Some(c)
  {
    hide DecodeCommand;
    HeaderRoundTrip(opcode, p, []);
    assert Message(opcode, p) + [] == Message(opcode, p);
    assert Message(opcode, p)[HEADER_SIZE..] == p;
  }

  lemma IndexedFloatRoundTrip(index: byte, w: word)
    ensures ReadFloat([index] + FloatBytes(w), 1) == w
  {
    FloatRoundTrip(w, [index], []);
    assert [index] + FloatBytes(w) + [] == [index] + FloatBytes(w);
  }

  lemma IndexedBandRoundTrip(front: seq<byte>, index: byte, band: EqBand)
    ensures var p := front + [index] + EqBandBytes(band);
            p[|front|] == index && p[|front| + 1] == band.filterType && ReadEqBand(p, |front| + 1) == band
  {
    EqBandRoundTrip(band, front + [index], []);
    assert front + [index] + EqBandBytes(band) + [] == front + [index] + EqBandBytes(band);
  }

  lemma NamedRoundTrip(app: seq<byte>, rest: seq<byte>)
    requires |app| <= 0xFFFF
    ensures ReadString(StringBytes(app) + rest, 0) == Some((app, 2 + |app|))
  {
    StringRoundTrip(app, [], rest);
    assert [] + StringBytes(app) + rest == StringBytes(app) + rest;
  }

  /** The payload decodes to the command, or is too long for its header. */
  ghost predicate Decodes(r: Request) {
    |PayloadOf(r)| <= 0xFFFF && DecodeCommand(OpcodeOf(r), PayloadOf(r)) == Some(CommandOf(r))
  }

  lemma RawStringIsWholeIff(s: seq<byte>)
    ensures RawString(s) == s <==> |s| <= MAX_PAYLOAD_SIZE
    ensures |RawString(s)| <= MAX_PAYLOAD_SIZE
  {
    assert |RawString(s)| == Min(|s|, MAX_PAYLOAD_SIZE);
  }

  lemma ContentEqBandDecodesIff(app: seq<byte>, index: byte, band: EqBand)
    ensures var r := SetContentEqBand(app, index, band); Decodes(r) <==> Sendable(r)
  {
    hide ReadEqBand, EqBandBytes, ReadString;
    var p := StringBytes(app) + [index] + EqBandBytes(band);
    if |app| <= 0xFFFF {
      NamedRoundTrip(app, [index] + EqBandBytes(band));
      assert StringBytes(app) + ([index] + EqBandBytes(band)) == p;
      IndexedBandRoundTrip(StringBytes(app), index, band);
    }
  }

  lemma SaveContentEqPresetDecodesIff(app: seq<byte>, name: seq<byte>)
    ensures var r := SaveContentEqPreset(app, name); Decodes(r) <==> Sendable(r)
  {
    hide ReadString;
    var p := NamedPreset(app, name);
    if |app| <= 0xFFFF {
      var rest := p[2 + |app|..];
      assert p == StringBytes(app) + rest;
      NamedRoundTrip(app, rest);
      assert rest == name <==> |rest| == |name|;
    }
  }

  /** Requests with an empty payload. */
  predicate Query(r: Request) {
    r.GetStatus? || r.GetDevices? || r.ResetSpeakerPositions? || r.GetHrtfCatalog? || r.GetHwEqState?
    || r.GetBassEnhancerState? || r.GetContentStreams? || r.GetEqPresetCatalog?
  }

  /** Requests with a payload of one or two bytes. */
  predicate Short(r: Request) {
    r.SetSpatialMode? || r.SetSpeakerMute? || r.SetTestNoise? || r.SetHrtfFile? || r.SetNearFieldEnabled? || r.SetHwEqPreset?
  }

  lemma QueryDecodesIff(r: Request)
    requires Query(r)
    ensures Decodes(r) <==> Sendable(r)
  {
    hide Short, ReadEqBand, ReadBassEnhancer, ReadFloat, ReadString;
  }

  lemma ShortDecodesIff(r: Request)
    requires Short(r)
    ensures Decodes(r) <==> Sendable(r)
  {
    hide Query, ReadEqBand, ReadBassEnhancer, ReadFloat, ReadString;
  }

  lemma DecodesIff(r: Request)
    ensures Decodes(r) <==> Sendable(r)
  {
    hide ReadEqBand, EqBandBytes, ReadBassEnhancer, BassEnhancerBytes, ReadFloat, FloatBytes, ReadString, StringBytes;
    hide RawString;
    if Query(r) {
      QueryDecodesIff(r);
    } else if Short(r) {
      ShortDecodesIff(r);
    } else if r.SetOutputDevice? {
      RawStringIsWholeIff(r.device);
    } else if r.SaveHwEqPreset? {
      RawStringIsWholeIff(r.name);
    } else if r.SetContentEqBand? {
      ContentEqBandDecodesIff(r.app, r.index, r.band);
    } else if r.SetContentEqPreset? {
      if |r.app| <= 0xFFFF { NamedRoundTrip(r.app, [r.preset]); }
    } else if r.SaveContentEqPreset? {
      SaveContentEqPresetDecodesIff(r.app, r.name);
    } else if r.SetHwEqBand? {
      IndexedBandRoundTrip([], r.index, r.band);
      assert [] + [r.index] + EqBandBytes(r.band) == [r.index] + EqBandBytes(r.band);
    } else if r.SetBassEnhancer? {
      BassEnhancerRoundTrip(r.settings);
    } else if r.SetSpeakerAzimuth? {
      IndexedFloatRoundTrip(r.speaker, r.azimuth);
    } else {
      IndexedFloatRoundTrip(r.speaker, r.distance);
    }
  }

  /** Every request of the protocol reaches the decoder as the command it asks for, floats bit by bit,
      exactly when the client kept indices, filter types and string lengths in range. */
  lemma RequestArrivesIff(r: Request)
    ensures Arrives(EncodeRequest(r), CommandOf(r)) <==> Sendable(r)
  {
    hide DecodeCommand, Arrives, CommandOf, PayloadOf;
    FramedIff(OpcodeOf(r), PayloadOf(r), CommandOf(r));
    DecodesIff(r);
  }

  // ------------------------------------------------------ nothing else is accepted

  /** The request a command asks for, if its opcode is one of a request. */
  function AskedFor(c: Command): Option<Request> {
    if c.opcode == GET_STATUS then Some(GetStatus)
    else if c.opcode == SET_SPATIAL_MODE then Some(SetSpatialMode(c.modeValue))
    else if c.opcode == SET_SPEAKER_AZIMUTH then Some(SetSpeakerAzimuth(c.speakerIndex, c.azimuthDegrees))
    else if c.opcode == GET_DEVICES then Some(GetDevices)
    else if c.opcode == SET_OUTPUT_DEVICE then Some(SetOutputDevice(c.outputDeviceName))
    else if c.opcode == RESET_SPEAKER_POSITIONS then Some(ResetSpeakerPositions)
    else if c.opcode == SET_SPEAKER_MUTE then Some(SetSpeakerMute(c.speakerIndex, c.muted))
    else if c.opcode == SET_TEST_NOISE then Some(SetTestNoise(c.testNoiseEnabled))
    else if c.opcode == GET_HRTF_CATALOG then Some(GetHrtfCatalog)
    else if c.opcode == SET_HRTF_FILE then Some(SetHrtfFile(c.hrtfIndex))
    else if c.opcode == SET_SPEAKER_DISTANCE then Some(SetSpeakerDistance(c.speakerIndex, c.distanceMeters))
    else if c.opcode == SET_NEAR_FIELD_ENABLED then Some(SetNearFieldEnabled(c.nearFieldEnabled))
    else if c.opcode == SET_HW_EQ_BAND then Some(SetHwEqBand(c.bandIndex, c.band))
    else if c.opcode == SET_HW_EQ_PRESET then Some(SetHwEqPreset(c.eqPresetIndex))
    else if c.opcode == SAVE_HW_EQ_PRESET then Some(SaveHwEqPreset(c.presetName))
    else if c.opcode == GET_HW_EQ_STATE then Some(GetHwEqState)
    else if c.opcode == SET_BASS_ENHANCER then Some(SetBassEnhancer(c.bassEnhancer))
    else if c.opcode == GET_BASS_ENHANCER_STATE then Some(GetBassEnhancerState)
    else if c.opcode == GET_CONTENT_STREAMS then Some(GetContentStreams)
    else if c.opcode == SET_CONTENT_EQ_BAND then Some(SetContentEqBand(c.contentAppName, c.bandIndex, c.band))
    else if c.opcode == SET_CONTENT_EQ_PRESET then Some(SetContentEqPreset(c.contentAppName, c.eqPresetIndex))
    else if c.opcode == SAVE_CONTENT_EQ_PRESET then Some(SaveContentEqPreset(c.contentAppName, c.presetName))
    else if c.opcode == GET_EQ_PRESET_CATALOG then Some(GetEqPresetCatalog)
    else None
  }

  /** The payload is one that no client would have cut: the strings that run to its end stay within
      the payload limit. */
  predicate Uncut(opcode: byte, p: seq<byte>) {
    && (opcode == SET_OUTPUT_DEVICE || opcode == SAVE_HW_EQ_PRESET ==> |p| <= MAX_PAYLOAD_SIZE)
    && (opcode == SAVE_CONTENT_EQ_PRESET && |p| >= 2 ==> |p| <= MAX_PAYLOAD_SIZE || |p| == 2 + ReadUint16(p, 0))
  }

  /** An accepted command is the command of a request, one the client could have sent whole exactly
      when the payload is uncut. */
  ghost predicate Canonical(opcode: byte, p: seq<byte>, c: Command) {
    && c.opcode == opcode && AskedFor(c).Some? && CommandOf(AskedFor(c).value) == c
    && (Sendable(AskedFor(c).value) <==> Uncut(opcode, p))
  }

  lemma LowOpcodesAreCanonical(opcode: byte, p: seq<byte>)
    requires |p| <= 0xFFFF && opcode < SET_TEST_NOISE && DecodeCommand(opcode, p).Some?
    ensures Canonical(opcode, p, DecodeCommand(opcode, p).value)
  {
    hide ReadEqBand, ReadBassEnhancer, ReadFloat, ReadString;
  }

  lemma MiddleOpcodesAreCanonical(opcode: byte, p: seq<byte>)
    requires |p| <= 0xFFFF && SET_TEST_NOISE <= opcode < GET_CONTENT_STREAMS && DecodeCommand(opcode, p).Some?
    ensures Canonical(opcode, p, DecodeCommand(opcode, p).value)
  {
    hide ReadBassEnhancer, ReadFloat, ReadString;
  }

  lemma ContentOpcodesAreCanonical(opcode: byte, p: seq<byte>)
    requires |p| <= 0xFFFF && GET_CONTENT_STREAMS <= opcode < GET_EQ_PRESET_CATALOG && DecodeCommand(opcode, p).Some?
    ensures Canonical(opcode, p, DecodeCommand(opcode, p).value)
  {
    hide ReadBassEnhancer, ReadFloat, ReadUint16;
  }

  lemma HighOpcodesAreCanonical(opcode: byte, p: seq<byte>)
    requires |p| <= 0xFFFF && GET_EQ_PRESET_CATALOG <= opcode && DecodeCommand(opcode, p).Some?
    ensures Canonical(opcode, p, DecodeCommand(opcode, p).value)
  {
    hide ReadBassEnhancer, ReadFloat, ReadString;
  }

  /** Whatever bytes the server hands over: an accepted command is the command of a request, with no
      stray field set; and a client could have sent that request, every index, filter type and string
      length in range, if and only if the payload is uncut. */
  lemma AcceptedCommandsAreRequests(opcode: byte, p: seq<byte>)
    requires |p| <= 0xFFFF && DecodeCommand(opcode, p).Some?
    ensures Canonical(opcode, p, DecodeCommand(opcode, p).value)
  {
    hide DecodeCommand, Canonical;
    if opcode < SET_TEST_NOISE {
      LowOpcodesAreCanonical(opcode, p);
    } else if opcode < GET_CONTENT_STREAMS {
      MiddleOpcodesAreCanonical(opcode, p);
    } else if opcode < GET_EQ_PRESET_CATALOG {
      ContentOpcodesAreCanonical(opcode, p);
    } else {
      HighOpcodesAreCanonical(opcode, p);
    }
  }
}
