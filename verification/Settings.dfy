/** The settings file: one `key=value` line a field, printed on every change and parsed at start. How
    a float is printed and parsed is a parameter. */
module Settings {
  import opened Lists
  import opened Wire
  import opened Protocol
  import opened StateResponses

  // ------------------------------------------------------ numbers as text

  function Digit(d: nat): char
    requires d < 10
  {
    ('0' as int + d) as char
  }

  predicate IsDigit(c: char) {
    '0' as int <= c as int <= '9' as int
  }

  function DigitValue(c: char): nat
    requires IsDigit(c)
  {
    c as int - '0' as int
  }

  function NumberText(n: nat): (t: string)
    ensures t != "" && forall i | 0 <= i < |t| :: IsDigit(t[i])
  {
    if n < 10 then [Digit(n)] else NumberText(n / 10) + [Digit(n % 10)]
  }

  function Value(digits: string): nat
    requires forall i | 0 <= i < |digits| :: IsDigit(digits[i])
  {
    if digits == "" then 0
    else 10 * Value(digits[..|digits| - 1]) + DigitValue(digits[|digits| - 1])
  }

  lemma {:induction false} ValueOfText(n: nat)
    ensures Value(NumberText(n)) == n
  {
    if n < 10 {
      assert Value([Digit(n)][..0]) == 0;
    } else {
      ValueOfText(n / 10);
      assert NumberText(n)[..|NumberText(n)| - 1] == NumberText(n / 10);
    }
  }

  function DigitPrefix(t: string): (p: string)
    ensures p <= t && forall i | 0 <= i < |p| :: IsDigit(p[i])
  {
    if t == "" || !IsDigit(t[0]) then "" else [t[0]] + DigitPrefix(t[1..])
  }

  lemma {:induction false} AllDigits(t: string)
    requires forall i | 0 <= i < |t| :: IsDigit(t[i])
    ensures DigitPrefix(t) == t
  {
    if t != "" {
      AllDigits(t[1..]);
      assert t == [t[0]] + t[1..];
    }
  }

  predicate IsSpace(c: char) {
    c == ' ' || '\t' <= c <= '\r'
  }

  const LONG_LIMIT: int := 0x8000_0000_0000_0000

  /** A number the way the standard library reads a long: leading white space, a sign, then at least
      one digit; whatever follows the digits is ignored. */
  function ParseLong(t: string): Option<int> {
    if t != "" && IsSpace(t[0]) then ParseLong(t[1..])
    else
      var negative := t != "" && t[0] == '-';
      var digits := DigitPrefix(if t != "" && (t[0] == '-' || t[0] == '+') then t[1..] else t);
      var n: int := if negative then 0 - Value(digits) else Value(digits);
      if digits == "" || n < -LONG_LIMIT || n >= LONG_LIMIT then None else Some(n)
  }

  lemma LongRoundTrip(n: nat)
    requires n < LONG_LIMIT
    ensures ParseLong(NumberText(n)) == Some(n)
  {
    var t := NumberText(n);
    assert IsDigit(t[0]);
    AllDigits(t);
    ValueOfText(n);
  }

  /** Signed and oversized numbers: what fits 64 bits is read with its sign, what does not is refused. */
  lemma SignedNumbersAreRead(n: nat)
    ensures var negative: int := 0 - n;
            ParseLong("-" + NumberText(n)) == if n <= 0x8000_0000_0000_0000 then Some(negative) else None
    ensures ParseLong("+" + NumberText(n)) == ParseLong(NumberText(n))
    ensures ParseLong(NumberText(n)) == if n < 0x8000_0000_0000_0000 then Some(n) else None
  {
    var t := NumberText(n);
    AllDigits(t);
    ValueOfText(n);
    hide NumberText, Value, DigitPrefix, ParseLong;
    UnsignedParse(t);
    SignedParse(t, '-');
    SignedParse(t, '+');
  }

  /** Without white space in front there is nothing to skip. */
  lemma ParseHere(u: string)
    requires u != "" && !IsSpace(u[0])
    ensures var digits := DigitPrefix(if u[0] == '-' || u[0] == '+' then u[1..] else u);
            var n: int := if u[0] == '-' then 0 - Value(digits) else Value(digits);
            ParseLong(u) == if digits == "" || n < -LONG_LIMIT || n >= LONG_LIMIT then None else Some(n)
  {
    hide Value, DigitPrefix;
  }

  lemma UnsignedParse(t: string)
    requires t != "" && (forall i | 0 <= i < |t| :: IsDigit(t[i])) && DigitPrefix(t) == t
    ensures ParseLong(t) == if Value(t) >= LONG_LIMIT then None else Some(Value(t))
  {
    assert IsDigit(t[0]);
    ParseHere(t);
    hide ParseLong, Value, DigitPrefix;
  }

  lemma SignedParse(t: string, sign: char)
    requires t != "" && (forall i | 0 <= i < |t| :: IsDigit(t[i])) && DigitPrefix(t) == t && (sign == '-' || sign == '+')
    ensures var n: int := if sign == '-' then 0 - Value(t) else Value(t);
            ParseLong([sign] + t) == if n < -LONG_LIMIT || n >= LONG_LIMIT then None else Some(n)
  {
    hide ParseLong, Value, DigitPrefix;
    assert ([sign] + t)[1..] == t;
    ParseHere([sign] + t);
  }

  // ------------------------------------------------------ lines

  /** Where the first occurrence of a character is, or the length. */
  function Find(t: string, c: char): (n: nat)
    ensures n <= |t| && c !in t[..n] && (n < |t| ==> t[n] == c)
  {
    if t == "" || t[0] == c then 0 else 1 + Find(t[1..], c)
  }

  lemma {:induction false} FindBehind(front: string, c: char, back: string)
    requires c !in front
    ensures Find(front + [c] + back, c) == |front|
  {
    if front == "" {
    } else {
      assert (front + [c] + back)[1..] == front[1..] + [c] + back;
      FindBehind(front[1..], c, back);
    }
  }

  /** The lines of a text; a last line needs no newline unless it is empty. */
  function Lines(t: string): seq<string> {
    if t == "" then []
    else
      var n := Find(t, '\n');
      if n == |t| then [t] else [t[..n]] + Lines(t[n + 1..])
  }

  /** The value of the first line with this key in front of its first equals sign. */
  function Lookup(lines: seq<string>, key: string): Option<string> {
    if lines == [] then None
    else
      var eq := Find(lines[0], '=');
      if eq < |lines[0]| && lines[0][..eq] == key then Some(lines[0][eq + 1..]) else Lookup(lines[1..], key)
  }

  lemma {:induction false} LookupBoth(lines: seq<string>, more: seq<string>, key: string)
    ensures Lookup(lines + more, key) == if Lookup(lines, key).Some? then Lookup(lines, key) else Lookup(more, key)
  {
    if lines == [] {
      assert lines + more == more;
    } else {
      assert (lines + more)[1..] == lines[1..] + more;
      LookupBoth(lines[1..], more, key);
    }
  }

  /** The table holds exactly the keys of the lines, each with its first value. */
  ghost predicate TableOf(fields: map<string, string>, lines: seq<string>) {
    forall key :: (if key in fields then Some(fields[key]) else None) == Lookup(lines, key)
  }

  /** Enters a line without overwriting; a line without an equals sign is skipped. */
  function Emplace(fields: map<string, string>, line: string): map<string, string> {
    var eq := Find(line, '=');
    if eq == |line| || line[..eq] in fields then fields else fields[line[..eq] := line[eq + 1..]]
  }

  lemma EmplaceStep(fields: map<string, string>, lines: seq<string>, line: string)
    requires TableOf(fields, lines)
    ensures TableOf(Emplace(fields, line), lines + [line])
  {
    hide Find;
    var after := Emplace(fields, line);
    forall key
      ensures (if key in after then Some(after[key]) else None) == Lookup(lines + [line], key)
    {
      hide Lookup;
      LookupBoth(lines, [line], key);
      OneLine(line, key);
      assert (if key in fields then Some(fields[key]) else None) == Lookup(lines, key);
    }
  }

  /** The parser's field table. */
  method ReadFields(text: string) returns (fields: map<string, string>)
    ensures TableOf(fields, Lines(text))
  {
    hide Find, TableOf, Lines, Emplace;
    fields := map[];
    var rest := text;
    ghost var read: seq<string> := [];
    NothingRead();
    assert read + Lines(rest) == Lines(rest);
    while rest != ""
      invariant read + Lines(rest) == Lines(text)
      invariant TableOf(fields, read)
      decreases |rest|
    {
      var n := Find(rest, '\n');
      var line := rest[..n];
      LinesStep(rest, read);
      EmplaceStep(fields, read, line);
      fields := Emplace(fields, line);
      read := read + [line];
      rest := if n < |rest| then rest[n + 1..] else "";
    }
    NoLines();
    assert read + [] == read;
  }

  lemma NoLines()
    ensures Lines("") == []
  {
  }

  lemma LinesStep(rest: string, read: seq<string>)
    requires rest != ""
    ensures var n := Find(rest, '\n');
            read + Lines(rest) == (read + [rest[..n]]) + Lines(if n < |rest| then rest[n + 1..] else "")
  {
    hide Find;
    var n := Find(rest, '\n');
    if n < |rest| {
      assert read + ([rest[..n]] + Lines(rest[n + 1..])) == (read + [rest[..n]]) + Lines(rest[n + 1..]);
    } else {
      assert rest[..n] == rest;
      assert (read + [rest]) + [] == read + [rest];
    }
  }

  lemma NothingRead()
    ensures TableOf(map[], [])
  {
  }

  lemma OneLine(line: string, key: string)
    ensures var eq := Find(line, '=');
            Lookup([line], key) == if eq < |line| && line[..eq] == key then Some(line[eq + 1..]) else None
  {
    assert Lookup([line][1..], key) == None;
  }

  // ------------------------------------------------------ the fields

  datatype PersistedSettings = PersistedSettings(
    mode: byte, azimuths: SpeakerWords, distances: SpeakerWords, muted: SpeakerFlags, nearField: bool,
    device: string, hrtf: string, bands: Curve, bassEnhancer: BassEnhancerSettings)

  function DefaultBand(frequency: word): EqBand {
    EqBand(0, frequency, 0, 0x3FB4_7AE1)
  }

  const DEFAULT_BANDS: Curve := [
    DefaultBand(0x41FC_0000), DefaultBand(0x427C_0000), DefaultBand(0x42FA_0000), DefaultBand(0x437A_0000),
    DefaultBand(0x43FA_0000), DefaultBand(0x447A_0000), DefaultBand(0x44FA_0000), DefaultBand(0x457A_0000),
    DefaultBand(0x45FA_0000), DefaultBand(0x467A_0000)]

  const DEFAULTS := PersistedSettings(
    0, [0, 0, 0, 0, 0, 0, 0], [0, 0, 0, 0, 0, 0, 0], [false, false, false, false, false, false, false], false,
    "", "", DEFAULT_BANDS, BassEnhancerSettings(false, 0x4270_0000, 0x3F00_0000, 0x3F00_0000))

  /** How the standard library prints a float and reads one back; reading can fail. */
  datatype FloatFormat = FloatFormat(show: word -> string, read: string -> Option<word>)

  ghost predicate OnOneLine(f: FloatFormat) {
    forall w :: '\n' !in f.show(w)
  }

  function SpeakerKey(i: nat, field: string): string {
    "speaker." + NumberText(i) + "." + field
  }

  function HwEqBandKey(i: nat, field: string): string {
    "hweq." + NumberText(i) + "." + field
  }

  function BoolText(b: bool): string {
    NumberText(if b then 1 else 0)
  }

  const SPEAKER_FIELDS: nat := 4
  const BAND_FIELDS: nat := 25
  const BASS_FIELDS: nat := 65
  const FIELDS: nat := 69

  /** The keys of the file in the order they are printed. */
  function KeyAt(n: nat): string
    requires n < FIELDS
  {
    if n == 0 then "mode"
    else if n == 1 then "near_field"
    else if n == 2 then "output_device"
    else if n == 3 then "hrtf_display_name"
    else if n < BAND_FIELDS then
      SpeakerKey((n - SPEAKER_FIELDS) / 3, match (n - SPEAKER_FIELDS) % 3 case 0 => "azimuth" case 1 => "distance" case _ => "muted")
    else if n < BASS_FIELDS then
      HwEqBandKey((n - BAND_FIELDS) / 4, match (n - BAND_FIELDS) % 4 case 0 => "type" case 1 => "freq" case 2 => "gain" case _ => "q")
    else if n == 65 then "bass_enhancer.enabled"
    else if n == 66 then "bass_enhancer.cutoff_hz"
    else if n == 67 then "bass_enhancer.drive"
    else "bass_enhancer.mix"
  }

  function ValueAt(s: PersistedSettings, show: word -> string, n: nat): string
    requires n < FIELDS
  {
    if n == 0 then NumberText(s.mode)
    else if n == 1 then BoolText(s.nearField)
    else if n == 2 then s.device
    else if n == 3 then s.hrtf
    else if n < BAND_FIELDS then
      var i := (n - SPEAKER_FIELDS) / 3;
      match (n - SPEAKER_FIELDS) % 3
        case 0 => show(s.azimuths[i])
        case 1 => show(s.distances[i])
        case _ => BoolText(s.muted[i])
    else if n < BASS_FIELDS then
      var band := s.bands[(n - BAND_FIELDS) / 4];
      match (n - BAND_FIELDS) % 4
        case 0 => NumberText(band.filterType)
        case 1 => show(band.frequencyHz)
        case 2 => show(band.gainDb)
        case _ => show(band.q)
    else if n == 65 then BoolText(s.bassEnhancer.enabled)
    else if n == 66 then show(s.bassEnhancer.cutoffHz)
    else if n == 67 then show(s.bassEnhancer.drive)
    else show(s.bassEnhancer.mix)
  }

  /** Which field a key belongs to, read off a few of its characters. */
  function Slot(key: string): int {
    if key == "" then -1
    else if key[0] == 'm' then 0
    else if key[0] == 'n' then 1
    else if key[0] == 'o' then 2
    else if |key| < 8 then -1
    else if key[0] == 'h' && key[1] == 'w' then
      if !IsDigit(key[5]) then -1
      else BAND_FIELDS + 4 * DigitValue(key[5]) + (match key[7] case 't' => 0 case 'f' => 1 case 'g' => 2 case _ => 3)
    else if key[0] == 'h' then 3
    else if key[0] == 's' then
      if |key| < 11 || !IsDigit(key[8]) then -1
      else SPEAKER_FIELDS + 3 * DigitValue(key[8]) + (match key[10] case 'a' => 0 case 'd' => 1 case _ => 2)
    else if |key| < 15 then -1
    else BASS_FIELDS + (match key[14] case 'e' => 0 case 'c' => 1 case 'd' => 2 case _ => 3)
  }

  lemma SpeakerKeySlot(i: nat, field: string)
    requires i < SPEAKER_COUNT && field in ["azimuth", "distance", "muted"]
    ensures Slot(SpeakerKey(i, field)) == SPEAKER_FIELDS + 3 * i + (if field == "azimuth" then 0 else if field == "distance" then 1 else 2)
    ensures '=' !in SpeakerKey(i, field) && '\n' !in SpeakerKey(i, field)
  {
    var key := SpeakerKey(i, field);
    assert NumberText(i) == [Digit(i)];
    assert key[0] == 's' && key[8] == Digit(i) && key[10] == field[0];
  }

  lemma BandKeySlot(i: nat, field: string)
    requires i < MAX_EQ_BANDS && field in ["type", "freq", "gain", "q"]
    ensures Slot(HwEqBandKey(i, field)) ==
            BAND_FIELDS + 4 * i + (if field == "type" then 0 else if field == "freq" then 1 else if field == "gain" then 2 else 3)
    ensures '=' !in HwEqBandKey(i, field) && '\n' !in HwEqBandKey(i, field)
  {
    var key := HwEqBandKey(i, field);
    assert NumberText(i) == [Digit(i)];
    assert key[0] == 'h' && key[1] == 'w' && key[5] == Digit(i) && key[7] == field[0];
  }

  lemma FirstKeySlot(n: nat)
    requires n < SPEAKER_FIELDS
    ensures Slot(KeyAt(n)) == n && '=' !in KeyAt(n) && '\n' !in KeyAt(n)
  {
    hide SpeakerKey, HwEqBandKey, IsDigit, DigitValue;
  }

  lemma BassKeySlot(n: nat)
    requires BASS_FIELDS <= n < FIELDS
    ensures Slot(KeyAt(n)) == n && '=' !in KeyAt(n) && '\n' !in KeyAt(n)
  {
    hide SpeakerKey, HwEqBandKey, IsDigit, DigitValue;
  }

  /** All keys differ, and none contains an equals sign or a newline. */
  lemma KeySlot(n: nat)
    requires n < FIELDS
    ensures Slot(KeyAt(n)) == n && '=' !in KeyAt(n) && '\n' !in KeyAt(n)
  {
    if SPEAKER_FIELDS <= n < BAND_FIELDS {
      hide Slot;
      var f := (n - SPEAKER_FIELDS) % 3;
      SpeakerKeySlot((n - SPEAKER_FIELDS) / 3, if f == 0 then "azimuth" else if f == 1 then "distance" else "muted");
    } else if BAND_FIELDS <= n < BASS_FIELDS {
      hide Slot;
      var f := (n - BAND_FIELDS) % 4;
      BandKeySlot((n - BAND_FIELDS) / 4, if f == 0 then "type" else if f == 1 then "freq" else if f == 2 then "gain" else "q");
    } else if n < SPEAKER_FIELDS {
      hide *;
      FirstKeySlot(n);
    } else {
      hide *;
      BassKeySlot(n);
    }
  }

  // ------------------------------------------------------ saving

  function FileLine(s: PersistedSettings, show: word -> string, n: nat): string
    requires n < FIELDS
  {
    KeyAt(n) + "=" + ValueAt(s, show, n)
  }

  function FileLines(s: PersistedSettings, show: word -> string, n: nat): (lines: seq<string>)
    requires n <= FIELDS
    ensures |lines| == n
  {
    seq(n, i requires 0 <= i < n => FileLine(s, show, i))
  }

  function Text(lines: seq<string>): string {
    if lines == [] then "" else lines[0] + "\n" + Text(lines[1..])
  }

  lemma {:induction false} TextBoth(lines: seq<string>, more: seq<string>)
    ensures Text(lines + more) == Text(lines) + Text(more)
  {
    if lines == [] {
      assert lines + more == more;
    } else {
      assert (lines + more)[1..] == lines[1..] + more;
      TextBoth(lines[1..], more);
    }
  }

  function Field(out: string, key: string, value: string): string {
    out + key + "=" + value + "\n"
  }

  lemma SaveStep(s: PersistedSettings, show: word -> string, out: string, n: nat, key: string, value: string)
    requires n < FIELDS && key == KeyAt(n) && value == ValueAt(s, show, n)
    requires out == Text(FileLines(s, show, n))
    ensures Field(out, key, value) == Text(FileLines(s, show, n + 1))
  {
    hide KeyAt, ValueAt;
    var line := FileLine(s, show, n);
    assert FileLines(s, show, n + 1) == FileLines(s, show, n) + [line];
    TextBoth(FileLines(s, show, n), [line]);
    assert Text([line]) == line + "\n" + Text([line][1..]);
    assert Text([line][1..]) == "";
    assert Field(out, key, value) == out + (line + "\n");
  }

  /** Prints the fields one behind the other. */
  method Save(s: PersistedSettings, show: word -> string) returns (out: string)
    ensures out == Text(FileLines(s, show, FIELDS))
  {
    hide Text, FileLines, Field, NumberText, BoolText;
    out := NothingSaved(s, show);
    SaveStep(s, show, out, 0, "mode", NumberText(s.mode));
    out := Field(out, "mode", NumberText(s.mode));
    SaveStep(s, show, out, 1, "near_field", BoolText(s.nearField));
    out := Field(out, "near_field", BoolText(s.nearField));
    SaveStep(s, show, out, 2, "output_device", s.device);
    out := Field(out, "output_device", s.device);
    SaveStep(s, show, out, 3, "hrtf_display_name", s.hrtf);
    out := Field(out, "hrtf_display_name", s.hrtf);
    for i := 0 to SPEAKER_COUNT
      invariant out == Text(FileLines(s, show, SPEAKER_FIELDS + 3 * i))
    {
      out := SaveSpeaker(s, show, out, i);
    }
    for i := 0 to MAX_EQ_BANDS
      invariant out == Text(FileLines(s, show, BAND_FIELDS + 4 * i))
    {
      out := SaveBand(s, show, out, i);
    }
    SaveStep(s, show, out, 65, "bass_enhancer.enabled", BoolText(s.bassEnhancer.enabled));
    out := Field(out, "bass_enhancer.enabled", BoolText(s.bassEnhancer.enabled));
    SaveStep(s, show, out, 66, "bass_enhancer.cutoff_hz", show(s.bassEnhancer.cutoffHz));
    out := Field(out, "bass_enhancer.cutoff_hz", show(s.bassEnhancer.cutoffHz));
    SaveStep(s, show, out, 67, "bass_enhancer.drive", show(s.bassEnhancer.drive));
    out := Field(out, "bass_enhancer.drive", show(s.bassEnhancer.drive));
    SaveStep(s, show, out, 68, "bass_enhancer.mix", show(s.bassEnhancer.mix));
    out := Field(out, "bass_enhancer.mix", show(s.bassEnhancer.mix));
  }

  function NothingSaved(s: PersistedSettings, show: word -> string): (out: string)
    ensures out == Text(FileLines(s, show, 0))
  {
    ""
  }

  method SaveSpeaker(s: PersistedSettings, show: word -> string, text: string, i: nat) returns (out: string)
    requires i < SPEAKER_COUNT && text == Text(FileLines(s, show, SPEAKER_FIELDS + 3 * i))
    ensures out == Text(FileLines(s, show, SPEAKER_FIELDS + 3 * (i + 1)))
  {
    hide Text, FileLines, Field, NumberText, BoolText, SpeakerKey;
    var n := SPEAKER_FIELDS + 3 * i;
    SaveStep(s, show, text, n, SpeakerKey(i, "azimuth"), show(s.azimuths[i]));
    out := Field(text, SpeakerKey(i, "azimuth"), show(s.azimuths[i]));
    SaveStep(s, show, out, n + 1, SpeakerKey(i, "distance"), show(s.distances[i]));
    out := Field(out, SpeakerKey(i, "distance"), show(s.distances[i]));
    SaveStep(s, show, out, n + 2, SpeakerKey(i, "muted"), BoolText(s.muted[i]));
    out := Field(out, SpeakerKey(i, "muted"), BoolText(s.muted[i]));
  }

  method SaveBand(s: PersistedSettings, show: word -> string, text: string, i: nat) returns (out: string)
    requires i < MAX_EQ_BANDS && text == Text(FileLines(s, show, BAND_FIELDS + 4 * i))
    ensures out == Text(FileLines(s, show, BAND_FIELDS + 4 * (i + 1)))
  {
    hide Text, FileLines, Field, NumberText, BoolText, HwEqBandKey;
    var n := BAND_FIELDS + 4 * i;
    var band := s.bands[i];
    SaveStep(s, show, text, n, HwEqBandKey(i, "type"), NumberText(band.filterType));
    out := Field(text, HwEqBandKey(i, "type"), NumberText(band.filterType));
    SaveStep(s, show, out, n + 1, HwEqBandKey(i, "freq"), show(band.frequencyHz));
    out := Field(out, HwEqBandKey(i, "freq"), show(band.frequencyHz));
    SaveStep(s, show, out, n + 2, HwEqBandKey(i, "gain"), show(band.gainDb));
    out := Field(out, HwEqBandKey(i, "gain"), show(band.gainDb));
    SaveStep(s, show, out, n + 3, HwEqBandKey(i, "q"), show(band.q));
    out := Field(out, HwEqBandKey(i, "q"), show(band.q));
  }

  // ------------------------------------------------------ the file as it stands

  const DIGITS: seq<string> := ["0", "1", "2", "3", "4", "5", "6", "7", "8", "9"]

  lemma OneDigit(n: nat)
    requires n < 10
    ensures NumberText(n) == DIGITS[n]
  {
  }

  lemma FlagText(b: bool)
    ensures BoolText(b) == if b then "1" else "0"
  {
    OneDigit(if b then 1 else 0);
    hide NumberText;
  }

  /** The lines of a saved file, as any reader of the format finds them: the general ones. */
  lemma SavedLines(s: PersistedSettings, show: word -> string)
    ensures var lines := FileLines(s, show, 69);
            && (s.mode < 10 ==> lines[0] == "mode" + "=" + DIGITS[s.mode])
            && lines[1] == "near_field" + "=" + (if s.nearField then "1" else "0")
            && lines[2] == "output_device" + "=" + s.device && lines[3] == "hrtf_display_name" + "=" + s.hrtf
            && lines[65] == "bass_enhancer.enabled" + "=" + (if s.bassEnhancer.enabled then "1" else "0")
            && lines[66] == "bass_enhancer.cutoff_hz" + "=" + show(s.bassEnhancer.cutoffHz)
            && lines[67] == "bass_enhancer.drive" + "=" + show(s.bassEnhancer.drive)
            && lines[68] == "bass_enhancer.mix" + "=" + show(s.bassEnhancer.mix)
  {
    if s.mode < 10 { OneDigit(s.mode); }
    FlagText(s.nearField);
    FlagText(s.bassEnhancer.enabled);
    hide NumberText, BoolText, SpeakerKey, HwEqBandKey;
  }

  /** Three lines for each speaker. */
  lemma SavedSpeakerLines(s: PersistedSettings, show: word -> string, i: nat)
    requires i < 7
    ensures var lines := FileLines(s, show, 69);
            && lines[4 + 3 * i] == "speaker." + DIGITS[i] + "." + "azimuth" + "=" + show(s.azimuths[i])
            && lines[5 + 3 * i] == "speaker." + DIGITS[i] + "." + "distance" + "=" + show(s.distances[i])
            && lines[6 + 3 * i] == "speaker." + DIGITS[i] + "." + "muted" + "=" + (if s.muted[i] then "1" else "0")
  {
    SpeakerLines(s, show, i);
    FlagText(s.muted[i]);
    OneDigit(i);
    hide NumberText, FileLines, BoolText;
  }

  lemma SpeakerLines(s: PersistedSettings, show: word -> string, i: nat)
    requires i < 7
    ensures var lines := FileLines(s, show, 69);
            && lines[4 + 3 * i] == SpeakerKey(i, "azimuth") + "=" + show(s.azimuths[i])
            && lines[5 + 3 * i] == SpeakerKey(i, "distance") + "=" + show(s.distances[i])
            && lines[6 + 3 * i] == SpeakerKey(i, "muted") + "=" + BoolText(s.muted[i])
  {
    hide SpeakerKey, BoolText, KeyAt, ValueAt;
    SpeakerLine(s, show, i, 0, "azimuth");
    SpeakerLine(s, show, i, 1, "distance");
    SpeakerLine(s, show, i, 2, "muted");
  }

  lemma SpeakerLine(s: PersistedSettings, show: word -> string, i: nat, k: nat, field: string)
    requires i < 7 && k < 3 && field == if k == 0 then "azimuth" else if k == 1 then "distance" else "muted"
    ensures KeyAt(4 + 3 * i + k) == SpeakerKey(i, field)
    ensures ValueAt(s, show, 4 + 3 * i + k)
            == if k == 0 then show(s.azimuths[i]) else if k == 1 then show(s.distances[i]) else BoolText(s.muted[i])
  {
    hide SpeakerKey, HwEqBandKey, BoolText, NumberText;
    assert (3 * i + k) / 3 == i && (3 * i + k) % 3 == k;
  }

  /** Four lines for each band. */
  lemma SavedBandLines(s: PersistedSettings, show: word -> string, i: nat)
    requires i < 10 && s.bands[i].filterType < 10
    ensures var lines := FileLines(s, show, 69);
            && lines[25 + 4 * i] == "hweq." + DIGITS[i] + "." + "type" + "=" + DIGITS[s.bands[i].filterType]
            && lines[26 + 4 * i] == "hweq." + DIGITS[i] + "." + "freq" + "=" + show(s.bands[i].frequencyHz)
            && lines[27 + 4 * i] == "hweq." + DIGITS[i] + "." + "gain" + "=" + show(s.bands[i].gainDb)
            && lines[28 + 4 * i] == "hweq." + DIGITS[i] + "." + "q" + "=" + show(s.bands[i].q)
  {
    BandLines(s, show, i);
    OneDigit(i);
    OneDigit(s.bands[i].filterType);
    hide NumberText, FileLines;
  }

  lemma BandLines(s: PersistedSettings, show: word -> string, i: nat)
    requires i < 10
    ensures var lines := FileLines(s, show, 69);
            && lines[25 + 4 * i] == HwEqBandKey(i, "type") + "=" + NumberText(s.bands[i].filterType)
            && lines[26 + 4 * i] == HwEqBandKey(i, "freq") + "=" + show(s.bands[i].frequencyHz)
            && lines[27 + 4 * i] == HwEqBandKey(i, "gain") + "=" + show(s.bands[i].gainDb)
            && lines[28 + 4 * i] == HwEqBandKey(i, "q") + "=" + show(s.bands[i].q)
  {
    hide HwEqBandKey, NumberText, KeyAt, ValueAt;
    BandLine(s, show, i, 0, "type");
    BandLine(s, show, i, 1, "freq");
    BandLine(s, show, i, 2, "gain");
    BandLine(s, show, i, 3, "q");
  }

  lemma BandLine(s: PersistedSettings, show: word -> string, i: nat, k: nat, field: string)
    requires i < 10 && k < 4 && field == if k == 0 then "type" else if k == 1 then "freq" else if k == 2 then "gain" else "q"
    ensures KeyAt(25 + 4 * i + k) == HwEqBandKey(i, field)
    ensures var b := s.bands[i];
            ValueAt(s, show, 25 + 4 * i + k)
            == if k == 0 then NumberText(b.filterType) else show(if k == 1 then b.frequencyHz else if k == 2 then b.gainDb else b.q)
  {
    hide SpeakerKey, HwEqBandKey, BoolText, NumberText;
    assert (4 * i + k) / 4 == i && (4 * i + k) % 4 == k;
  }

  // ------------------------------------------------------ loading

  function GetString(fields: map<string, string>, key: string, default: string): string {
    if key in fields then fields[key] else default
  }

  function GetLong(fields: map<string, string>, key: string, default: int): int {
    if key !in fields then default
    else match ParseLong(fields[key]) case None => default case Some(n) => n
  }

  function GetFloat(fields: map<string, string>, f: FloatFormat, key: string, default: word): word {
    if key !in fields then default
    else match f.read(fields[key]) case None => default case Some(w) => w
  }

  function GetBool(fields: map<string, string>, key: string, default: bool): bool {
    if key in fields then fields[key] == "1" else default
  }

  /** A long stored in a one-byte enumeration. */
  function AsByte(n: int): byte {
    n % 0x100
  }

  function LoadedBand(fields: map<string, string>, f: FloatFormat, i: nat, d: EqBand): EqBand {
    EqBand(AsByte(GetLong(fields, HwEqBandKey(i, "type"), d.filterType)), GetFloat(fields, f, HwEqBandKey(i, "freq"), d.frequencyHz),
           GetFloat(fields, f, HwEqBandKey(i, "gain"), d.gainDb), GetFloat(fields, f, HwEqBandKey(i, "q"), d.q))
  }

  function Loaded(fields: map<string, string>, f: FloatFormat, d: PersistedSettings): PersistedSettings {
    PersistedSettings(
      AsByte(GetLong(fields, "mode", d.mode)),
      seq(SPEAKER_COUNT, i requires 0 <= i < SPEAKER_COUNT => GetFloat(fields, f, SpeakerKey(i, "azimuth"), d.azimuths[i])),
      seq(SPEAKER_COUNT, i requires 0 <= i < SPEAKER_COUNT => GetFloat(fields, f, SpeakerKey(i, "distance"), d.distances[i])),
      seq(SPEAKER_COUNT, i requires 0 <= i < SPEAKER_COUNT => GetBool(fields, SpeakerKey(i, "muted"), d.muted[i])),
      GetBool(fields, "near_field", d.nearField),
      GetString(fields, "output_device", d.device),
      GetString(fields, "hrtf_display_name", d.hrtf),
      seq(MAX_EQ_BANDS, i requires 0 <= i < MAX_EQ_BANDS => LoadedBand(fields, f, i, d.bands[i])),
      BassEnhancerSettings(
        GetBool(fields, "bass_enhancer.enabled", d.bassEnhancer.enabled),
        GetFloat(fields, f, "bass_enhancer.cutoff_hz", d.bassEnhancer.cutoffHz),
        GetFloat(fields, f, "bass_enhancer.drive", d.bassEnhancer.drive),
        GetFloat(fields, f, "bass_enhancer.mix", d.bassEnhancer.mix)))
  }

  /** A mode or filter type wraps to one byte. */
  lemma ModeIsOneByte(fields: map<string, string>, f: FloatFormat, d: PersistedSettings, n: nat)
    requires n < LONG_LIMIT && "mode" in fields && fields["mode"] == NumberText(n)
    ensures Loaded(fields, f, d).mode == n % 256
  {
    LongRoundTrip(n);
    hide NumberText, ParseLong, LoadedBand, GetFloat, GetBool, GetString;
  }

  /** Fills the settings from the file's fields; a missing or unreadable field keeps its default, and
      a missing file gives nothing. */
  method Load(file: Option<string>, f: FloatFormat) returns (r: Option<PersistedSettings>, ghost fields: map<string, string>)
    ensures r == None <==> file == None
    ensures file.Some? ==> TableOf(fields, Lines(file.value)) && r == Some(Loaded(fields, f, DEFAULTS))
  {
    hide TableOf, Lines, GetFloat, GetBool, LoadedBand, SpeakerKey, HwEqBandKey;
    fields := map[];
    if file == None {
      return None, fields;
    }
    var table := ReadFields(file.value);
    var azimuths, distances := DEFAULTS.azimuths, DEFAULTS.distances;
    var muted := DEFAULTS.muted;
    for i := 0 to SPEAKER_COUNT
      invariant forall k | 0 <= k < SPEAKER_COUNT ::
        azimuths[k] == if k < i then GetFloat(table, f, SpeakerKey(k, "azimuth"), DEFAULTS.azimuths[k]) else DEFAULTS.azimuths[k]
      invariant forall k | 0 <= k < SPEAKER_COUNT ::
        distances[k] == if k < i then GetFloat(table, f, SpeakerKey(k, "distance"), DEFAULTS.distances[k]) else DEFAULTS.distances[k]
      invariant forall k | 0 <= k < SPEAKER_COUNT ::
        muted[k] == if k < i then GetBool(table, SpeakerKey(k, "muted"), DEFAULTS.muted[k]) else DEFAULTS.muted[k]
    {
      azimuths := azimuths[i := GetFloat(table, f, SpeakerKey(i, "azimuth"), azimuths[i])];
      distances := distances[i := GetFloat(table, f, SpeakerKey(i, "distance"), distances[i])];
      muted := muted[i := GetBool(table, SpeakerKey(i, "muted"), muted[i])];
    }
    var bands := DEFAULTS.bands;
    for i := 0 to MAX_EQ_BANDS
      invariant forall k | 0 <= k < MAX_EQ_BANDS ::
        bands[k] == if k < i then LoadedBand(table, f, k, DEFAULTS.bands[k]) else DEFAULTS.bands[k]
    {
      bands := bands[i := LoadedBand(table, f, i, bands[i])];
    }
    var bass := BassEnhancerSettings(
      GetBool(table, "bass_enhancer.enabled", DEFAULTS.bassEnhancer.enabled),
      GetFloat(table, f, "bass_enhancer.cutoff_hz", DEFAULTS.bassEnhancer.cutoffHz),
      GetFloat(table, f, "bass_enhancer.drive", DEFAULTS.bassEnhancer.drive),
      GetFloat(table, f, "bass_enhancer.mix", DEFAULTS.bassEnhancer.mix));
    ghost var expected := Loaded(table, f, DEFAULTS);
    assert azimuths == expected.azimuths && distances == expected.distances;
    assert muted == expected.muted && bands == expected.bands;
    fields := table;
    r := Some(PersistedSettings(
      AsByte(GetLong(table, "mode", DEFAULTS.mode)), azimuths, distances, muted,
      GetBool(table, "near_field", DEFAULTS.nearField), GetString(table, "output_device", DEFAULTS.device),
      GetString(table, "hrtf_display_name", DEFAULTS.hrtf), bands, bass));
  }

  lemma SpeakerFields(s: PersistedSettings, show: word -> string, i: nat)
    requires i < SPEAKER_COUNT
    ensures var n := SPEAKER_FIELDS + 3 * i;
            && KeyAt(n) == SpeakerKey(i, "azimuth") && ValueAt(s, show, n) == show(s.azimuths[i])
            && KeyAt(n + 1) == SpeakerKey(i, "distance") && ValueAt(s, show, n + 1) == show(s.distances[i])
            && KeyAt(n + 2) == SpeakerKey(i, "muted") && ValueAt(s, show, n + 2) == BoolText(s.muted[i])
  {
    hide SpeakerKey, BoolText;
  }

  lemma BandFields(s: PersistedSettings, show: word -> string, i: nat)
    requires i < MAX_EQ_BANDS
    ensures var n := BAND_FIELDS + 4 * i; var band := s.bands[i];
            && KeyAt(n) == HwEqBandKey(i, "type") && ValueAt(s, show, n) == NumberText(band.filterType)
            && KeyAt(n + 1) == HwEqBandKey(i, "freq") && ValueAt(s, show, n + 1) == show(band.frequencyHz)
            && KeyAt(n + 2) == HwEqBandKey(i, "gain") && ValueAt(s, show, n + 2) == show(band.gainDb)
            && KeyAt(n + 3) == HwEqBandKey(i, "q") && ValueAt(s, show, n + 3) == show(band.q)
  {
    hide HwEqBandKey, NumberText;
  }

  lemma FixedKeys()
    ensures KeyAt(0) == "mode" && KeyAt(1) == "near_field" && KeyAt(2) == "output_device" && KeyAt(3) == "hrtf_display_name"
    ensures KeyAt(65) == "bass_enhancer.enabled" && KeyAt(66) == "bass_enhancer.cutoff_hz"
    ensures KeyAt(67) == "bass_enhancer.drive" && KeyAt(68) == "bass_enhancer.mix"
  {
  }

  ghost predicate NoKnownKey(fields: map<string, string>) {
    forall n: nat | n < FIELDS :: KeyAt(n) !in fields
  }

  lemma SpeakerKeepsDefaults(fields: map<string, string>, f: FloatFormat, i: nat)
    requires NoKnownKey(fields) && i < SPEAKER_COUNT
    ensures GetFloat(fields, f, SpeakerKey(i, "azimuth"), DEFAULTS.azimuths[i]) == DEFAULTS.azimuths[i]
    ensures GetFloat(fields, f, SpeakerKey(i, "distance"), DEFAULTS.distances[i]) == DEFAULTS.distances[i]
    ensures GetBool(fields, SpeakerKey(i, "muted"), DEFAULTS.muted[i]) == DEFAULTS.muted[i]
  {
    hide KeyAt, SpeakerKey;
    var n := SPEAKER_FIELDS + 3 * i;
    SpeakerFields(DEFAULTS, f.show, i);
    assert KeyAt(n) !in fields && KeyAt(n + 1) !in fields && KeyAt(n + 2) !in fields;
  }

  lemma BandKeepsDefaults(fields: map<string, string>, f: FloatFormat, i: nat)
    requires NoKnownKey(fields) && i < MAX_EQ_BANDS
    ensures LoadedBand(fields, f, i, DEFAULTS.bands[i]) == DEFAULTS.bands[i]
  {
    hide KeyAt, HwEqBandKey;
    var n := BAND_FIELDS + 4 * i;
    BandFields(DEFAULTS, f.show, i);
    assert KeyAt(n) !in fields && KeyAt(n + 1) !in fields && KeyAt(n + 2) !in fields && KeyAt(n + 3) !in fields;
  }

  /** A file without any of the known keys loads as the defaults, whatever else it holds. */
  lemma UnknownKeysKeepDefaults(fields: map<string, string>, f: FloatFormat)
    requires NoKnownKey(fields)
    ensures Loaded(fields, f, DEFAULTS) == DEFAULTS
  {
    hide SpeakerKey, LoadedBand;
    FixedKeys();
    hide KeyAt;
    var l := Loaded(fields, f, DEFAULTS);
    forall i | 0 <= i < SPEAKER_COUNT
      ensures l.azimuths[i] == DEFAULTS.azimuths[i] && l.distances[i] == DEFAULTS.distances[i] && l.muted[i] == DEFAULTS.muted[i]
    {
      SpeakerKeepsDefaults(fields, f, i);
    }
    assert l.azimuths == DEFAULTS.azimuths && l.distances == DEFAULTS.distances && l.muted == DEFAULTS.muted;
    forall i | 0 <= i < MAX_EQ_BANDS ensures l.bands[i] == DEFAULTS.bands[i] {
      BandKeepsDefaults(fields, f, i);
    }
    assert l.bands == DEFAULTS.bands;
  }

  // ------------------------------------------------------ what was saved is what is loaded

  lemma FirstLine(line: string, rest: string)
    requires '\n' !in line
    ensures Lines(line + "\n" + rest) == [line] + Lines(rest)
  {
    var t := line + ['\n'] + rest;
    FindBehind(line, '\n', rest);
    assert t[..|line|] == line && t[|line| + 1..] == rest;
  }

  lemma {:induction false} LinesOfText(lines: seq<string>, more: string)
    requires forall l | l in lines :: '\n' !in l
    ensures Lines(Text(lines) + more) == lines + Lines(more)
  {
    hide Lines, Find;
    if lines == [] {
      assert Text(lines) + more == more;
      assert lines + Lines(more) == Lines(more);
    } else {
      var rest := Text(lines[1..]) + more;
      assert Text(lines) + more == lines[0] + "\n" + rest;
      FirstLine(lines[0], rest);
      LinesOfText(lines[1..], more);
      assert [lines[0]] + (lines[1..] + Lines(more)) == lines + Lines(more);
    }
  }

  lemma KeyOfLine(key: string, value: string, other: string)
    requires '=' !in key
    ensures Lookup([key + "=" + value], other) == if other == key then Some(value) else None
  {
    var line := key + "=" + value;
    FindBehind(key, '=', value);
    OneLine(line, other);
    assert line[..|key|] == key && line[|key| + 1..] == value;
  }

  /** No key is printed before its own line. */
  lemma {:induction false} KeyIsNew(s: PersistedSettings, show: word -> string, n: nat, m: nat)
    requires n <= m < FIELDS
    ensures Lookup(FileLines(s, show, n), KeyAt(m)) == None
  {
    hide KeyAt, ValueAt, Slot, Lookup;
    if n == 0 {
      NothingRead();
    } else {
      KeyIsNew(s, show, n - 1, m);
      assert FileLines(s, show, n) == FileLines(s, show, n - 1) + [FileLine(s, show, n - 1)];
      LookupBoth(FileLines(s, show, n - 1), [FileLine(s, show, n - 1)], KeyAt(m));
      KeySlot(n - 1);
      KeySlot(m);
      KeyOfLine(KeyAt(n - 1), ValueAt(s, show, n - 1), KeyAt(m));
    }
  }

  /** Looking a printed key up gives its value. */
  lemma FieldIsFound(s: PersistedSettings, show: word -> string, n: nat, more: seq<string>)
    requires n < FIELDS
    ensures Lookup(FileLines(s, show, n) + [FileLine(s, show, n)] + more, KeyAt(n)) == Some(ValueAt(s, show, n))
  {
    hide KeyAt, ValueAt, Lookup;
    KeyIsNew(s, show, n, n);
    KeySlot(n);
    KeyOfLine(KeyAt(n), ValueAt(s, show, n), KeyAt(n));
    LookupBoth(FileLines(s, show, n), [FileLine(s, show, n)], KeyAt(n));
    LookupBoth(FileLines(s, show, n) + [FileLine(s, show, n)], more, KeyAt(n));
  }

  predicate NamesOnOneLine(s: PersistedSettings) {
    '\n' !in s.device && '\n' !in s.hrtf
  }

  lemma ValueOnOneLine(s: PersistedSettings, f: FloatFormat, n: nat)
    requires n < FIELDS && OnOneLine(f)
    requires n == 2 ==> '\n' !in s.device
    requires n == 3 ==> '\n' !in s.hrtf
    ensures '\n' !in FileLine(s, f.show, n)
  {
    KeySlot(n);
    hide KeyAt, NumberText;
    assert forall k: nat :: '\n' !in NumberText(k);
    assert '\n' !in ValueAt(s, f.show, n);
  }

  lemma {:induction false} FileLinesSplit(s: PersistedSettings, show: word -> string, n: nat) returns (more: seq<string>)
    requires n < FIELDS
    ensures FileLines(s, show, FIELDS) == FileLines(s, show, n) + [FileLine(s, show, n)] + more
  {
    hide FileLine;
    more := FileLines(s, show, FIELDS)[n + 1..];
  }

  /** A saved text with one-line names has every field in its table. */
  lemma TableHas(s: PersistedSettings, f: FloatFormat, fields: map<string, string>, n: nat)
    requires n < FIELDS && OnOneLine(f) && NamesOnOneLine(s)
    requires TableOf(fields, Lines(Text(FileLines(s, f.show, FIELDS))))
    ensures KeyAt(n) in fields && fields[KeyAt(n)] == ValueAt(s, f.show, n)
  {
    hide FileLine, KeyAt, ValueAt, Lines, Text, Lookup;
    var lines := FileLines(s, f.show, FIELDS);
    forall l | l in lines ensures '\n' !in l {
      var i: nat :| i < FIELDS && l == lines[i];
      ValueOnOneLine(s, f, i);
    }
    LinesOfText(lines, "");
    NoLines();
    assert Text(lines) + "" == Text(lines);
    assert lines + [] == lines;
    var more := FileLinesSplit(s, f.show, n);
    FieldIsFound(s, f.show, n, more);
  }

  function RestoredFloat(f: FloatFormat, w: word, default: word): word {
    match f.read(f.show(w)) case None => default case Some(v) => v
  }

  function RestoredBand(f: FloatFormat, b: EqBand, d: EqBand): EqBand {
    EqBand(b.filterType, RestoredFloat(f, b.frequencyHz, d.frequencyHz), RestoredFloat(f, b.gainDb, d.gainDb),
           RestoredFloat(f, b.q, d.q))
  }

  /** The settings with every float printed and read back once. */
  function Restored(s: PersistedSettings, f: FloatFormat): PersistedSettings {
    s.(azimuths := seq(SPEAKER_COUNT, i requires 0 <= i < SPEAKER_COUNT => RestoredFloat(f, s.azimuths[i], DEFAULTS.azimuths[i])),
       distances := seq(SPEAKER_COUNT, i requires 0 <= i < SPEAKER_COUNT => RestoredFloat(f, s.distances[i], DEFAULTS.distances[i])),
       bands := seq(MAX_EQ_BANDS, i requires 0 <= i < MAX_EQ_BANDS => RestoredBand(f, s.bands[i], DEFAULTS.bands[i])),
       bassEnhancer := BassEnhancerSettings(
         s.bassEnhancer.enabled,
         RestoredFloat(f, s.bassEnhancer.cutoffHz, DEFAULTS.bassEnhancer.cutoffHz),
         RestoredFloat(f, s.bassEnhancer.drive, DEFAULTS.bassEnhancer.drive),
         RestoredFloat(f, s.bassEnhancer.mix, DEFAULTS.bassEnhancer.mix)))
  }

  lemma BoolRoundTrip(b: bool)
    ensures BoolText(b) == "1" <==> b
  {
  }

  lemma SpeakerRestored(s: PersistedSettings, f: FloatFormat, fields: map<string, string>, i: nat)
    requires i < SPEAKER_COUNT && OnOneLine(f) && NamesOnOneLine(s)
    requires TableOf(fields, Lines(Text(FileLines(s, f.show, FIELDS))))
    ensures GetFloat(fields, f, SpeakerKey(i, "azimuth"), DEFAULTS.azimuths[i]) == RestoredFloat(f, s.azimuths[i], DEFAULTS.azimuths[i])
    ensures GetFloat(fields, f, SpeakerKey(i, "distance"), DEFAULTS.distances[i]) == RestoredFloat(f, s.distances[i], DEFAULTS.distances[i])
    ensures GetBool(fields, SpeakerKey(i, "muted"), DEFAULTS.muted[i]) == s.muted[i]
  {
    hide TableOf, Lines, Text, FileLines, SpeakerKey, BoolText, OnOneLine, NamesOnOneLine, KeyAt, ValueAt;
    var n := SPEAKER_FIELDS + 3 * i;
    SpeakerFields(s, f.show, i);
    TableHas(s, f, fields, n);
    TableHas(s, f, fields, n + 1);
    TableHas(s, f, fields, n + 2);
    BoolRoundTrip(s.muted[i]);
  }

  lemma BandRestored(s: PersistedSettings, f: FloatFormat, fields: map<string, string>, i: nat)
    requires i < MAX_EQ_BANDS && OnOneLine(f) && NamesOnOneLine(s)
    requires TableOf(fields, Lines(Text(FileLines(s, f.show, FIELDS))))
    ensures LoadedBand(fields, f, i, DEFAULTS.bands[i]) == RestoredBand(f, s.bands[i], DEFAULTS.bands[i])
  {
    hide TableOf, Lines, Text, FileLines, HwEqBandKey, NumberText, ParseLong, OnOneLine, NamesOnOneLine, KeyAt, ValueAt;
    var n := BAND_FIELDS + 4 * i;
    BandFields(s, f.show, i);
    TableHas(s, f, fields, n);
    TableHas(s, f, fields, n + 1);
    TableHas(s, f, fields, n + 2);
    TableHas(s, f, fields, n + 3);
    LongRoundTrip(s.bands[i].filterType);
  }

  /** What Load makes of a text Save wrote: every number, flag and name exactly, every float as the
      value of its own printed form. Names may contain equals signs. */
  lemma SaveThenLoad(s: PersistedSettings, f: FloatFormat, fields: map<string, string>)
    requires OnOneLine(f) && NamesOnOneLine(s)
    requires TableOf(fields, Lines(Text(FileLines(s, f.show, FIELDS))))
    ensures Loaded(fields, f, DEFAULTS) == Restored(s, f)
  {
    hide TableOf, Lines, Text, FileLines, NumberText, ParseLong, OnOneLine, NamesOnOneLine, BoolText, SpeakerKey, LoadedBand, RestoredBand;
    TableHas(s, f, fields, 0);
    LongRoundTrip(s.mode);
    TableHas(s, f, fields, 1);
    BoolRoundTrip(s.nearField);
    TableHas(s, f, fields, 2);
    TableHas(s, f, fields, 3);
    TableHas(s, f, fields, 65);
    BoolRoundTrip(s.bassEnhancer.enabled);
    TableHas(s, f, fields, 66);
    TableHas(s, f, fields, 67);
    TableHas(s, f, fields, 68);
    var l, r := Loaded(fields, f, DEFAULTS), Restored(s, f);
    forall i | 0 <= i < SPEAKER_COUNT
      ensures l.azimuths[i] == r.azimuths[i] && l.distances[i] == r.distances[i] && l.muted[i] == r.muted[i]
    {
      SpeakerRestored(s, f, fields, i);
    }
    assert l.azimuths == r.azimuths && l.distances == r.distances && l.muted == r.muted;
    forall i | 0 <= i < MAX_EQ_BANDS ensures l.bands[i] == r.bands[i] {
      BandRestored(s, f, fields, i);
    }
    assert l.bands == r.bands;
  }

  /** A name with a newline is cut there, as long as what is printed in front of it is on one line. */
  lemma NameIsCut(s: PersistedSettings, f: FloatFormat, fields: map<string, string>, n: nat)
    requires OnOneLine(f) && (n == 2 || (n == 3 && '\n' !in s.device))
    requires TableOf(fields, Lines(Text(FileLines(s, f.show, FIELDS))))
    requires '\n' in ValueAt(s, f.show, n)
    ensures KeyAt(n) in fields && '\n' !in fields[KeyAt(n)]
  {
    hide KeyAt, ValueAt, Lines, Text, Lookup, Find;
    var before, value := FileLines(s, f.show, n), ValueAt(s, f.show, n);
    var at := Find(value, '\n');
    var cut := KeyAt(n) + "=" + value[..at];
    var more := FileLinesSplit(s, f.show, n);
    var rest := value[at + 1..] + "\n" + Text(more);
    forall l | l in before ensures '\n' !in l {
      var i: nat :| i < n && l == before[i];
      ValueOnOneLine(s, f, i);
    }
    KeySlot(n);
    CutText(before, KeyAt(n) + "=", value, more, at);
    LinesOfText(before, cut + "\n" + rest);
    FirstLine(cut, rest);
    KeyIsNew(s, f.show, n, n);
    KeyOfLine(KeyAt(n), value[..at], KeyAt(n));
    LookupBoth(before, [cut] + Lines(rest), KeyAt(n));
    LookupBoth([cut], Lines(rest), KeyAt(n));
  }

  lemma CutText(before: seq<string>, key: string, value: string, more: seq<string>, at: nat)
    requires at < |value| && value[at] == '\n'
    ensures Text(before + [key + value] + more)
         == Text(before) + (key + value[..at] + "\n" + (value[at + 1..] + "\n" + Text(more)))
  {
    var line := key + value;
    hide Text;
    TextBoth(before + [line], more);
    TextBoth(before, [line]);
    TextOfOne(line);
    var a, n, b, t := value[..at], "\n", value[at + 1..], Text(more);
    assert value == a + n + b;
    assert key + (a + n + b) + n + t == key + a + n + (b + n + t);
    assert Text(before) + (line + n) + t == Text(before) + (line + n + t);
  }

  lemma TextOfOne(line: string)
    ensures Text([line]) == line + "\n"
  {
    assert Text([line][1..]) == "";
  }

  /** Both names come back exactly when neither contains a newline. */
  lemma NamesRestoredIff(s: PersistedSettings, f: FloatFormat, fields: map<string, string>)
    requires OnOneLine(f)
    requires TableOf(fields, Lines(Text(FileLines(s, f.show, FIELDS))))
    ensures var l := Loaded(fields, f, DEFAULTS);
            l.device == s.device && l.hrtf == s.hrtf <==> NamesOnOneLine(s)
  {
    if NamesOnOneLine(s) {
      hide *;
      SaveThenLoad(s, f, fields);
      RestoredNames(s, f);
    } else {
      NameIsCut(s, f, fields, if '\n' in s.device then 2 else 3);
    }
  }

  lemma RestoredNames(s: PersistedSettings, f: FloatFormat)
    ensures Restored(s, f).device == s.device && Restored(s, f).hrtf == s.hrtf
  {
  }
}
