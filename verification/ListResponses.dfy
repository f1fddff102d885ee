/** The four list responses: devices and content streams (two strings an entry), HRTF names and
    preset names (one string an entry). Entries are dropped whole from the end. */
module ListResponses {
  import opened Lists
  import opened Wire
  import opened Protocol

  /** The lists the daemon sends. */
  datatype ListKind = Devices | HrtfNames | ContentStreams | EqPresets

  function ListOpcode(kind: ListKind): (opcode: byte) {
    match kind
    case Devices => DEVICE_LIST_RESPONSE
    case HrtfNames => HRTF_CATALOG_RESPONSE
    case ContentStreams => CONTENT_STREAM_LIST_RESPONSE
    case EqPresets => EQ_PRESET_CATALOG_RESPONSE
  }

  /** The strings of one entry: name and description, name, application and media, name. */
  function Arity(kind: ListKind): (n: nat)
    ensures 1 <= n <= 2
  {
    if kind.Devices? || kind.ContentStreams? then 2 else 1
  }

  /** The strings of one list entry. */
  type Entry = e: seq<seq<byte>> | 1 <= |e| <= 2 witness [[]]

  function EntryBytes(e: seq<seq<byte>>): (b: seq<byte>)
    ensures |b| >= 2 * |e|
  {
    if e == [] then [] else StringBytes(e[0]) + EntryBytes(e[1..])
  }

  function EntriesBytes(entries: seq<Entry>): (b: seq<byte>)
    ensures |b| >= 2 * |entries|
  {
    if entries == [] then [] else EntryBytes(entries[0]) + EntriesBytes(entries[1..])
  }

  /** The entries and the two bytes of their count stay within the payload limit. */
  predicate Fits(entries: seq<Entry>) {
    2 + |EntriesBytes(entries)| <= MAX_PAYLOAD_SIZE
  }

  /** The longest prefix that fits. */
  function FittingPrefix(entries: seq<Entry>): (kept: seq<Entry>)
    ensures kept <= entries && Fits(kept)
  {
    if Fits(entries) then entries else FittingPrefix(entries[..|entries| - 1])
  }

  lemma {:induction false} EntriesAppend(entries: seq<Entry>, last: Entry)
    ensures EntriesBytes(entries + [last]) == EntriesBytes(entries) + EntryBytes(last)
  {
    if entries == [] {
      assert entries + [last] == [last];
    } else {
      assert (entries + [last])[1..] == entries[1..] + [last];
      EntriesAppend(entries[1..], last);
    }
  }

  lemma {:induction false} ShorterFits(entries: seq<Entry>, n: nat)
    requires n <= |entries| && Fits(entries)
    ensures Fits(entries[..n])
  {
    if n == |entries| {
      assert entries[..n] == entries;
    } else {
      var init := entries[..|entries| - 1];
      assert entries == init + [entries[|entries| - 1]];
      EntriesAppend(init, entries[|entries| - 1]);
      assert init[..n] == entries[..n];
      ShorterFits(init, n);
    }
  }

  /** A prefix fits exactly when it is no longer than the one that is sent. */
  lemma {:induction false} FittingPrefixIsLongest(entries: seq<Entry>, n: nat)
    requires n <= |entries|
    ensures Fits(entries[..n]) <==> n <= |FittingPrefix(entries)|
  {
    assert entries[..|entries|] == entries;
    if Fits(entries) {
      ShorterFits(entries, n);
    } else if n < |entries| {
      var init := entries[..|entries| - 1];
      assert init[..n] == entries[..n];
      FittingPrefixIsLongest(init, n);
    }
  }

  function ListMessage(kind: ListKind, entries: seq<Entry>): seq<byte>
    requires |entries| <= 0xFFFF
  {
    Message(ListOpcode(kind), Uint16Bytes(|entries|) + EntriesBytes(entries))
  }

  /** Greedy: entries are appended while they fit, and the count in front is patched at the end. */
  method EncodeList(kind: ListKind, entries: seq<Entry>) returns (m: seq<byte>)
    ensures var kept := FittingPrefix(entries); |kept| <= 0xFFFF && m == ListMessage(kind, kept)
  {
    hide FittingPrefix, Message, EntriesBytes;
    var payload: seq<byte> := [0, 0];
    var count := 0;
    assert EntriesBytes(entries[..0]) == [] by { EmptyList(entries); }
    while count < |entries|
      invariant count <= |entries| && Fits(entries[..count])
      invariant payload == [0, 0] + EntriesBytes(entries[..count])
    {
      var entry := EntryBytes(entries[count]);
      assert entries[..count + 1] == entries[..count] + [entries[count]];
      EntriesAppend(entries[..count], entries[count]);
      if |payload| + |entry| > MAX_PAYLOAD_SIZE {
        FittingPrefixIsLongest(entries, count + 1);
        break;
      }
      payload := payload + entry;
      count := count + 1;
    }
    FittingPrefixIsLongest(entries, count);
    assert FittingPrefix(entries) == entries[..count];
    payload := payload[0 := count / 0x100][1 := count % 0x100];
    assert payload == Uint16Bytes(count) + EntriesBytes(entries[..count]);
    m := Message(ListOpcode(kind), payload);
  }

  lemma EmptyList(entries: seq<Entry>)
    ensures EntriesBytes(entries[..0]) == [] && Fits(entries[..0])
  {
  }

  // ------------------------------------------------------ decoding

  function ReadEntry(p: seq<byte>, at: nat, arity: nat): (r: Option<(seq<seq<byte>>, nat)>)
    ensures r.Some? ==> |r.value.0| == arity && at <= r.value.1
    decreases arity
  {
    if arity == 0 then Some(([], at))
    else
      match ReadString(p, at)
      case None => None
      case Some((field, next)) =>
        match ReadEntry(p, next, arity - 1)
        case None => None
        case Some((fields, end)) => Some(([field] + fields, end))
  }

  function ReadEntries(p: seq<byte>, at: nat, count: nat, arity: nat): Option<seq<Entry>>
    requires 1 <= arity <= 2
    decreases count
  {
    if count == 0 then Some([])
    else
      match ReadEntry(p, at, arity)
      case None => None
      case Some((entry, next)) =>
        match ReadEntries(p, next, count - 1, arity)
        case None => None
        case Some(entries) => Some([entry] + entries)
  }

  /** A list payload announces its count; bytes behind the last entry are ignored. */
  function ListOf(p: seq<byte>, arity: nat): Option<seq<Entry>>
    requires 1 <= arity <= 2
  {
    if |p| < 2 then None else ReadEntries(p, 2, ReadUint16(p, 0), arity)
  }

  function Behind(entries: seq<Entry>, rest: Option<seq<Entry>>): Option<seq<Entry>> {
    if rest == None then None else Some(entries + rest.value)
  }

  lemma BehindNothing(rest: Option<seq<Entry>>)
    ensures Behind([], rest) == rest
  {
    if rest.Some? {
      assert [] + rest.value == rest.value;
    }
  }

  lemma BehindStep(entries: seq<Entry>, p: seq<byte>, at: nat, count: nat, arity: nat)
    requires 1 <= arity <= 2 && count > 0
    ensures Behind(entries, ReadEntries(p, at, count, arity)) ==
            match ReadEntry(p, at, arity)
            case None => None
            case Some((entry, next)) => Behind(entries + [entry], ReadEntries(p, next, count - 1, arity))
  {
    hide ReadEntry;
    match ReadEntry(p, at, arity)
    case None =>
    case Some((entry, next)) =>
      match ReadEntries(p, next, count - 1, arity)
      case None =>
      case Some(rest) => assert entries + ([entry] + rest) == (entries + [entry]) + rest;
  }

  method DecodeList(kind: ListKind, p: seq<byte>) returns (r: Option<seq<Entry>>)
    ensures r == ListOf(p, Arity(kind))
  {
    hide ReadEntry, Arity;
    var arity := Arity(kind);
    if |p| < 2 {
      return None;
    }
    var count := ReadUint16(p, 0);
    var at := 2;
    var entries: seq<Entry> := [];
    BehindNothing(ReadEntries(p, at, count, arity));
    for i := 0 to count
      invariant ListOf(p, arity) == Behind(entries, ReadEntries(p, at, count - i, arity))
    {
      BehindStep(entries, p, at, count - i, arity);
      var entry := ReadEntry(p, at, arity);
      if entry == None {
        return None;
      }
      entries := entries + [entry.value.0];
      at := entry.value.1;
    }
    assert entries + [] == entries;
    r := Some(entries);
  }

  lemma {:induction false} EntryRoundTrip(e: seq<seq<byte>>, before: seq<byte>, after: seq<byte>)
    requires |EntryBytes(e)| <= MAX_PAYLOAD_SIZE
    ensures ReadEntry(before + EntryBytes(e) + after, |before|, |e|) == Some((e, |before| + |EntryBytes(e)|))
  {
    hide ReadString, StringBytes;
    if e == [] {
    } else {
      var first, rest := StringBytes(e[0]), EntryBytes(e[1..]);
      assert before + EntryBytes(e) + after == before + first + (rest + after);
      StringRoundTrip(e[0], before, rest + after);
      assert before + EntryBytes(e) + after == (before + first) + rest + after;
      EntryRoundTrip(e[1..], before + first, after);
      assert [e[0]] + e[1..] == e;
    }
  }

  lemma {:induction false} EntriesRoundTrip(entries: seq<Entry>, arity: nat, before: seq<byte>)
    requires 1 <= arity <= 2
    requires forall e | e in entries :: |e| == arity
    requires Fits(entries)
    ensures ReadEntries(before + EntriesBytes(entries), |before|, |entries|, arity) == Some(entries)
  {
    hide EntryBytes, ReadEntry;
    if entries == [] {
    } else {
      var first, rest := EntryBytes(entries[0]), EntriesBytes(entries[1..]);
      var p := before + EntriesBytes(entries);
      assert p == before + first + rest;
      EntryRoundTrip(entries[0], before, rest);
      EntriesRoundTrip(entries[1..], arity, before + first);
      assert ReadEntries(p, |before + first|, |entries| - 1, arity) == Some(entries[1..]);
      assert [entries[0]] + entries[1..] == entries;
    }
  }

  /** A client decodes exactly the longest prefix that fits, so every index it reads denotes the same
      entry as in the daemon's list; no message is longer than header plus payload limit; and the
      header tells the four lists apart. */
  lemma ListArrives(kind: ListKind, entries: seq<Entry>)
    requires forall e | e in entries :: |e| == Arity(kind)
    ensures var kept := FittingPrefix(entries);
            && |kept| <= 0xFFFF
            && var m := ListMessage(kind, kept);
            && |m| <= HEADER_SIZE + MAX_PAYLOAD_SIZE
            && TryReadHeader(m) == Some(Header(ListOpcode(kind), |m| - HEADER_SIZE))
            && (forall other | ListOpcode(other) == m[0] :: other == kind)
            && ListOf(m[HEADER_SIZE..], Arity(kind)) == Some(kept)
            && (kept == entries <==> Fits(entries))
  {
    hide EntriesBytes, FittingPrefix, Uint16Bytes, ReadUint16, ReadEntries, Arity;
    var opcode := ListOpcode(kind);
    var kept := FittingPrefix(entries);
    var count, body := Uint16Bytes(|kept|), EntriesBytes(kept);
    var m := Message(opcode, count + body);
    HeaderRoundTrip(opcode, count + body, []);
    assert m + [] == m;
    assert m[HEADER_SIZE..] == count + body;
    Uint16RoundTrip(|kept|, [], body);
    assert [] + count + body == count + body;
    EntriesRoundTrip(kept, Arity(kind), count);
    FittingPrefixIsLongest(entries, |entries|);
    assert entries[..|entries|] == entries;
  }
}
