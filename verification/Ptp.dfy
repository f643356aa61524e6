/** PTP/IP constants and the binary codecs of internal/canon/ptp.go. */
module Ptp {
  import opened Bytes

  const INIT_COMMAND_REQUEST: uint32 := 0x01
  const INIT_COMMAND_ACK: uint32 := 0x02
  const INIT_EVENT_REQUEST: uint32 := 0x03
  const INIT_EVENT_ACK: uint32 := 0x04
  const INIT_FAIL: uint32 := 0x05
  const CMD_REQUEST: uint32 := 0x06
  const CMD_RESPONSE: uint32 := 0x07
  const START_DATA: uint32 := 0x09
  const DATA: uint32 := 0x0A
  const END_DATA: uint32 := 0x0C
  const PING: uint32 := 0x0D
  const PONG: uint32 := 0x0E

  const OC_OPEN_SESSION: uint16 := 0x1002
  const OC_GET_STORAGE_IDS: uint16 := 0x1004
  const OC_GET_OBJECT_HANDLES: uint16 := 0x1007
  const OC_GET_OBJECT_INFO: uint16 := 0x1008
  const OC_GET_OBJECT: uint16 := 0x1009
  const OC_DELETE_OBJECT: uint16 := 0x100B
  const OC_SET_REMOTE_MODE: uint16 := 0x9114
  const OC_SET_EVENT_MODE: uint16 := 0x9115
  const RC_OK: uint16 := 0x2001

  const ASSOCIATION: uint16 := 0x3001
  const MAX_ARRAY: nat := 0x10_0000

  predicate IsImageFormat(format: uint16) {
    0x3800 <= format < 0x4000 || 0xB000 <= format
  }

  /** Image formats are those whose upper five bits are 00111, and everything from 0xB000 on;
      a folder is none of them. */
  lemma ImageFormats(format: uint16)
    ensures IsImageFormat(format) <==> format / 0x800 == 7 || format / 0x1000 >= 11
    ensures !IsImageFormat(ASSOCIATION) && ASSOCIATION == 0x3001
  {
  }

  // ---- uint32 arrays ----

  /** The bytes of 32-bit words, low byte first, in order. */
  function PutWords(ws: seq<uint32>): (b: seq<byte>)
    ensures |b| == 4 * |ws|
  {
    if ws == [] then [] else PutU32(ws[0]) + PutWords(ws[1..])
  }

  lemma {:induction false} WordAt(ws: seq<uint32>, i: nat)
    requires i < |ws|
    ensures PutWords(ws)[4 * i..4 * i + 4] == PutU32(ws[i])
  {
    if i > 0 {
      WordAt(ws[1..], i - 1);
      SliceOfSlice(PutWords(ws), 4, 4 * |ws|, 4 * (i - 1), 4 * i);
      assert PutWords(ws)[4..4 * |ws|] == PutWords(ws[1..]);
    }
  }

  function EncodeArray(ws: seq<uint32>): seq<byte>
  {
    PutU32(Truncate32(|ws|)) + PutWords(ws)
  }

  function GetWords(b: seq<byte>): (ws: seq<uint32>)
    ensures |ws| == |b| / 4
  {
    if |b| < 4 then [] else [GetU32(b[..4])] + GetWords(b[4..])
  }

  lemma {:induction false} GetPutWords(ws: seq<uint32>)
    ensures GetWords(PutWords(ws)) == ws
  {
    if ws != [] {
      var b := PutWords(ws);
      assert b[..4] == PutU32(ws[0]) && b[4..] == PutWords(ws[1..]);
      GetPutWords(ws[1..]);
    }
  }

  /** What parsePTPUint32Array returns; the empty result stands for nil. */
  function ParsedArray(data: seq<byte>): seq<uint32>
  {
    if |data| < 4 then []
    else
      var count := GetU32(data[..4]) as int;
      if count == 0 || count > MAX_ARRAY || count * 4 + 4 > |data| then []
      else GetWords(data[4..count * 4 + 4])
  }

  method ParseUint32Array(data: seq<byte>) returns (result: seq<uint32>)
    ensures result == ParsedArray(data)
  {
    result := [];
    if |data| < 4 {
      return;
    }
    var count := GetU32(data[..4]) as int;
    if count == 0 || count > MAX_ARRAY || count * 4 + 4 > |data| {
      return;
    }
    result := ReadWords(data[4..count * 4 + 4]);
  }

  method ReadWords(b: seq<byte>) returns (ws: seq<uint32>)
    ensures ws == GetWords(b)
  {
    hide GetU32, GetWords;
    ws := [];
    for i := 0 to |b| / 4
      invariant ws + GetWords(b[4 * i..]) == GetWords(b)
    {
      NextWord(b, 4 * i);
      ws := ws + [GetU32(b[4 * i..4 * i + 4])];
    }
    assert GetWords(b[4 * (|b| / 4)..]) == [];
  }

  lemma NextWord(b: seq<byte>, at: nat)
    requires at + 4 <= |b|
    ensures GetWords(b[at..]) == [GetU32(b[at..at + 4])] + GetWords(b[at + 4..])
  {
    hide GetU32;
    assert b[at..][..4] == b[at..at + 4] && b[at..][4..] == b[at + 4..];
  }

  /** Decoding inverts encoding for exactly the arrays within the size guard,
      whatever bytes follow. */
  lemma ArrayRoundTrip(ws: seq<uint32>, trailing: seq<byte>)
    requires |ws| < 0x1_0000_0000
    ensures ParsedArray(EncodeArray(ws) + trailing) == ws <==> |ws| <= MAX_ARRAY
  {
    var data := EncodeArray(ws) + trailing;
    assert data[..4] == PutU32(|ws|);
    if 0 < |ws| <= MAX_ARRAY {
      assert data[4..|ws| * 4 + 4] == PutWords(ws);
      GetPutWords(ws);
    }
  }

  lemma {:induction false} WordsAt(b: seq<byte>, i: nat)
    requires 4 * i + 4 <= |b|
    ensures GetWords(b)[i] == GetU32(b[4 * i..4 * i + 4])
  {
    hide GetU32;
    if i > 0 {
      WordsAt(b[4..], i - 1);
      SliceOfSlice(b, 4, |b|, 4 * (i - 1), 4 * (i - 1) + 4);
      assert b[4..] == b[4..|b|];
    }
  }

  /** On every byte string the array has the elements its count announces, word by word,
      or, when that is not within the guard or not all there, none. */
  lemma ArrayElements(data: seq<byte>, count: uint32)
    requires |data| >= 4 ==> Spells32(data, 0, count)
    ensures var r := ParsedArray(data);
            if |data| >= 4 && count <= 0x10_0000 && 4 * count as int + 4 <= |data|
              then |r| == count && forall i :: 0 <= i < |r| ==> Spells32(data, 4 * i + 4, r[i])
              else r == []
  {
    hide GetU32, GetWords;
    var r := ParsedArray(data);
    if |data| >= 4 {
      LittleEndian32(data, 0, count);
      assert data[..4] == data[0..4];
    }
    forall i | 0 <= i < |r|
      ensures Spells32(data, 4 * i + 4, r[i])
    {
      var words := data[4..4 * count as int + 4];
      WordsAt(words, i);
      SliceOfSlice(data, 4, 4 * count as int + 4, 4 * i, 4 * i + 4);
      LittleEndian32(data, 4 * i + 4, r[i]);
    }
  }

  // ---- UTF-16 and PTP strings ----

  /** The UTF-16 code units of one character (section 2.1 of RFC 2781). */
  function UnitsOf(c: char): (u: seq<uint16>)
    ensures 1 <= |u| <= 2
  {
    var r := c as int;
    if r < 0x1_0000 then [r]
    else [0xD800 + (r - 0x1_0000) / 0x400, 0xDC00 + (r - 0x1_0000) % 0x400]
  }

  function EncodeUnits(s: string): seq<uint16> {
    if s == [] then [] else UnitsOf(s[0]) + EncodeUnits(s[1..])
  }

  /** Decoding as in section 2.2 of RFC 2781; an unpaired surrogate becomes U+FFFD. */
  function DecodeUnits(w: seq<uint16>): string {
    if w == [] then []
    else if w[0] < 0xD800 || 0xE000 <= w[0] then [w[0] as char] + DecodeUnits(w[1..])
    else if w[0] < 0xDC00 && |w| > 1 && 0xDC00 <= w[1] < 0xE000 then
      [(0x1_0000 + (w[0] as int - 0xD800) * 0x400 + (w[1] as int - 0xDC00)) as char] + DecodeUnits(w[2..])
    else ['\U{FFFD}'] + DecodeUnits(w[1..])
  }

  lemma {:induction false} UnitsRoundTrip(s: string)
    ensures DecodeUnits(EncodeUnits(s)) == s
  {
    if s != [] {
      UnitsRoundTrip(s[1..]);
      assert EncodeUnits(s)[|UnitsOf(s[0])|..] == EncodeUnits(s[1..]);
    }
  }

  lemma {:induction false} EncodeUnitsAppend(s: string, t: string)
    ensures EncodeUnits(s + t) == EncodeUnits(s) + EncodeUnits(t)
  {
    if s == [] {
      assert s + t == t;
    } else {
      assert (s + t)[1..] == s[1..] + t;
      EncodeUnitsAppend(s[1..], t);
    }
  }

  function PutUnits(w: seq<uint16>): (b: seq<byte>)
    ensures |b| == 2 * |w|
  {
    if w == [] then [] else PutU16(w[0]) + PutUnits(w[1..])
  }

  /** The 16-bit words of `b`; an odd last byte is dropped. */
  function GetUnits(b: seq<byte>): (w: seq<uint16>)
    ensures |w| == |b| / 2
  {
    if |b| < 2 then [] else [GetU16(b[..2])] + GetUnits(b[2..])
  }

  lemma {:induction false} GetPutUnits(w: seq<uint16>)
    ensures GetUnits(PutUnits(w)) == w
  {
    if w != [] {
      var b := PutUnits(w);
      assert b[..2] == PutU16(w[0]) && b[2..] == PutUnits(w[1..]);
      GetPutUnits(w[1..]);
    }
  }

  lemma {:induction false} PutUnitsAppend(w: seq<uint16>, v: uint16)
    ensures PutUnits(w + [v]) == PutUnits(w) + PutU16(v)
  {
    if w != [] {
      assert (w + [v])[1..] == w[1..] + [v];
      PutUnitsAppend(w[1..], v);
    }
  }

  /** What encodeUTF16LE returns: the units of `s` and a null, low byte first. */
  function Utf16LE(s: string): seq<byte> {
    PutUnits(EncodeUnits(s) + [0])
  }

  method EncodeUtf16LE(s: string) returns (b: seq<byte>)
    ensures b == Utf16LE(s)
  {
    var words := EncodeUnits(s + ['\0']);
    EncodeUnitsAppend(s, ['\0']);
    assert words == EncodeUnits(s) + [0];
    b := WriteUnits(words);
  }

  method WriteUnits(words: seq<uint16>) returns (b: seq<byte>)
    ensures b == PutUnits(words)
  {
    var buf := new byte[2 * |words|];
    for i := 0 to |words|
      invariant buf[..2 * i] == PutUnits(words[..i])
    {
      var pair := PutU16(words[i]);
      buf[2 * i], buf[2 * i + 1] := pair[0], pair[1];
      PutUnitsAppend(words[..i], words[i]);
      assert words[..i + 1] == words[..i] + [words[i]];
      assert buf[..2 * (i + 1)] == PutUnits(words[..i]) + pair;
    }
    assert buf[..] == buf[..2 * |words|] && words[..|words|] == words;
    b := buf[..];
  }

  /** The string and the offset after it that parsePTPString returns. */
  function ParsedString(data: seq<byte>, offset: nat): (r: (string, nat))
    ensures offset <= r.1 && (offset < |data| ==> r.1 <= |data|)
  {
    if offset >= |data| then ([], offset)
    else if data[offset] == 0 then ([], offset + 1)
    else
      var start := offset + 1;
      var full := start + data[offset] as int * 2;
      var end := if full > |data| then |data| else full;
      (DecodeUnits(Unterminated(GetUnits(data[start..end]))), end)
  }

  function Unterminated(w: seq<uint16>): seq<uint16> {
    if |w| > 0 && w[|w| - 1] == 0 then w[..|w| - 1] else w
  }

  method ParseString(data: seq<byte>, offset: nat) returns (s: string, next: nat)
    ensures (s, next) == ParsedString(data, offset)
  {
    hide GetUnits, DecodeUnits;
    if offset >= |data| {
      return [], offset;
    }
    var numChars := data[offset];
    var start := offset + 1;
    if numChars == 0 {
      return [], start;
    }
    var end := start + numChars as int * 2;
    if end > |data| {
      end := |data|;
    }
    var words := ReadUnits(data[start..end]);
    if |words| > 0 && words[|words| - 1] == 0 {
      words := words[..|words| - 1];
    }
    return DecodeUnits(words), end;
  }

  method ReadUnits(b: seq<byte>) returns (words: seq<uint16>)
    ensures words == GetUnits(b)
  {
    hide GetU16, GetUnits;
    words := [];
    for i := 0 to |b| / 2
      invariant words + GetUnits(b[2 * i..]) == GetUnits(b)
    {
      NextUnit(b, 2 * i);
      words := words + [GetU16(b[2 * i..2 * i + 2])];
    }
    assert GetUnits(b[2 * (|b| / 2)..]) == [];
  }

  lemma NextUnit(b: seq<byte>, at: nat)
    requires at + 2 <= |b|
    ensures GetUnits(b[at..]) == [GetU16(b[at..at + 2])] + GetUnits(b[at + 2..])
  {
    hide GetU16;
    assert b[at..][..2] == b[at..at + 2] && b[at..][2..] == b[at + 2..];
  }

  /** A PTP string: the count of units with the terminator, then the units. */
  function EncodeString(s: string): (b: seq<byte>)
    requires |EncodeUnits(s)| <= 254
    ensures |b| == 2 * |EncodeUnits(s)| + 3
  {
    [|EncodeUnits(s)| + 1] + Utf16LE(s)
  }

  /** Wherever an encoded string lies in a buffer, parsing there returns it and
      the offset just behind it. */
  lemma StringRoundTrip(pre: seq<byte>, s: string, post: seq<byte>)
    requires |EncodeUnits(s)| <= 254
    ensures ParsedString(pre + EncodeString(s) + post, |pre|) == (s, |pre| + |EncodeString(s)|)
  {
    hide EncodeUnits, DecodeUnits, GetUnits, PutUnits, GetU16;
    var w := EncodeUnits(s) + [0];
    var data := pre + EncodeString(s) + post;
    var start := |pre| + 1;
    assert data[|pre|] == |w|;
    assert data[start..start + 2 * |w|] == PutUnits(w);
    GetPutUnits(w);
    assert Unterminated(w) == EncodeUnits(s);
    UnitsRoundTrip(s);
  }

  /** The empty string may be sent as a single zero byte, and there is one behind the end. */
  lemma EmptyString(pre: seq<byte>, post: seq<byte>)
    ensures ParsedString(pre + [0] + post, |pre|) == ("", |pre| + 1)
    ensures ParsedString(pre, |pre|) == ("", |pre|)
  {
    assert (pre + [0] + post)[|pre|] == 0;
  }

  /** A string without its terminator is read as well, also when the count announces more
      than there is. */
  lemma UnterminatedString(pre: seq<byte>, s: string, count: byte, post: seq<byte>)
    requires s != "" && s[|s| - 1] != '\0'
    requires count == |EncodeUnits(s)| || (count > |EncodeUnits(s)| && post == [])
    ensures ParsedString(pre + [count] + PutUnits(EncodeUnits(s)) + post, |pre|)
         == (s, |pre| + 1 + 2 * |EncodeUnits(s)|)
  {
    hide EncodeUnits, DecodeUnits, GetUnits, PutUnits, GetU16;
    var w := EncodeUnits(s);
    LastUnit(s);
    var data := pre + [count] + PutUnits(w) + post;
    var start := |pre| + 1;
    assert data[|pre|] == count;
    assert data[start..start + 2 * |w|] == PutUnits(w);
    GetPutUnits(w);
    UnitsRoundTrip(s);
  }

  lemma LastUnit(s: string)
    requires s != "" && s[|s| - 1] != '\0'
    ensures EncodeUnits(s) != [] && EncodeUnits(s)[|EncodeUnits(s)| - 1] != 0
  {
    var m := |s| - 1;
    EncodeUnitsAppend(s[..m], [s[m]]);
    assert s == s[..m] + [s[m]];
    assert EncodeUnits([s[m]]) == UnitsOf(s[m]);
  }

  /** The name the client gives itself, byte for byte: each character of the Basic
      Multilingual Plane is its code, low byte first, and two zero bytes end it. */
  lemma {:induction false} PlainUtf16(s: string, i: nat)
    requires forall j :: 0 <= j < |s| ==> s[j] as int < 0x1_0000
    requires i < |s|
    ensures |Utf16LE(s)| == 2 * |s| + 2 && Spells16(Utf16LE(s), 2 * i, s[i] as int) && Spells16(Utf16LE(s), 2 * |s|, 0)
  {
    hide PutUnits;
    var w := EncodeUnits(s) + [0];
    PlainUnits(s);
    UnitAt(w, i);
    UnitAt(w, |s|);
    LittleEndian16(Utf16LE(s), 2 * i, s[i] as int);
    LittleEndian16(Utf16LE(s), 2 * |s|, 0);
  }

  lemma {:induction false} PlainUnits(s: string)
    requires forall j :: 0 <= j < |s| ==> s[j] as int < 0x1_0000
    ensures |EncodeUnits(s)| == |s| && forall i :: 0 <= i < |s| ==> EncodeUnits(s)[i] == s[i] as int
  {
    if s != [] {
      PlainUnits(s[1..]);
    }
  }

  lemma {:induction false} UnitAt(w: seq<uint16>, i: nat)
    requires i < |w|
    ensures PutUnits(w)[2 * i..2 * i + 2] == PutU16(w[i]) && GetU16(PutUnits(w)[2 * i..2 * i + 2]) == w[i]
  {
    if i > 0 {
      UnitAt(w[1..], i - 1);
      SliceOfSlice(PutUnits(w), 2, 2 * |w|, 2 * (i - 1), 2 * i);
      assert PutUnits(w)[2..2 * |w|] == PutUnits(w[1..]);
    }
  }

  /** The example of section 2.1 of RFC 2781's surrogates, and what becomes of half a pair. */
  lemma Surrogates()
    ensures EncodeUnits("\U{10437}") == [0xD801, 0xDC37]
    ensures DecodeUnits([0xD801]) == DecodeUnits([0xDC37]) == "\U{FFFD}"
    ensures DecodeUnits([0xDC37, 0xD801]) == "\U{FFFD}\U{FFFD}"
  {
    assert DecodeUnits([]) == "";
    assert [0xDC37, 0xD801][1..] == [0xD801 as uint16];
  }

  // ---- ObjectInfo ----

  datatype ObjectInfo = ObjectInfo(format: uint16, parentHandle: uint32, filename: string, captureDate: string)

  /** An ObjectInfo dataset in the field order of ISO 15740, section 5.5.2. */
  datatype Dataset = Dataset(
    storageID: uint32, format: uint16, protection: uint16, size: uint32,
    thumbFormat: uint16, thumbSize: uint32, thumbWidth: uint32, thumbHeight: uint32,
    width: uint32, height: uint32, depth: uint32, parent: uint32,
    assocType: uint16, assocDesc: uint32, sequence: uint32,
    filename: string, captureDate: string)

  ghost predicate Encodable(d: Dataset) {
    |EncodeUnits(d.filename)| <= 254 && |EncodeUnits(d.captureDate)| <= 254
  }

  function FixedFields(d: Dataset): (b: seq<byte>)
    ensures |b| == 52
  {
    PutU32(d.storageID) + PutU16(d.format) + PutU16(d.protection) + PutU32(d.size)
    + PutU16(d.thumbFormat) + PutU32(d.thumbSize) + PutU32(d.thumbWidth) + PutU32(d.thumbHeight)
    + PutU32(d.width) + PutU32(d.height) + PutU32(d.depth) + PutU32(d.parent)
    + PutU16(d.assocType) + PutU32(d.assocDesc) + PutU32(d.sequence)
  }

  ghost function EncodeDataset(d: Dataset): seq<byte>
    requires Encodable(d)
  {
    FixedFields(d) + EncodeString(d.filename) + EncodeString(d.captureDate)
  }

  function ParseObjectInfo(data: seq<byte>): ObjectInfo {
    if |data| < 6 then ObjectInfo(0, 0, [], [])
    else
      var format := GetU16(data[4..6]);
      var parentHandle := if |data| >= 36 then GetU32(data[32..36]) else 0;
      if |data| <= 52 then ObjectInfo(format, parentHandle, [], [])
      else
        var (filename, next) := ParsedString(data, 52);
        ObjectInfo(format, parentHandle, filename, ParsedString(data, next).0)
  }

  /** Format, file name and date survive encoding and parsing whatever follows them.
      The parent handle is read from bytes 32 to 35, which hold the upper half of the
      image height and the lower half of the depth, so it survives only when those
      two halves happen to spell it. */
  lemma ObjectInfoRoundTrip(d: Dataset, trailing: seq<byte>)
    requires Encodable(d)
    ensures var info := ParseObjectInfo(EncodeDataset(d) + trailing);
            && info.format == d.format
            && info.filename == d.filename
            && info.captureDate == d.captureDate
            && (info.parentHandle == d.parent <==> d.parent == d.height / 0x1_0000 + d.depth % 0x1_0000 * 0x1_0000)
  {
    hide EncodeUnits, EncodeString, ParsedString, FixedFields, GetU16, GetU32, PutU16, PutU32;
    var fixed := FixedFields(d);
    var name, date := EncodeString(d.filename), EncodeString(d.captureDate);
    var data := EncodeDataset(d) + trailing;
    FixedFieldsRead(d);
    assert data[4..6] == fixed[4..6] && data[32..36] == fixed[32..36];
    assert data == fixed + name + (date + trailing);
    StringRoundTrip(fixed, d.filename, date + trailing);
    assert data == (fixed + name) + date + trailing;
    StringRoundTrip(fixed + name, d.captureDate, trailing);
  }

  /** A dataset that breaks off within its fixed fields has no name and no date, and a
      format only when that has arrived. */
  lemma ShortObjectInfo(d: Dataset, n: nat)
    requires n <= 52
    ensures var info := ParseObjectInfo(FixedFields(d)[..n]);
            && info.format == (if n >= 6 then d.format else 0)
            && info.filename == "" == info.captureDate
            && (n < 36 ==> info.parentHandle == 0)
  {
    hide FixedFields, GetU16, GetU32;
    FixedFieldsRead(d);
    var data := FixedFields(d)[..n];
    if n >= 6 {
      assert data[4..6] == FixedFields(d)[4..6];
    }
  }

  lemma FixedFieldsRead(d: Dataset)
    ensures GetU16(FixedFields(d)[4..6]) == d.format
    ensures GetU32(FixedFields(d)[32..36]) == d.height / 0x1_0000 + d.depth % 0x1_0000 * 0x1_0000
  {
    hide GetU16, GetU32, PutU16, PutU32;
    var head := PutU32(d.storageID) + PutU16(d.format);
    var upTo := head + PutU16(d.protection) + PutU32(d.size)
      + PutU16(d.thumbFormat) + PutU32(d.thumbSize) + PutU32(d.thumbWidth) + PutU32(d.thumbHeight) + PutU32(d.width);
    var middle := PutU32(d.height) + PutU32(d.depth);
    var post := PutU32(d.parent) + PutU16(d.assocType) + PutU32(d.assocDesc) + PutU32(d.sequence);
    assert |upTo| == 30 && upTo[..6] == head;
    assert FixedFields(d) == upTo + middle + post;
    assert FixedFields(d)[4..6] == head[4..6] == PutU16(d.format);
    assert FixedFields(d)[32..36] == middle[2..6] == PutU32(d.height)[2..] + PutU32(d.depth)[..2];
    HalvesOf(d.height, d.depth);
  }

  lemma HalvesOf(a: uint32, b: uint32)
    ensures GetU32(PutU32(a)[2..] + PutU32(b)[..2]) == a / 0x1_0000 + b % 0x1_0000 * 0x1_0000
  {
    var high, low := a / 0x100 / 0x100, b / 0x100 % 0x100;
    assert PutU32(a)[2..] + PutU32(b)[..2] == [high % 0x100, high / 0x100, b % 0x100, low];
    assert high == a / 0x1_0000;
    assert b % 0x1_0000 == b % 0x100 + 0x100 * low;
  }

  /** A dataset whose parent handle the parser gets wrong. */
  lemma ParentHandleLost()
    ensures exists d: Dataset :: Encodable(d) && ParseObjectInfo(EncodeDataset(d)).parentHandle != d.parent
  {
    var d := Dataset(0x1_0001, 0x3801, 0, 0, 0, 0, 0, 0, 0, 0, 0, 0x9000_0000, 0, 0, 0, [], []);
    ObjectInfoRoundTrip(d, []);
    assert EncodeDataset(d) + [] == EncodeDataset(d);
  }
}
