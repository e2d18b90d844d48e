// The text `JSON.stringify` produces for an AppData, a parser for that text,
// and the round trip between them (services/storageService.ts serialises the
// aggregate with JSON.stringify and reads it back with JSON.parse).
//
// Every emitter takes the text that follows it as a continuation `k`, so
// `Emit(x, k)` is the text of `x` followed by `k`; the parsers return the
// value and the unread rest.  Keys appear in one fixed order; JSON.stringify
// follows property creation order, which differs between records but never
// changes the length of the text.  Undefined optional properties are omitted,
// as JSON.stringify omits them.

module Json {
  import opened Types
  import opened Util

  // ---- Literals -----------------------------------------------------------

  /** Consumes the literal `lit` at the start of `s`. */
  function Expect(lit: string, s: seq<char>): (r: Option<seq<char>>)
    ensures r.Some? <==> StartsWith(s, lit)
    ensures r.Some? ==> r.value == s[|lit|..]
  {
    if StartsWith(s, lit) then Some(s[|lit|..]) else None
  }

  lemma ExpectLiteral(lit: string, k: seq<char>)
    ensures Expect(lit, lit + k) == Some(k)
  {
    assert (lit + k)[..|lit|] == lit;
    assert (lit + k)[|lit|..] == k;
  }

  // ---- String literals ----------------------------------------------------

  predicate IsHexDigit(c: char) {
    '0' <= c <= '9' || 'a' <= c <= 'f' || 'A' <= c <= 'F'
  }

  function HexValue(c: char): (v: nat)
    requires IsHexDigit(c)
    ensures v < 16
  {
    if '0' <= c <= '9' then c as int - '0' as int
    else if 'a' <= c <= 'f' then c as int - 'a' as int + 10
    else c as int - 'A' as int + 10
  }

  /** Lower-case hexadecimal digit, as JSON.stringify writes them. */
  function HexDigit(n: nat): (c: char)
    requires n < 16
    ensures IsHexDigit(c) && HexValue(c) == n
  {
    if n < 10 then ('0' as int + n) as char else ('a' as int + n - 10) as char
  }

  /** JSON.stringify's escape for one character inside a string literal:
      quote and backslash, the five named control escapes, `\u00xx` for the
      other control characters, and the character itself otherwise. */
  function EscapeChar(c: char): (r: string)
    ensures |r| > 0 && (r[0] == '\\' <==> |r| > 1)
    ensures r[0] != '"'
  {
    if c == '"' then "\\\""
    else if c == '\\' then "\\\\"
    else if c as int == 0x08 then "\\b"
    else if c as int == 0x0C then "\\f"
    else if c == '\n' then "\\n"
    else if c == '\r' then "\\r"
    else if c == '\t' then "\\t"
    else if c as int < 0x20 then "\\u00" + [HexDigit(c as int / 16), HexDigit(c as int % 16)]
    else [c]
  }

  /** The escaped characters of `s`, followed by `k`. */
  function EmitChars(s: string, k: seq<char>): (r: seq<char>)
    ensures |r| >= |s| + |k|
  {
    if s == [] then k else EscapeChar(s[0]) + EmitChars(s[1..], k)
  }

  /** A JSON string literal for `s`, followed by `k`. */
  function EmitString(s: string, k: seq<char>): seq<char> {
    "\"" + EmitChars(s, "\"" + k)
  }

  /** Decodes the escape sequence at the start of `s` (a backslash and what
      follows): the character and how many input characters it takes. */
  function Unescape(s: seq<char>): (r: Option<(char, nat)>)
    ensures r.Some? ==> 2 <= r.value.1 <= |s|
  {
    if |s| < 2 then None
    else if s[1] == '"' then Some(('"', 2))
    else if s[1] == '\\' then Some(('\\', 2))
    else if s[1] == '/' then Some(('/', 2))
    else if s[1] == 'b' then Some((0x08 as char, 2))
    else if s[1] == 'f' then Some((0x0C as char, 2))
    else if s[1] == 'n' then Some(('\n', 2))
    else if s[1] == 'r' then Some(('\r', 2))
    else if s[1] == 't' then Some(('\t', 2))
    else if s[1] == 'u' && |s| >= 6
         && IsHexDigit(s[2]) && IsHexDigit(s[3]) && IsHexDigit(s[4]) && IsHexDigit(s[5]) then
      var v := HexValue(s[2]) * 4096 + HexValue(s[3]) * 256 + HexValue(s[4]) * 16 + HexValue(s[5]);
      if v < 0xD800 || 0xE000 <= v then Some((v as char, 6)) else None
    else None
  }

  /** The characters of a string literal up to its closing quote, and the
      text after that quote. */
  function ParseChars(s: seq<char>): (r: Option<(string, seq<char>)>)
    ensures r.Some? ==> |r.value.1| < |s|
    decreases |s|
  {
    if |s| == 0 then None
    else if s[0] == '"' then Some(([], s[1..]))
    else if s[0] == '\\' then
      var e :- Unescape(s);
      var t :- ParseChars(s[e.1..]);
      Some(([e.0] + t.0, t.1))
    else if s[0] as int < 0x20 then None
    else
      var t :- ParseChars(s[1..]);
      Some(([s[0]] + t.0, t.1))
  }

  function ParseString(s: seq<char>): (r: Option<(string, seq<char>)>)
    ensures r.Some? ==> |r.value.1| < |s|
  {
    var s1 :- Expect("\"", s);
    ParseChars(s1)
  }

  /** Decoding the escape of `c` in front of a parsable rest yields `c`. */
  lemma EscapeCharRoundTrip(c: char, rest: seq<char>, t: string, k: seq<char>)
    requires ParseChars(rest) == Some((t, k))
    ensures ParseChars(EscapeChar(c) + rest) == Some(([c] + t, k))
  {
    var e := EscapeChar(c);
    var s := e + rest;
    assert s[..|e|] == e && s[|e|..] == rest;
    if |e| == 1 {
      assert s[1..] == rest;
    } else if c as int < 0x20 && c != '\n' && c != '\r' && c != '\t'
              && c as int != 0x08 && c as int != 0x0C {
      var hi, lo := c as int / 16, c as int % 16;
      assert s[1] == 'u' && s[2] == '0' && s[3] == '0';
      assert s[4] == HexDigit(hi) && s[5] == HexDigit(lo);
      assert HexValue(s[2]) * 4096 + HexValue(s[3]) * 256 + HexValue(s[4]) * 16 + HexValue(s[5])
          == c as int;
      assert Unescape(s) == Some((c, 6));
    } else {
      assert |e| == 2;
      assert Unescape(s) == Some((c, 2));
    }
  }

  lemma {:induction false} CharsRoundTrip(s: string, k: seq<char>)
    ensures ParseChars(EmitChars(s, "\"" + k)) == Some((s, k))
  {
    if s == [] {
      assert ("\"" + k)[1..] == k;
    } else {
      CharsRoundTrip(s[1..], k);
      EscapeCharRoundTrip(s[0], EmitChars(s[1..], "\"" + k), s[1..], k);
      assert [s[0]] + s[1..] == s;
    }
  }

  lemma StringRoundTrip(s: string, k: seq<char>)
    ensures ParseString(EmitString(s, k)) == Some((s, k))
  {
    ExpectLiteral("\"", EmitChars(s, "\"" + k));
    CharsRoundTrip(s, k);
  }

  // ---- Numbers ------------------------------------------------------------

  /** A non-negative integer (a millisecond timestamp), followed by `k`. */
  function EmitNat(n: nat, k: seq<char>): seq<char> {
    NatToString(n) + k
  }

  /** Length of the run of digits at the start of `s`. */
  function DigitSpan(s: seq<char>): (n: nat)
    ensures n <= |s|
    ensures forall i :: 0 <= i < n ==> IsDigit(s[i])
    ensures n < |s| ==> !IsDigit(s[n])
  {
    if |s| > 0 && IsDigit(s[0]) then 1 + DigitSpan(s[1..]) else 0
  }

  /** A JSON number without sign, fraction or exponent: a run of digits
      with no leading zero unless the number is 0 itself. */
  function ParseNat(s: seq<char>): (r: Option<(nat, seq<char>)>)
    ensures r.Some? ==> |r.value.1| < |s|
    ensures |s| > 1 && s[0] == '0' && IsDigit(s[1]) ==> r.None?
  {
    var n := DigitSpan(s);
    if n == 0 || (n > 1 && s[0] == '0') then None else Some((DigitsValue(s[..n]), s[n..]))
  }

  lemma {:induction false} DigitSpanOfDigits(t: seq<char>, k: seq<char>)
    requires forall i :: 0 <= i < |t| ==> IsDigit(t[i])
    requires k == [] || !IsDigit(k[0])
    ensures DigitSpan(t + k) == |t|
  {
    if t != [] {
      assert (t + k)[1..] == t[1..] + k;
      DigitSpanOfDigits(t[1..], k);
    }
  }

  lemma NatRoundTrip(n: nat, k: seq<char>)
    requires k == [] || !IsDigit(k[0])
    ensures ParseNat(EmitNat(n, k)) == Some((n, k))
  {
    var t := NatToString(n);
    DigitSpanOfDigits(t, k);
    assert (t + k)[..|t|] == t && (t + k)[|t|..] == k;
    NatToStringValue(n);
  }

  // ---- Properties -------------------------------------------------------

  /** A property: its key (with the separator before it), then the string
      value, then `k`. */
  function EmitField(key: string, v: string, k: seq<char>): seq<char> {
    key + EmitString(v, k)
  }

  function ParseField(key: string, s: seq<char>): (r: Option<(string, seq<char>)>)
    ensures r.Some? ==> |r.value.1| < |s|
  {
    var s1 :- Expect(key, s);
    ParseString(s1)
  }

  lemma FieldRoundTrip(key: string, v: string, k: seq<char>)
    ensures ParseField(key, EmitField(key, v, k)) == Some((v, k))
  {
    ExpectLiteral(key, EmitString(v, k));
    StringRoundTrip(v, k);
  }

  /** A numeric property. */
  function EmitNatField(key: string, n: nat, k: seq<char>): seq<char> {
    key + EmitNat(n, k)
  }

  function ParseNatField(key: string, s: seq<char>): (r: Option<(nat, seq<char>)>)
    ensures r.Some? ==> |r.value.1| < |s|
  {
    var s1 :- Expect(key, s);
    ParseNat(s1)
  }

  lemma NatFieldRoundTrip(key: string, n: nat, k: seq<char>)
    requires k == [] || !IsDigit(k[0])
    ensures ParseNatField(key, EmitNatField(key, n, k)) == Some((n, k))
  {
    ExpectLiteral(key, EmitNat(n, k));
    NatRoundTrip(n, k);
  }

  /** An optional property: present when defined, omitted otherwise. */
  function EmitOptional(key: string, v: Option<string>, k: seq<char>): seq<char> {
    match v
    case None => k
    case Some(x) => EmitField(key, x, k)
  }

  function ParseOptional(key: string, s: seq<char>): (r: Option<(Option<string>, seq<char>)>)
    ensures r.Some? ==> |r.value.1| <= |s|
  {
    if StartsWith(s, key) then
      var t :- ParseField(key, s);
      Some((Some(t.0), t.1))
    else Some((None, s))
  }

  lemma OptionalRoundTrip(key: string, v: Option<string>, k: seq<char>)
    requires v.None? ==> !StartsWith(k, key)
    ensures ParseOptional(key, EmitOptional(key, v, k)) == Some((v, k))
  {
    if v.Some? {
      FieldRoundTrip(key, v.value, k);
      ExpectLiteral(key, EmitString(v.value, k));
    }
  }

  /** Text that starts with one key does not start with a key that differs
      from it at position `j`. */
  lemma KeysDiffer(key: string, other: string, k: seq<char>, j: nat)
    requires j < |key| && j < |other| && key[j] != other[j]
    ensures !StartsWith(other + k, key)
  {
    assert (other + k)[j] == other[j];
  }

  // ---- Enumerations -------------------------------------------------------

  function StatusText(s: DeviceStatus): string {
    match s
    case Available => "available"
    case Borrowed => "borrowed"
  }

  function StatusOf(t: string): Option<DeviceStatus> {
    if t == "available" then Some(Available)
    else if t == "borrowed" then Some(Borrowed)
    else None
  }

  function ActionText(a: ActionType): string {
    match a
    case Add => "add"
    case Borrow => "borrow"
    case Return => "return"
    case Delete => "delete"
  }

  function ActionOf(t: string): Option<ActionType> {
    if t == "add" then Some(Add)
    else if t == "borrow" then Some(Borrow)
    else if t == "return" then Some(Return)
    else if t == "delete" then Some(Delete)
    else None
  }

  lemma StatusRoundTrip(s: DeviceStatus)
    ensures StatusOf(StatusText(s)) == Some(s)
  {
  }

  lemma ActionRoundTrip(a: ActionType)
    ensures ActionOf(ActionText(a)) == Some(a)
  {
  }

  // ---- Devices ------------------------------------------------------------

  function EmitDevice(d: Device, k: seq<char>): (r: seq<char>)
    ensures |r| > 0 && r[0] == '{'
  {
    EmitField("{\"id\":", d.id,
    EmitField(",\"name\":", d.name,
    EmitField(",\"type\":", d.kind,
    EmitOptional(",\"image\":", d.image,
    EmitField(",\"status\":", StatusText(d.status),
    EmitOptional(",\"borrower\":", d.borrower,
    EmitNatField(",\"lastUpdated\":", d.lastUpdated, "}" + k)))))))
  }

  /** The properties before `status`: id, name, type and the optional image. */
  function ParseDeviceHead(s: seq<char>): (r: Option<((string, string, string, Option<string>), seq<char>)>)
    ensures r.Some? ==> |r.value.1| < |s|
  {
    var id :- ParseField("{\"id\":", s);
    var name :- ParseField(",\"name\":", id.1);
    var kind :- ParseField(",\"type\":", name.1);
    var image :- ParseOptional(",\"image\":", kind.1);
    Some(((id.0, name.0, kind.0, image.0), image.1))
  }

  /** The properties from `status` on, and the closing brace. */
  function ParseDeviceTail(s: seq<char>): (r: Option<((DeviceStatus, Option<string>, nat), seq<char>)>)
    ensures r.Some? ==> |r.value.1| < |s|
  {
    var status :- ParseField(",\"status\":", s);
    var st :- StatusOf(status.0);
    var borrower :- ParseOptional(",\"borrower\":", status.1);
    var time :- ParseNatField(",\"lastUpdated\":", borrower.1);
    var rest :- Expect("}", time.1);
    Some(((st, borrower.0, time.0), rest))
  }

  function ParseDevice(s: seq<char>): (r: Option<(Device, seq<char>)>)
    ensures r.Some? ==> |r.value.1| < |s|
  {
    var head :- ParseDeviceHead(s);
    var tail :- ParseDeviceTail(head.1);
    var (id, name, kind, image) := head.0;
    var (status, borrower, time) := tail.0;
    Some((Device(id, name, kind, image, status, borrower, time), tail.1))
  }

  /** The text after the optional image property. */
  function DeviceTailText(d: Device, k: seq<char>): seq<char> {
    EmitField(",\"status\":", StatusText(d.status),
    EmitOptional(",\"borrower\":", d.borrower,
    EmitNatField(",\"lastUpdated\":", d.lastUpdated, "}" + k)))
  }

  lemma DeviceTailRoundTrip(d: Device, k: seq<char>)
    ensures ParseDeviceTail(DeviceTailText(d, k)) == Some(((d.status, d.borrower, d.lastUpdated), k))
  {
    var k6 := "}" + k;
    var k5 := EmitNatField(",\"lastUpdated\":", d.lastUpdated, k6);
    var k4 := EmitOptional(",\"borrower\":", d.borrower, k5);
    FieldRoundTrip(",\"status\":", StatusText(d.status), k4);
    StatusRoundTrip(d.status);
    KeysDiffer(",\"borrower\":", ",\"lastUpdated\":", EmitNat(d.lastUpdated, k6), 2);
    OptionalRoundTrip(",\"borrower\":", d.borrower, k5);
    NatFieldRoundTrip(",\"lastUpdated\":", d.lastUpdated, k6);
    ExpectLiteral("}", k);
  }

  lemma DeviceHeadRoundTrip(d: Device, k: seq<char>)
    ensures ParseDeviceHead(EmitDevice(d, k))
         == Some(((d.id, d.name, d.kind, d.image), DeviceTailText(d, k)))
  {
    var k3 := DeviceTailText(d, k);
    var k2 := EmitOptional(",\"image\":", d.image, k3);
    var k1 := EmitField(",\"type\":", d.kind, k2);
    var k0 := EmitField(",\"name\":", d.name, k1);
    assert EmitDevice(d, k) == EmitField("{\"id\":", d.id, k0);
    FieldRoundTrip("{\"id\":", d.id, k0);
    FieldRoundTrip(",\"name\":", d.name, k1);
    FieldRoundTrip(",\"type\":", d.kind, k2);
    KeysDiffer(",\"image\":", ",\"status\":", EmitString(StatusText(d.status),
      EmitOptional(",\"borrower\":", d.borrower,
      EmitNatField(",\"lastUpdated\":", d.lastUpdated, "}" + k))), 2);
    OptionalRoundTrip(",\"image\":", d.image, k3);
  }

  lemma DeviceRoundTrip(d: Device, k: seq<char>)
    ensures ParseDevice(EmitDevice(d, k)) == Some((d, k))
  {
    DeviceHeadRoundTrip(d, k);
    DeviceTailRoundTrip(d, k);
  }

  // ---- History records ----------------------------------------------------

  function EmitRecord(h: HistoryRecord, k: seq<char>): (r: seq<char>)
    ensures |r| > 0 && r[0] == '{'
  {
    EmitField("{\"id\":", h.id,
    EmitField(",\"deviceId\":", h.deviceId,
    EmitField(",\"deviceName\":", h.deviceName,
    EmitField(",\"action\":", ActionText(h.action),
    EmitOptional(",\"borrower\":", h.borrower,
    EmitNatField(",\"timestamp\":", h.timestamp, "}" + k))))))
  }

  /** The properties before `borrower`: id, deviceId, deviceName, action. */
  function ParseRecordHead(s: seq<char>): (r: Option<((string, string, string, ActionType), seq<char>)>)
    ensures r.Some? ==> |r.value.1| < |s|
  {
    var id :- ParseField("{\"id\":", s);
    var deviceId :- ParseField(",\"deviceId\":", id.1);
    var deviceName :- ParseField(",\"deviceName\":", deviceId.1);
    var action :- ParseField(",\"action\":", deviceName.1);
    var act :- ActionOf(action.0);
    Some(((id.0, deviceId.0, deviceName.0, act), action.1))
  }

  /** The optional borrower, the timestamp and the closing brace. */
  function ParseRecordTail(s: seq<char>): (r: Option<((Option<string>, nat), seq<char>)>)
    ensures r.Some? ==> |r.value.1| < |s|
  {
    var borrower :- ParseOptional(",\"borrower\":", s);
    var time :- ParseNatField(",\"timestamp\":", borrower.1);
    var rest :- Expect("}", time.1);
    Some(((borrower.0, time.0), rest))
  }

  function ParseRecord(s: seq<char>): (r: Option<(HistoryRecord, seq<char>)>)
    ensures r.Some? ==> |r.value.1| < |s|
  {
    var head :- ParseRecordHead(s);
    var tail :- ParseRecordTail(head.1);
    var (id, deviceId, deviceName, action) := head.0;
    var (borrower, time) := tail.0;
    Some((HistoryRecord(id, deviceId, deviceName, action, borrower, time), tail.1))
  }

  /** The text after the action property. */
  function RecordTailText(h: HistoryRecord, k: seq<char>): seq<char> {
    EmitOptional(",\"borrower\":", h.borrower,
    EmitNatField(",\"timestamp\":", h.timestamp, "}" + k))
  }

  lemma RecordTailRoundTrip(h: HistoryRecord, k: seq<char>)
    ensures ParseRecordTail(RecordTailText(h, k)) == Some(((h.borrower, h.timestamp), k))
  {
    var k5 := "}" + k;
    var k4 := EmitNatField(",\"timestamp\":", h.timestamp, k5);
    KeysDiffer(",\"borrower\":", ",\"timestamp\":", EmitNat(h.timestamp, k5), 2);
    OptionalRoundTrip(",\"borrower\":", h.borrower, k4);
    NatFieldRoundTrip(",\"timestamp\":", h.timestamp, k5);
    ExpectLiteral("}", k);
  }

  lemma RecordHeadRoundTrip(h: HistoryRecord, k: seq<char>)
    ensures ParseRecordHead(EmitRecord(h, k))
         == Some(((h.id, h.deviceId, h.deviceName, h.action), RecordTailText(h, k)))
  {
    var k3 := RecordTailText(h, k);
    var k2 := EmitField(",\"action\":", ActionText(h.action), k3);
    var k1 := EmitField(",\"deviceName\":", h.deviceName, k2);
    var k0 := EmitField(",\"deviceId\":", h.deviceId, k1);
    assert EmitRecord(h, k) == EmitField("{\"id\":", h.id, k0);
    FieldRoundTrip("{\"id\":", h.id, k0);
    FieldRoundTrip(",\"deviceId\":", h.deviceId, k1);
    FieldRoundTrip(",\"deviceName\":", h.deviceName, k2);
    FieldRoundTrip(",\"action\":", ActionText(h.action), k3);
    ActionRoundTrip(h.action);
  }

  lemma RecordRoundTrip(h: HistoryRecord, k: seq<char>)
    ensures ParseRecord(EmitRecord(h, k)) == Some((h, k))
  {
    RecordHeadRoundTrip(h, k);
    RecordTailRoundTrip(h, k);
  }

  // ---- Arrays -------------------------------------------------------------

  /** A parser that always consumes input. */
  ghost predicate Shrinks<T>(parse: seq<char> -> Option<(T, seq<char>)>) {
    forall s :: parse(s).Some? ==> |parse(s).value.1| < |s|
  }

  /** An element codec: the parser reads back what the emitter writes when
      a comma or a closing bracket follows, and no element text starts with
      a closing bracket. */
  ghost predicate Codec<T(!new)>(emit: (T, seq<char>) -> seq<char>, parse: seq<char> -> Option<(T, seq<char>)>) {
    && Shrinks(parse)
    && (forall x, c :: !StartsWith(emit(x, c), "]"))
    && (forall x, c :: parse(emit(x, c)) == Some((x, c)))
  }

  /** `[x1,...,xn]` followed by `k`. */
  function EmitArray<T>(emit: (T, seq<char>) -> seq<char>, xs: seq<T>, k: seq<char>): seq<char> {
    "[" + (if xs == [] then "]" + k else EmitItems(emit, xs, k))
  }

  /** The elements after the opening bracket, comma-separated, then `]` and `k`. */
  function EmitItems<T>(emit: (T, seq<char>) -> seq<char>, xs: seq<T>, k: seq<char>): seq<char>
    requires |xs| > 0
  {
    emit(xs[0], if |xs| == 1 then "]" + k else "," + EmitItems(emit, xs[1..], k))
  }

  function ParseArray<T>(parse: seq<char> -> Option<(T, seq<char>)>, s: seq<char>): (r: Option<(seq<T>, seq<char>)>)
    requires Shrinks(parse)
    ensures r.Some? ==> |r.value.1| < |s|
  {
    var s1 :- Expect("[", s);
    if StartsWith(s1, "]") then Some(([], s1[1..])) else ParseItems(parse, s1)
  }

  function ParseItems<T>(parse: seq<char> -> Option<(T, seq<char>)>, s: seq<char>): (r: Option<(seq<T>, seq<char>)>)
    requires Shrinks(parse)
    ensures r.Some? ==> |r.value.1| < |s|
    decreases |s|
  {
    var x :- parse(s);
    if StartsWith(x.1, ",") then
      var more :- ParseItems(parse, x.1[1..]);
      Some(([x.0] + more.0, more.1))
    else
      var rest :- Expect("]", x.1);
      Some(([x.0], rest))
  }

  lemma {:induction false} ItemsRoundTrip<T(!new)>(emit: (T, seq<char>) -> seq<char>,
                                            parse: seq<char> -> Option<(T, seq<char>)>,
                                            xs: seq<T>, k: seq<char>)
    requires Codec(emit, parse)
    requires |xs| > 0
    ensures ParseItems(parse, EmitItems(emit, xs, k)) == Some((xs, k))
  {
    if |xs| == 1 {
      assert parse(EmitItems(emit, xs, k)) == Some((xs[0], "]" + k));
      assert ("]" + k)[0] == ']';
      ExpectLiteral("]", k);
      assert [xs[0]] == xs;
    } else {
      var tail := EmitItems(emit, xs[1..], k);
      assert parse(EmitItems(emit, xs, k)) == Some((xs[0], "," + tail));
      assert StartsWith("," + tail, ",") && ("," + tail)[1..] == tail;
      ItemsRoundTrip(emit, parse, xs[1..], k);
      assert [xs[0]] + xs[1..] == xs;
    }
  }

  lemma ArrayRoundTrip<T(!new)>(emit: (T, seq<char>) -> seq<char>,
                          parse: seq<char> -> Option<(T, seq<char>)>,
                          xs: seq<T>, k: seq<char>)
    requires Codec(emit, parse)
    ensures ParseArray(parse, EmitArray(emit, xs, k)) == Some((xs, k))
  {
    if xs == [] {
      ExpectLiteral("[", "]" + k);
      assert ("]" + k)[1..] == k;
    } else {
      ExpectLiteral("[", EmitItems(emit, xs, k));
      ItemsRoundTrip(emit, parse, xs, k);
    }
  }

  lemma DeviceShrinks()
    ensures Shrinks(ParseDevice)
  {
    forall s | ParseDevice(s).Some?
      ensures |ParseDevice(s).value.1| < |s|
    {
    }
  }

  /** An object's text does not look like the end of an array. */
  lemma ObjectIsNotArrayEnd(t: seq<char>)
    requires |t| > 0 && t[0] == '{'
    ensures !StartsWith(t, "]")
  {
    assert t[..1][0] == '{';
  }

  lemma DeviceOpensWithBrace()
    ensures forall d, c :: !StartsWith(EmitDevice(d, c), "]")
  {
    forall d, c
      ensures !StartsWith(EmitDevice(d, c), "]")
    {
      ObjectIsNotArrayEnd(EmitDevice(d, c));
    }
  }

  lemma DeviceCodec()
    ensures Codec(EmitDevice, ParseDevice)
  {
    DeviceShrinks();
    DeviceOpensWithBrace();
    forall d, c
      ensures ParseDevice(EmitDevice(d, c)) == Some((d, c))
    {
      DeviceRoundTrip(d, c);
    }
  }

  lemma RecordShrinks()
    ensures Shrinks(ParseRecord)
  {
    forall s | ParseRecord(s).Some?
      ensures |ParseRecord(s).value.1| < |s|
    {
    }
  }

  lemma RecordOpensWithBrace()
    ensures forall h, c :: !StartsWith(EmitRecord(h, c), "]")
  {
    forall h, c
      ensures !StartsWith(EmitRecord(h, c), "]")
    {
      ObjectIsNotArrayEnd(EmitRecord(h, c));
    }
  }

  lemma RecordCodec()
    ensures Codec(EmitRecord, ParseRecord)
  {
    RecordShrinks();
    RecordOpensWithBrace();
    forall h, c
      ensures ParseRecord(EmitRecord(h, c)) == Some((h, c))
    {
      RecordRoundTrip(h, c);
    }
  }

  // ---- The aggregate ------------------------------------------------------

  function EmitAppData(d: AppData, k: seq<char>): seq<char> {
    "{\"devices\":" + EmitArray(EmitDevice, d.devices,
    ",\"history\":" + EmitArray(EmitRecord, d.history, "}" + k))
  }

  function ParseAppData(s: seq<char>): Option<(AppData, seq<char>)> {
    var s1 :- Expect("{\"devices\":", s);
    var ds :- ParseArray(ParseDevice, s1);
    var s2 :- Expect(",\"history\":", ds.1);
    var hs :- ParseArray(ParseRecord, s2);
    var s3 :- Expect("}", hs.1);
    Some((AppData(ds.0, hs.0), s3))
  }

  /** `JSON.stringify(data)`. */
  function Serialize(d: AppData): (text: string)
    ensures |text| > 0 && text[0] == '{'
  {
    EmitAppData(d, [])
  }

  /** `JSON.parse(text)` for texts of this shape; None where JSON.parse would
      throw, and also for any text of another shape. */
  function Parse(text: string): Option<AppData> {
    match ParseAppData(text)
    case Some((d, rest)) => if rest == [] then Some(d) else None
    case None => None
  }

  /** Parsing what was serialised gives back the same aggregate. */
  lemma ParseSerialize(d: AppData)
    ensures Parse(Serialize(d)) == Some(d)
  {
    var k2: seq<char> := "}";
    var k1 := ",\"history\":" + EmitArray(EmitRecord, d.history, k2);
    DeviceCodec();
    RecordCodec();
    ExpectLiteral("{\"devices\":", EmitArray(EmitDevice, d.devices, k1));
    ArrayRoundTrip(EmitDevice, ParseDevice, d.devices, k1);
    ExpectLiteral(",\"history\":", EmitArray(EmitRecord, d.history, k2));
    ArrayRoundTrip(EmitRecord, ParseRecord, d.history, k2);
    ExpectLiteral("}", []);
    assert "}" + [] == k2;
  }

  // ---- Byte size ----------------------------------------------------------

  /** Bytes of one character in UTF-8. */
  function Utf8Width(c: char): (w: nat)
    ensures 1 <= w <= 4
    ensures c as int < 0x80 <==> w == 1
  {
    if c as int < 0x80 then 1
    else if c as int < 0x800 then 2
    else if c as int < 0x10000 then 3
    else 4
  }

  /** `new Blob([text]).size`: the UTF-8 byte length of `text`. */
  function Utf8Size(s: string): (n: nat)
    ensures |s| <= n <= 4 * |s|
  {
    if s == [] then 0 else Utf8Width(s[0]) + Utf8Size(s[1..])
  }
}
