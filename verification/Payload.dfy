/**
 The payloads of the three data records: roles, required codecs and posits.  Texts are
 UTF-8, and the rules of the language they belong to are parameters.
 */
module Payload {
  import opened Prelude
  import opened Encoding
  import opened Times
  import opened Constructs
  import Utf8
  import opened Decimals

  /** Takes a name to its canonical form. */
  type Normalizer = string -> string

  /** Taking the canonical form twice changes nothing more. */
  ghost predicate Stable(normal: Normalizer) {
    forall text :: normal(normal(text)) == normal(text)
  }

  /** Parses a token in its family, if it belongs to it. */
  type Parser = (string, Family) -> Option<int>

  // ------------------------------------------------------------------------ codecs

  datatype Codec = RawUtf8 | CanonicalI64 | CanonicalCertainty

  const ALL_CODECS: set<Codec> := {RawUtf8, CanonicalI64, CanonicalCertainty}

  function CodecIdentifier(c: Codec): Byte {
    match c case RawUtf8 => 0 case CanonicalI64 => 1 case CanonicalCertainty => 2
  }

  const CODEC_VERSION := 1

  function CodecFamily(c: Codec): Byte {
    match c case RawUtf8 => 0 case CanonicalI64 => FamilyIdentifier(IntegerFamily) case CanonicalCertainty => FamilyIdentifier(CertaintyFamily)
  }

  function CodecName(c: Codec): string {
    match c case RawUtf8 => "raw-utf8-token" case CanonicalI64 => "canonical-i64" case CanonicalCertainty => "canonical-certainty"
  }

  function FamilyIdentifier(f: Family): Byte {
    match f
    case StringFamily => 1
    case IntegerFamily => 2
    case DecimalFamily => 3
    case CertaintyFamily => 4
    case JsonFamily => 5
    case TimeFamily => 6
  }

  function FamilyOf(identifier: nat): Option<Family> {
    if identifier == 1 then Some(StringFamily)
    else if identifier == 2 then Some(IntegerFamily)
    else if identifier == 3 then Some(DecimalFamily)
    else if identifier == 4 then Some(CertaintyFamily)
    else if identifier == 5 then Some(JsonFamily)
    else if identifier == 6 then Some(TimeFamily)
    else None
  }

  function CodecOf(identifier: nat, version: nat): Option<Codec> {
    if version != CODEC_VERSION then None
    else if identifier == 0 then Some(RawUtf8)
    else if identifier == 1 then Some(CanonicalI64)
    else if identifier == 2 then Some(CanonicalCertainty)
    else None
  }

  function TakeByte(bytes: Bytes): Option<Parsed<nat>> {
    if bytes == [] then None else Some(Parsed(bytes[0] as nat, bytes[1..]))
  }

  function Text(text: string): Bytes {
    Blob(Utf8.Encode(text))
  }

  function TakeText(bytes: Bytes): Option<Parsed<string>> {
    var blob :- TakeBlob(bytes);
    var text :- Utf8.Decode(blob.value);
    Some(Parsed(text, blob.rest))
  }

  predicate ShortText(text: string) {
    |Utf8.Encode(text)| < U64
  }

  lemma TextBijection(text: string, rest: Bytes, bytes: Bytes)
    requires ShortText(text)
    ensures TakeText(bytes) == Some(Parsed(text, rest)) <==> bytes == Text(text) + rest
  {
    hide Blob;
    hide TakeBlob;
    hide Utf8.Encode;
    hide Utf8.Decode;
    BlobBijection(Utf8.Encode(text), rest, bytes);
    Utf8.Utf8Bijection(text, Utf8.Encode(text));
    if TakeBlob(bytes).Some? {
      Utf8.Utf8Bijection(text, TakeBlob(bytes).value.value);
    }
  }

  lemma TextBound(bytes: Bytes)
    requires TakeText(bytes).Some?
    ensures var p := TakeText(bytes).value; ShortText(p.value) && bytes == Text(p.value) + p.rest
  {
    hide Blob;
    hide TakeBlob;
    hide Utf8.Encode;
    hide Utf8.Decode;
    BlobBound(bytes);
    Utf8.Utf8Bijection(TakeText(bytes).value.value, TakeBlob(bytes).value.value);
  }

  function CodecPayload(c: Codec): Bytes {
    Little(CodecIdentifier(c), 2) + (Little(CODEC_VERSION, 2) + ([CodecFamily(c)] + (Little(0, 2) + Text(CodecName(c)))))
  }

  function DecodeCodec(payload: Bytes): Option<Codec> {
    var identifier :- TakeNumber(payload, 2);
    var version :- TakeNumber(identifier.rest, 2);
    var family :- TakeByte(version.rest);
    var flags :- TakeNumber(family.rest, 2);
    var name :- TakeText(flags.rest);
    var codec :- CodecOf(identifier.value, version.value);
    if family.value != CodecFamily(codec) || flags.value != 0 || name.value != CodecName(codec) || name.rest != [] then None
    else Some(codec)
  }

  /** A codec record is accepted exactly when it is the one written for that codec. */
  lemma CodecBijection(payload: Bytes, c: Codec)
    ensures DecodeCodec(payload) == Some(c) <==> payload == CodecPayload(c)
  {
    hide Little;
    hide Number;
    hide Text;
    hide TakeText;
    hide CodecName;
    Ranges();
    ShortNames(c);
    if payload == CodecPayload(c) {
      var name := Text(CodecName(c));
      var flags := Little(0, 2) + name;
      var family := [CodecFamily(c)] + flags;
      var version := Little(CODEC_VERSION, 2) + family;
      FixedWidthRoundTrip(CodecIdentifier(c), 2, version);
      FixedWidthRoundTrip(CODEC_VERSION, 2, family);
      assert family[1..] == flags;
      FixedWidthRoundTrip(0, 2, name);
      assert name == name + [];
      TextBijection(CodecName(c), [], name);
      hide TakeNumber;
    }
    if DecodeCodec(payload) == Some(c) {
      FixedWidthCanonical(payload, 2);
      var version := TakeNumber(payload, 2).value.rest;
      FixedWidthCanonical(version, 2);
      var family := TakeNumber(version, 2).value.rest;
      assert family == [family[0]] + family[1..];
      FixedWidthCanonical(family[1..], 2);
      var name := TakeNumber(family[1..], 2).value.rest;
      TextBound(name);
      assert Text(CodecName(c)) + [] == Text(CodecName(c));
    }
  }

  lemma ShortNames(c: Codec)
    ensures ShortText(CodecName(c))
  {
    EncodedLength(CodecName(c));
  }

  lemma {:induction false} EncodedLength(text: string)
    ensures |Utf8.Encode(text)| <= 4 * |text|
  {
    if text != "" {
      EncodedLength(text[1..]);
    }
  }

  // ------------------------------------------------------------------------- roles

  datatype Role = Role(id: Thing, name: string, reserved: bool)

  predicate ValidRole(r: Role, normal: Normalizer) {
    0 < r.id < U64 && r.name != "" && normal(r.name) == r.name && ShortText(r.name)
  }

  function RolePayload(r: Role): Bytes {
    Little(r.id, 8) + ([if r.reserved then 1 else 0] + Text(r.name))
  }

  function DecodeRole(payload: Bytes, normal: Normalizer): Option<Role> {
    var id :- TakeNumber(payload, 8);
    if id.value == 0 then None
    else
      var flag :- TakeByte(id.rest);
      if flag.value > 1 then None
      else
        var name :- TakeText(flag.rest);
        if name.value == "" || normal(name.value) != name.value || name.rest != [] then None
        else Some(Role(id.value, name.value, flag.value == 1))
  }

  /** Role records decode to valid roles, each from exactly its own payload. */
  lemma RoleBijection(payload: Bytes, r: Role, normal: Normalizer)
    requires r.id < U64
    ensures DecodeRole(payload, normal) == Some(r) <==> ValidRole(r, normal) && payload == RolePayload(r)
  {
    hide Little;
    hide Number;
    hide Text;
    hide TakeText;
    hide ShortText;
    Ranges();
    if ValidRole(r, normal) && payload == RolePayload(r) {
      var name := Text(r.name);
      var flag: Bytes := [if r.reserved then 1 else 0];
      FixedWidthRoundTrip(r.id, 8, flag + name);
      assert (flag + name)[1..] == name;
      assert name == name + [];
      TextBijection(r.name, [], name);
      hide TakeNumber;
    }
    if DecodeRole(payload, normal) == Some(r) {
      FixedWidthCanonical(payload, 8);
      var flag := TakeNumber(payload, 8).value.rest;
      assert flag == [flag[0]] + flag[1..];
      TextBound(flag[1..]);
      assert Text(r.name) + [] == Text(r.name);
    }
  }

  // ---------------------------------------------------------------------- literals

  /** The compact form is chosen only for a token that printing its number reproduces. */
  function SelectCodec(value: Literal): Codec {
    match value.family
    case IntegerFamily =>
      (match Parse(value.token, MIN_I64, MAX_I64)
       case Some(n) => if Show(n) == value.token then CanonicalI64 else RawUtf8
       case None => RawUtf8)
    case CertaintyFamily =>
      (match ParsePercent(value.token)
       case Some(n) => if -100 <= n <= 100 && Show(n) + "%" == value.token then CanonicalCertainty else RawUtf8
       case None => RawUtf8)
    case _ => RawUtf8
  }

  function ParsePercent(token: string): Option<int> {
    if token == "" || token[|token| - 1] != '%' then None else Parse(token[..|token| - 1], -128, 127)
  }

  /** Doubled within 64 bits, then every bit flipped for a negative number. */
  function Zigzag(n: int): nat
    requires MIN_I64 <= n <= MAX_I64
  {
    var doubled := 2 * Unsigned(n, U64) % U64;
    if n < 0 then U64 - 1 - doubled else doubled
  }

  function Unzigzag(z: nat): int {
    if z % 2 == 0 then z / 2 else -(z / 2) - 1
  }

  /** Zigzag is a bijection between signed and unsigned 64-bit numbers. */
  lemma ZigzagInverts(n: int)
    requires MIN_I64 <= n <= MAX_I64
    ensures Zigzag(n) < U64 && Unzigzag(Zigzag(n)) == n
  {
  }

  lemma ZigzagCovers(z: nat)
    requires z < U64
    ensures MIN_I64 <= Unzigzag(z) <= MAX_I64 && Zigzag(Unzigzag(z)) == z
  {
  }

  function EncodeLiteral(value: Literal, codec: Codec): Option<Bytes> {
    match codec
    case RawUtf8 => Some(Utf8.Encode(value.token))
    case CanonicalI64 =>
      var n :- Parse(value.token, MIN_I64, MAX_I64);
      if MIN_I64 <= n <= MAX_I64 then Some(Uleb(Zigzag(n))) else None
    case CanonicalCertainty =>
      var n :- ParsePercent(value.token);
      if -128 <= n <= 127 then Some([Unsigned(n, 256)]) else None
  }

  function DecodeLiteral(encoded: Bytes, family: Family, codec: Codec): Option<string> {
    match codec
    case RawUtf8 => Utf8.Decode(encoded)
    case CanonicalI64 =>
      if family != IntegerFamily then None
      else
        var z :- TakeUleb(encoded);
        if z.rest != [] then None else Some(Show(Unzigzag(z.value)))
    case CanonicalCertainty =>
      if family != CertaintyFamily || |encoded| != 1 then None
      else
        var percent := Signed(encoded[0], 256);
        if -100 <= percent <= 100 then Some(Show(percent) + "%") else None
  }

  /** The compact integer form is chosen exactly for the canonical tokens of 64-bit numbers. */
  lemma CompactIntegers(value: Literal)
    ensures SelectCodec(value) == CanonicalI64
            <==> value.family == IntegerFamily && exists n :: MIN_I64 <= n <= MAX_I64 && Show(n) == value.token
  {
    hide Show;
    ParseRange(value.token, MIN_I64, MAX_I64);
    if value.family == IntegerFamily && exists n :: MIN_I64 <= n <= MAX_I64 && Show(n) == value.token {
      var n :| MIN_I64 <= n <= MAX_I64 && Show(n) == value.token;
      ParseShown(n, MIN_I64, MAX_I64);
    }
  }

  lemma ParseRange(token: string, low: int, high: int)
    requires low <= 0 <= high
    ensures Parse(token, low, high).Some? ==> low <= Parse(token, low, high).value <= high
  {
    hide ReadDigits;
  }

  lemma CompactPercent(value: Literal)
    ensures SelectCodec(value) == CanonicalCertainty
            <==> value.family == CertaintyFamily && exists n :: -100 <= n <= 100 && Show(n) + "%" == value.token
  {
    hide Show;
    if value.family == CertaintyFamily && exists n :: -100 <= n <= 100 && Show(n) + "%" == value.token {
      var n :| -100 <= n <= 100 && Show(n) + "%" == value.token;
      ParseShown(n, -128, 127);
      assert value.token[..|value.token| - 1] == Show(n);
    }
  }

  /** Encoding with the selected codec never fails, and decoding gives the exact token back. */
  lemma LiteralRoundTrip(value: Literal)
    ensures var encoded := EncodeLiteral(value, SelectCodec(value));
            encoded.Some? && DecodeLiteral(encoded.value, value.family, SelectCodec(value)) == Some(value.token)
  {
    hide Show;
    hide Utf8.Encode;
    hide Utf8.Decode;
    hide Uleb;
    hide TakeUlebFrom;
    hide Parse;
    match SelectCodec(value)
    case RawUtf8 => Utf8.Utf8Bijection(value.token, Utf8.Encode(value.token));
    case CanonicalI64 =>
      ParseRange(value.token, MIN_I64, MAX_I64);
      var n := Parse(value.token, MIN_I64, MAX_I64).value;
      ZigzagInverts(n);
      assert Uleb(Zigzag(n)) == Uleb(Zigzag(n)) + [];
      UlebBijection(Zigzag(n), [], Uleb(Zigzag(n)));
    case CanonicalCertainty =>
      var n := ParsePercent(value.token).value;
      TwosComplement(n, 256);
  }

  // ------------------------------------------------------------------------- times

  function I32(n: int): Bytes
    requires MIN_I32 <= n <= MAX_I32
  {
    Little(Unsigned(n, U32), 4)
  }

  function TakeI32(bytes: Bytes): Option<Parsed<int>> {
    var p :- TakeNumber(bytes, 4);
    Some(Parsed(Signed(p.value, U32), p.rest))
  }

  lemma I32RoundTrip(n: int, rest: Bytes)
    requires MIN_I32 <= n <= MAX_I32
    ensures TakeI32(I32(n) + rest) == Some(Parsed(n, rest))
  {
    Ranges();
    TwosComplement(n, U32);
    FixedWidthRoundTrip(Unsigned(n, U32), 4, rest);
  }

  function DateBytes(d: Date): Bytes
    requires ValidDate(d)
  {
    I32(d.year) + [d.month, d.day]
  }

  function ClockBytes(c: Clock): Bytes
    requires ValidClock(c)
  {
    [c.hour, c.minute, c.second] + Little(c.nanosecond, 4)
  }

  function TimePayload(t: Time): Bytes {
    match t
    case BeginningOfTime => [0]
    case EndOfTime => [1]
    case Year(year) => [2] + I32(year)
    case YearMonth(year, month) => [3] + (I32(year) + [month])
    case Day(date) => [4] + DateBytes(date)
    case Moment(date, clock) => [5] + (DateBytes(date) + ClockBytes(clock))
  }

  function TakeDate(bytes: Bytes): Option<Parsed<Date>> {
    var year :- TakeI32(bytes);
    var month :- TakeByte(year.rest);
    var day :- TakeByte(month.rest);
    var date := Date(year.value, month.value, day.value);
    if ValidDate(date) then Some(Parsed(date, day.rest)) else None
  }

  function TakeClock(bytes: Bytes): Option<Parsed<Clock>> {
    var hour :- TakeByte(bytes);
    var minute :- TakeByte(hour.rest);
    var second :- TakeByte(minute.rest);
    var nanosecond :- TakeNumber(second.rest, 4);
    var clock := Clock(hour.value, minute.value, second.value, nanosecond.value);
    if ValidClock(clock) then Some(Parsed(clock, nanosecond.rest)) else None
  }

  function TakeTime(bytes: Bytes): (time: Option<Parsed<TimeType>>)
    ensures time.Some? ==> ValidTime(time.value.value)
  {
    var tag :- TakeByte(bytes);
    if tag.value == 0 then Some(Parsed(BeginningOfTime, tag.rest))
    else if tag.value == 1 then Some(Parsed(EndOfTime, tag.rest))
    else if tag.value == 2 then
      var year :- TakeI32(tag.rest);
      I32Bound(tag.rest);
      Some(Parsed(Year(year.value), year.rest))
    else if tag.value == 3 then
      var year :- TakeI32(tag.rest);
      var month :- TakeByte(year.rest);
      I32Bound(tag.rest);
      if 1 <= month.value <= 12 then Some(Parsed(YearMonth(year.value, month.value), month.rest)) else None
    else if tag.value == 4 || tag.value == 5 then
      var date :- TakeDate(tag.rest);
      if tag.value == 4 then Some(Parsed(Day(date.value), date.rest))
      else
        var clock :- TakeClock(date.rest);
        Some(Parsed(Moment(date.value, clock.value), clock.rest))
    else None
  }

  lemma I32Bound(bytes: Bytes)
    requires TakeI32(bytes).Some?
    ensures MIN_I32 <= TakeI32(bytes).value.value <= MAX_I32
  {
    Ranges();
    FixedWidthCanonical(bytes, 4);
  }

  lemma DateRoundTrip(d: Date, rest: Bytes)
    requires ValidDate(d)
    ensures TakeDate(DateBytes(d) + rest) == Some(Parsed(d, rest))
  {
    hide I32;
    hide TakeI32;
    var tail: Bytes := [d.month, d.day] + rest;
    assert DateBytes(d) + rest == I32(d.year) + tail;
    I32RoundTrip(d.year, tail);
    assert tail[1..] == [d.day] + rest && tail[1..][1..] == rest;
  }

  lemma ClockRoundTrip(c: Clock, rest: Bytes)
    requires ValidClock(c)
    ensures TakeClock(ClockBytes(c) + rest) == Some(Parsed(c, rest))
  {
    hide Little;
    hide Number;
    Ranges();
    var bytes := ClockBytes(c) + rest;
    var tail := Little(c.nanosecond, 4) + rest;
    assert bytes[1..] == [c.minute, c.second] + tail && bytes[1..][1..] == [c.second] + tail && bytes[1..][1..][1..] == tail;
    FixedWidthRoundTrip(c.nanosecond, 4, rest);
    hide TakeNumber;
  }

  /** Every time of every precision reads back. */
  lemma TimeRoundTrip(t: Time, rest: Bytes)
    ensures TakeTime(TimePayload(t) + rest) == Some(Parsed(t, rest))
  {
    hide TakeI32;
    hide I32;
    hide TakeDate;
    hide DateBytes;
    hide TakeClock;
    hide ClockBytes;
    match t
    case BeginningOfTime => assert ([0] + rest)[1..] == rest;
    case EndOfTime => assert ([1] + rest)[1..] == rest;
    case Year(year) =>
      assert ([2] + I32(year) + rest)[1..] == I32(year) + rest;
      I32RoundTrip(year, rest);
    case YearMonth(year, month) => YearMonthRoundTrip(year, month, rest);
    case Day(date) =>
      assert ([4] + DateBytes(date) + rest)[1..] == DateBytes(date) + rest;
      DateRoundTrip(date, rest);
    case Moment(date, clock) => MomentRoundTrip(date, clock, rest);
  }

  lemma YearMonthRoundTrip(year: int, month: int, rest: Bytes)
    requires ValidTime(YearMonth(year, month))
    ensures TakeTime(TimePayload(YearMonth(year, month)) + rest) == Some(Parsed(YearMonth(year, month), rest))
  {
    hide TakeI32;
    hide I32;
    var tail: Bytes := [month] + rest;
    assert ([3] + (I32(year) + [month]) + rest)[1..] == I32(year) + tail && tail[1..] == rest;
    I32RoundTrip(year, tail);
  }

  lemma MomentRoundTrip(date: Date, clock: Clock, rest: Bytes)
    requires ValidTime(Moment(date, clock))
    ensures TakeTime(TimePayload(Moment(date, clock)) + rest) == Some(Parsed(Moment(date, clock), rest))
  {
    DateRoundTrip(date, ClockBytes(clock) + rest);
    ClockRoundTrip(clock, rest);
    hide TakeI32;
    hide TakeDate;
    hide DateBytes;
    hide TakeClock;
    hide ClockBytes;
    hide ValidDate;
    hide ValidClock;
    assert ([5] + (DateBytes(date) + ClockBytes(clock)) + rest)[1..] == DateBytes(date) + (ClockBytes(clock) + rest);
  }
}
