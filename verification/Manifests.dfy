/** The log header and the manifest: fixed fields behind a checksum. */
module Manifests {
  import opened Prelude
  import opened Crc
  import opened Encoding

  const FORMAT_MAJOR := 1
  const FORMAT_MINOR := 0
  const MANIFEST_HEADER_LEN := 48
  const LOG_HEADER_LEN := 64

  /** POSITPMF */
  const MANIFEST_MAGIC: Bytes := [0x50, 0x4f, 0x53, 0x49, 0x54, 0x50, 0x4d, 0x46]

  /** POSITLOG */
  const LOG_MAGIC: Bytes := [0x50, 0x4f, 0x53, 0x49, 0x54, 0x4c, 0x4f, 0x47]

  /** log-0000000000000001.ptl */
  const LOG_NAME: Bytes := [
    0x6c, 0x6f, 0x67, 0x2d,
    0x30, 0x30, 0x30, 0x30, 0x30, 0x30, 0x30, 0x30, 0x30, 0x30, 0x30, 0x30, 0x30, 0x30, 0x30, 0x31,
    0x2e, 0x70, 0x74, 0x6c]

  type Uuid = u: Bytes | |u| == 16 witness [0, 0, 0, 0, 0, 0, 0, 0, 0, 0, 0, 0, 0, 0, 0, 0]

  datatype Manifest = Manifest(uuid: Uuid, committedLength: nat)

  function Seal(content: Bytes): Bytes {
    Little(Checksum(content) as int, 4)
  }

  predicate Seals(content: Bytes, seal: Bytes) {
    |seal| == 4 && Number(seal) == Checksum(content) as int
  }

  lemma SealsExactly(content: Bytes, seal: Bytes)
    ensures Seals(content, seal) <==> seal == Seal(content)
  {
    hide Checksum;
    Ranges();
    NumberOfLittle(Checksum(content) as int, 4);
    LittleOfNumber(seal);
  }

  // ---------------------------------------------------------------- the log header

  const ZEROS: Bytes := [0, 0, 0, 0, 0, 0, 0, 0, 0, 0, 0, 0, 0, 0, 0, 0, 0, 0, 0, 0]

  function HeaderContent(uuid: Uuid): (bytes: Bytes)
    ensures |bytes| == 60
  {
    LOG_MAGIC + Little(FORMAT_MAJOR, 2) + Little(FORMAT_MINOR, 2) + Little(LOG_HEADER_LEN, 4) + uuid + Little(1, 8) + ZEROS
  }

  function LogHeader(uuid: Uuid): (bytes: Bytes)
    ensures |bytes| == LOG_HEADER_LEN
  {
    HeaderContent(uuid) + Seal(HeaderContent(uuid))
  }

  /** Field by field, as the header is checked on open. */
  predicate VerifyLogHeader(log: Bytes, uuid: Uuid) {
    && |log| >= LOG_HEADER_LEN
    && log[0..8] == LOG_MAGIC && Number(log[8..10]) == FORMAT_MAJOR && Number(log[10..12]) == FORMAT_MINOR
    && Number(log[12..16]) == LOG_HEADER_LEN && log[16..32] == uuid && Number(log[32..40]) == 1
    && (forall i :: 40 <= i < 60 ==> log[i] == 0)
    && Seals(log[..60], log[60..64])
  }

  lemma NumberIs(bytes: Bytes, n: nat)
    requires n < Range(|bytes|)
    ensures Number(bytes) == n <==> bytes == Little(n, |bytes|)
  {
    NumberOfLittle(n, |bytes|);
    LittleOfNumber(bytes);
  }

  /** A log opens under a store identity exactly when it begins with that store's header. */
  lemma HeaderVerifiesExactly(log: Bytes, uuid: Uuid)
    requires |log| >= LOG_HEADER_LEN
    ensures VerifyLogHeader(log, uuid) <==> log[..LOG_HEADER_LEN] == LogHeader(uuid)
  {
    HeaderFields(log, uuid);
    SealsExactly(log[..60], log[60..64]);
    hide Seal;
    hide HeaderContent;
    assert log[..64] == log[..60] + log[60..64];
  }

  lemma HeaderFields(log: Bytes, uuid: Uuid)
    requires |log| >= LOG_HEADER_LEN
    ensures VerifyLogHeader(log, uuid) <==> log[..60] == HeaderContent(uuid) && Seals(log[..60], log[60..64])
  {
    hide Seals;
    Ranges();
    NumberIs(log[8..10], FORMAT_MAJOR);
    NumberIs(log[10..12], FORMAT_MINOR);
    NumberIs(log[12..16], LOG_HEADER_LEN);
    NumberIs(log[32..40], 1);
    hide Number;
    hide Little;
    hide Range;
    AllZeros(log);
    assert log[..60] == log[0..8] + log[8..10] + log[10..12] + log[12..16] + log[16..32] + log[32..40] + log[40..60];
    SameParts(log[0..8], log[8..10], log[10..12], log[12..16], log[16..32], log[32..40], log[40..60], uuid);
    hide HeaderContent;
  }

  lemma AllZeros(log: Bytes)
    requires |log| >= LOG_HEADER_LEN
    ensures (forall i :: 40 <= i < 60 ==> log[i] == 0) <==> log[40..60] == ZEROS
  {
    if log[40..60] == ZEROS {
      forall i | 40 <= i < 60 ensures log[i] == 0 {
        assert log[40..60][i - 40] == log[i];
      }
    }
  }

  lemma SameParts(a: Bytes, b: Bytes, c: Bytes, d: Bytes, e: Bytes, f: Bytes, g: Bytes, uuid: Uuid)
    requires |a| == 8 && |b| == |c| == 2 && |d| == 4 && |e| == 16 && |f| == 8 && |g| == 20
    ensures a + b + c + d + e + f + g == HeaderContent(uuid)
            <==> && a == LOG_MAGIC && b == Little(FORMAT_MAJOR, 2) && c == Little(FORMAT_MINOR, 2) && d == Little(LOG_HEADER_LEN, 4)
                 && e == uuid && f == Little(1, 8) && g == ZEROS
  {
    hide Little;
    var (m, n, o, p) := (Little(FORMAT_MAJOR, 2), Little(FORMAT_MINOR, 2), Little(LOG_HEADER_LEN, 4), Little(1, 8));
    var x := a + b + c + d + e + f + g;
    assert x[0..8] == a && x[8..10] == b && x[10..12] == c && x[12..16] == d && x[16..32] == e && x[32..40] == f && x[40..60] == g;
    var y := HeaderContent(uuid);
    assert y[0..8] == LOG_MAGIC && y[8..10] == m && y[10..12] == n && y[12..16] == o && y[16..32] == uuid && y[32..40] == p && y[40..60] == ZEROS;
  }

  // ------------------------------------------------------------------ the manifest

  function ExpectBytes(bytes: Bytes, expected: Bytes): Option<Bytes> {
    if |bytes| >= |expected| && bytes[..|expected|] == expected then Some(bytes[|expected|..]) else None
  }

  function ExpectNumber(bytes: Bytes, width: nat, expected: nat): Option<Bytes> {
    var p :- TakeNumber(bytes, width);
    if p.value == expected then Some(p.rest) else None
  }

  function Fixed(uuid: Uuid): Bytes {
    MANIFEST_MAGIC + (Little(FORMAT_MAJOR, 2) + (Little(FORMAT_MINOR, 2) + (Little(MANIFEST_HEADER_LEN, 4)
    + (uuid + (Little(0, 8) + (Little(0, 8) + Segment()))))))
  }

  /** The one active segment. */
  function Segment(): Bytes {
    Uleb(1) + (Blob(LOG_NAME) + (Little(1, 8) + [0]))
  }

  function ManifestContent(m: Manifest): Bytes {
    Fixed(m.uuid) + Little(m.committedLength, 8)
  }

  function EncodeManifest(m: Manifest): Bytes {
    ManifestContent(m) + Seal(ManifestContent(m))
  }

  function TakeSegment(bytes: Bytes): Option<Bytes> {
    var count :- TakeUleb(bytes);
    if count.value != 1 then None
    else
      var name :- TakeBlob(count.rest);
      if name.value != LOG_NAME then None
      else
        var sealed :- ExpectNumber(name.rest, 8, 1);
        if sealed == [] || sealed[0] != 0 then None else Some(sealed[1..])
  }

  /** The fields of a manifest in order, with nothing after the last one. */
  function ParseManifest(bytes: Bytes): Option<Manifest> {
    var major :- ExpectBytes(bytes, MANIFEST_MAGIC);
    var minor :- ExpectNumber(major, 2, FORMAT_MAJOR);
    var header :- ExpectNumber(minor, 2, FORMAT_MINOR);
    var uuid :- ExpectNumber(header, 4, MANIFEST_HEADER_LEN);
    if |uuid| < 16 then None
    else
      var optional :- ExpectNumber(uuid[16..], 8, 0);
      var segment :- ExpectNumber(optional, 8, 0);
      var length :- TakeSegment(segment);
      var committed :- TakeNumber(length, 8);
      if committed.rest != [] then None else Some(Manifest(uuid[..16], committed.value))
  }

  function ReadManifest(bytes: Bytes): Option<Manifest> {
    if |bytes| < MANIFEST_HEADER_LEN + 4 || !Seals(bytes[..|bytes| - 4], bytes[|bytes| - 4..]) then None
    else ParseManifest(bytes[..|bytes| - 4])
  }

  lemma ExpectedBytes(bytes: Bytes, expected: Bytes, rest: Bytes)
    ensures ExpectBytes(bytes, expected) == Some(rest) <==> bytes == expected + rest
  {
    if bytes == expected + rest {
      assert bytes[..|expected|] == expected && bytes[|expected|..] == rest;
    }
  }

  lemma ExpectedNumber(bytes: Bytes, width: nat, n: nat, rest: Bytes)
    requires n < Range(width)
    ensures ExpectNumber(bytes, width, n) == Some(rest) <==> bytes == Little(n, width) + rest
  {
    if bytes == Little(n, width) + rest {
      FixedWidthRoundTrip(n, width, rest);
    }
    if ExpectNumber(bytes, width, n) == Some(rest) {
      FixedWidthCanonical(bytes, width);
    }
  }

  lemma WrittenSegment(rest: Bytes)
    ensures TakeSegment(Segment() + rest) == Some(rest)
  {
    hide Uleb;
    hide TakeUlebFrom;
    hide Little;
    hide Number;
    Ranges();
    var bytes := Segment() + rest;
    var (c, b, a) := (Blob(LOG_NAME) + (Little(1, 8) + [0]) + rest, Little(1, 8) + [0] + rest, [0] + rest);
    assert bytes == Uleb(1) + c && c == Blob(LOG_NAME) + b && b == Little(1, 8) + a;
    UlebBijection(1, c, bytes);
    BlobBijection(LOG_NAME, b, c);
    ExpectedNumber(b, 8, 1, a);
    assert a[1..] == rest;
  }

  lemma TakenSegment(bytes: Bytes, rest: Bytes)
    requires TakeSegment(bytes) == Some(rest)
    ensures bytes == Segment() + rest
  {
    hide Uleb;
    hide TakeUlebFrom;
    hide Little;
    hide Number;
    Ranges();
    UlebBound(bytes);
    var c := TakeUleb(bytes).value.rest;
    BlobBound(c);
    var b := TakeBlob(c).value.rest;
    var a := ExpectNumber(b, 8, 1).value;
    ExpectedNumber(b, 8, 1, a);
    assert a == [0] + rest;
    hide TakeBlob;
    hide TakeUleb;
    hide ExpectNumber;
    hide Blob;
    hide LOG_NAME;
    NestedSegment(Uleb(1), Blob(LOG_NAME), Little(1, 8), [0], rest);
  }

  lemma NestedSegment(a: Bytes, b: Bytes, c: Bytes, d: Bytes, rest: Bytes)
    ensures (a + (b + (c + d))) + rest == a + (b + (c + (d + rest)))
  {
  }

  lemma ExpectedSegment(bytes: Bytes, rest: Bytes)
    ensures TakeSegment(bytes) == Some(rest) <==> bytes == Segment() + rest
  {
    if bytes == Segment() + rest {
      WrittenSegment(rest);
    }
    if TakeSegment(bytes) == Some(rest) {
      TakenSegment(bytes, rest);
    }
  }

  /** The tails of a manifest's content, field by field. */
  lemma ManifestTails(m: Manifest)
    ensures ManifestContent(m) == MANIFEST_MAGIC + (Little(FORMAT_MAJOR, 2) + (Little(FORMAT_MINOR, 2) + (Little(MANIFEST_HEADER_LEN, 4)
              + (m.uuid + (Little(0, 8) + (Little(0, 8) + (Segment() + Little(m.committedLength, 8))))))))
  {
    hide Little;
    hide Segment;
  }

  lemma ManifestParses(m: Manifest)
    requires m.committedLength < U64
    ensures ParseManifest(ManifestContent(m)) == Some(m)
  {
    ManifestTails(m);
    hide ManifestContent;
    hide Little;
    hide Number;
    Ranges();
    var length := Little(m.committedLength, 8);
    var segment := Segment() + length;
    var optional := Little(0, 8) + segment;
    var required := Little(0, 8) + optional;
    var uuid := m.uuid + required;
    var header := Little(MANIFEST_HEADER_LEN, 4) + uuid;
    var minor := Little(FORMAT_MINOR, 2) + header;
    var major := Little(FORMAT_MAJOR, 2) + minor;
    ExpectedBytes(ManifestContent(m), MANIFEST_MAGIC, major);
    ExpectedNumber(major, 2, FORMAT_MAJOR, minor);
    ExpectedNumber(minor, 2, FORMAT_MINOR, header);
    ExpectedNumber(header, 4, MANIFEST_HEADER_LEN, uuid);
    assert uuid[..16] == m.uuid && uuid[16..] == required;
    ExpectedNumber(required, 8, 0, optional);
    ExpectedNumber(optional, 8, 0, segment);
    ExpectedSegment(segment, length);
    assert length == length + [];
    FixedWidthRoundTrip(m.committedLength, 8, []);
    hide TakeNumber;
    hide TakeSegment;
    hide ExpectNumber;
    hide ExpectBytes;
    hide Segment;
  }

  lemma ParsedManifest(bytes: Bytes)
    requires ParseManifest(bytes).Some?
    ensures var m := ParseManifest(bytes).value; m.committedLength < U64 && bytes == ManifestContent(m)
  {
    hide Little;
    hide Number;
    hide Segment;
    hide TakeSegment;
    hide ExpectNumber;
    hide ExpectBytes;
    Ranges();
    var major := ExpectBytes(bytes, MANIFEST_MAGIC).value;
    var minor := ExpectNumber(major, 2, FORMAT_MAJOR).value;
    var header := ExpectNumber(minor, 2, FORMAT_MINOR).value;
    var uuid := ExpectNumber(header, 4, MANIFEST_HEADER_LEN).value;
    var optional := ExpectNumber(uuid[16..], 8, 0).value;
    var segment := ExpectNumber(optional, 8, 0).value;
    var length := TakeSegment(segment).value;
    ExpectedBytes(bytes, MANIFEST_MAGIC, major);
    ExpectedNumber(major, 2, FORMAT_MAJOR, minor);
    ExpectedNumber(minor, 2, FORMAT_MINOR, header);
    ExpectedNumber(header, 4, MANIFEST_HEADER_LEN, uuid);
    ExpectedNumber(uuid[16..], 8, 0, optional);
    ExpectedNumber(optional, 8, 0, segment);
    ExpectedSegment(segment, length);
    FixedWidthCanonical(length, 8);
    hide TakeNumber;
    var m := ParseManifest(bytes).value;
    assert uuid == m.uuid + uuid[16..];
    assert length == Little(m.committedLength, 8) + [];
    ManifestTails(m);
    hide ManifestContent;
  }

  lemma ManifestIsLong(m: Manifest)
    ensures |EncodeManifest(m)| >= MANIFEST_HEADER_LEN + 4
  {
    hide Checksum;
  }

  /** A manifest reads back exactly when it is what would be written. */
  lemma ManifestRoundTrip(bytes: Bytes, m: Manifest)
    requires m.committedLength < U64
    ensures ReadManifest(bytes) == Some(m) <==> bytes == EncodeManifest(m)
  {
    if bytes == EncodeManifest(m) {
      ManifestIsLong(m);
      hide ParseManifest;
      var content := ManifestContent(m);
      hide ManifestContent;
      SealsExactly(content, Seal(content));
      hide Seals;
      hide Checksum;
      assert bytes[..|bytes| - 4] == content && bytes[|bytes| - 4..] == Seal(content);
      ManifestParses(m);
    }
    if ReadManifest(bytes) == Some(m) {
      hide ParseManifest;
      hide ManifestContent;
      ParsedManifest(bytes[..|bytes| - 4]);
      SealsExactly(bytes[..|bytes| - 4], bytes[|bytes| - 4..]);
      hide Seals;
      hide Seal;
      assert bytes == bytes[..|bytes| - 4] + bytes[|bytes| - 4..];
    }
  }

  /** The committed length of a manifest is a 64-bit number. */
  lemma ReadLengthFits(bytes: Bytes)
    requires ReadManifest(bytes).Some?
    ensures ReadManifest(bytes).value.committedLength < U64
  {
    hide ParseManifest;
    hide Seals;
    ParsedManifest(bytes[..|bytes| - 4]);
  }
}
