/**
 The bytes themselves: what each encoding writes, field by field and for chosen inputs.
 The round trips say that what is written reads back; these say what is written.
 */
module WireFormat {
  import opened Prelude
  import opened Crc
  import opened Encoding
  import opened Times
  import opened Constructs
  import opened Decimals
  import opened Frames
  import opened Manifests
  import opened Payload
  import opened PositCodec
  import opened Exports
  import Utf8

  // ------------------------------------------------------------------------ numbers

  /** The low byte first. */
  lemma LittleBytes()
    ensures Little(0x0102, 2) == [0x02, 0x01]
    ensures Little(0x0102_0304, 4) == [0x04, 0x03, 0x02, 0x01]
    ensures Little(0x0102_0304_0506_0708, 8) == [0x08, 0x07, 0x06, 0x05, 0x04, 0x03, 0x02, 0x01]
  {
  }

  lemma SmallNumbers(n: Byte)
    ensures Little(n, 2) == [n, 0] && Little(n, 4) == [n, 0, 0, 0] && Little(n, 8) == [n, 0, 0, 0, 0, 0, 0, 0]
  {
    assert Little(0, 7) == [0, 0, 0, 0, 0, 0, 0];
    assert Little(0, 3) == [0, 0, 0];
  }

  lemma UlebBytes()
    ensures Uleb(0) == [0] && Uleb(127) == [0x7f] && Uleb(128) == [0x80, 0x01] && Uleb(624485) == [0xe5, 0x8e, 0x26]
  {
  }

  /** Zero, then each negative number before the positive one of its size. */
  lemma ZigzagCounts(n: int)
    requires MIN_I64 <= n <= MAX_I64
    ensures Zigzag(n) == if n < 0 then -2 * n - 1 else 2 * n
  {
  }

  lemma SignedBytes()
    ensures I32(-1) == [0xff, 0xff, 0xff, 0xff] && I32(-2) == [0xfe, 0xff, 0xff, 0xff] && I32(2024) == [0xe8, 0x07, 0, 0]
  {
    assert Unsigned(-1, U32) == 0xffff_ffff && Unsigned(-2, U32) == 0xffff_fffe;
  }

  lemma Tokens()
    ensures Show(0) == "0" && Show(42) == "42" && Show(-120) == "-120"
  {
  }

  // --------------------------------------------------------------------------- text

  /** One, two, three and four bytes. */
  lemma TextBytes()
    ensures Utf8.EncodeChar('A') == [0x41] && Utf8.EncodeChar('\U{e9}') == [0xc3, 0xa9]
    ensures Utf8.EncodeChar('\U{20ac}') == [0xe2, 0x82, 0xac] && Utf8.EncodeChar('\U{1f600}') == [0xf0, 0x9f, 0x98, 0x80]
  {
  }

  lemma {:induction false} PlainText(text: string)
    requires forall i :: 0 <= i < |text| ==> text[i] as int < 128
    ensures |Utf8.Encode(text)| == |text| && forall i :: 0 <= i < |text| ==> Utf8.Encode(text)[i] as int == text[i] as int
  {
    if text != "" {
      assert text == [text[0]] + text[1..];
      PlainText(text[1..]);
      assert Utf8.EncodeChar(text[0]) == [text[0] as int];
    }
  }

  // ----------------------------------------------------------------------- payloads

  const FROM_NAME: Bytes := [0x66, 0x72, 0x6f, 0x6d]

  lemma FromName()
    ensures Text("from") == [4] + FROM_NAME
  {
    PlainText("from");
    assert Utf8.Encode("from") == FROM_NAME;
  }

  lemma RoleBytes(reserved: bool)
    ensures RolePayload(Role(6, "from", reserved)) == [6, 0, 0, 0, 0, 0, 0, 0, if reserved then 1 else 0, 4] + FROM_NAME
  {
    FromName();
  }

  lemma CodecBytes(c: Codec)
    ensures CodecPayload(c) ==
            [CodecIdentifier(c), 0, 1, 0, CodecFamily(c), 0, 0] + Text(CodecName(c))
    ensures (CodecIdentifier(c), CodecFamily(c), CodecName(c)) ==
            match c case RawUtf8 => (0, 0, "raw-utf8-token") case CanonicalI64 => (1, 2, "canonical-i64") case CanonicalCertainty => (2, 4, "canonical-certainty")
  {
    hide Text;
    assert Little(CodecIdentifier(c), 2) == [CodecIdentifier(c), 0];
  }

  lemma FamilyBytes()
    ensures FamilyIdentifier(StringFamily) == 1 && FamilyIdentifier(IntegerFamily) == 2 && FamilyIdentifier(DecimalFamily) == 3
    ensures FamilyIdentifier(CertaintyFamily) == 4 && FamilyIdentifier(JsonFamily) == 5 && FamilyIdentifier(TimeFamily) == 6
  {
  }

  /** A tag for the precision, then the fields it has; a year is a signed number of four bytes. */
  lemma DateTimeBytes()
    ensures TimePayload(BeginningOfTime) == [0] && TimePayload(EndOfTime) == [1]
    ensures TimePayload(Year(-1)) == [2, 0xff, 0xff, 0xff, 0xff]
    ensures TimePayload(YearMonth(2024, 6)) == [3, 0xe8, 0x07, 0, 0, 6]
    ensures TimePayload(Day(Date(2024, 6, 1))) == [4, 0xe8, 0x07, 0, 0, 6, 1]
  {
    SignedBytes();
    hide I32;
  }

  lemma MomentBytes(d: Date, c: Clock)
    requires ValidDate(d) && ValidClock(c)
    ensures TimePayload(Moment(d, c)) == [5] + I32(d.year) + [d.month, d.day, c.hour, c.minute, c.second] + Little(c.nanosecond, 4)
  {
    hide I32;
    hide Little;
    assert [d.month, d.day] + [c.hour, c.minute, c.second] == [d.month, d.day, c.hour, c.minute, c.second];
    Regroup([5], I32(d.year), [d.month, d.day], [c.hour, c.minute, c.second], Little(c.nanosecond, 4));
  }

  lemma Regroup(a: Bytes, b: Bytes, c: Bytes, d: Bytes, e: Bytes)
    ensures a + ((b + c) + (d + e)) == a + b + (c + d) + e
  {
  }

  lemma CompactIntegerBytes()
    ensures LiteralBytes(Literal("-3", IntegerFamily, -3)) == [5]
  {
    assert Parse("-3", MIN_I64, MAX_I64) == Some(-3) && Show(-3) == "-3";
    hide Show;
    hide Parse;
  }

  lemma CompactPercentBytes()
    ensures LiteralBytes(Literal("-3%", CertaintyFamily, -3)) == [0xfd]
  {
    assert Parse("-3", -128, 127) == Some(-3) && Show(-3) == "-3";
    hide Show;
    hide Parse;
    var token := "-3%";
    assert token == "-3" + "%" && token[..|token| - 1] == "-3";
    assert ParsePercent(token) == Some(-3);
  }

  lemma OneAppearance(a: Appearance)
    ensures Appearances([a]) == Little(a.role, 8) + Little(a.thing, 8)
  {
    hide Little;
    assert [a][1..] == [];
    assert Appearances([a]) == Little(a.role, 8) + (Little(a.thing, 8) + Appearances([]));
  }

  lemma EightParts(a: Bytes, b: Bytes, c: Bytes, d: Bytes, e: Bytes, f: Bytes, g: Bytes, h: Bytes)
    ensures a + (b + ((c + d) + (e + (f + (g + h))))) == a + b + c + d + e + f + g + h
  {
  }

  /** Identity, count, appearances with the role first, family, codec and its version; then the literal and the time. */
  lemma PositBytes(id: Thing, a: Appearance, value: Literal, time: Time)
    ensures PositPayload(Posit(id, [a], value, time)) ==
            Little(id, 8) + [1] + Little(a.role, 8) + Little(a.thing, 8) + [FamilyIdentifier(value.family)]
            + [CodecIdentifier(SelectCodec(value)), 0] + [1, 0] + (Blob(LiteralBytes(value)) + TimePayload(time))
  {
    var codec := SelectCodec(value);
    OneAppearance(a);
    SmallNumbers(1);
    SmallNumbers(CodecIdentifier(codec));
    assert Uleb(1) == [1];
    hide Little;
    hide Blob;
    hide LiteralBytes;
    hide TimePayload;
    hide SelectCodec;
    hide FamilyIdentifier;
    hide CodecIdentifier;
    hide Appearances;
    hide Uleb;
    EightParts(Little(id, 8), [1], Little(a.role, 8), Little(a.thing, 8), [FamilyIdentifier(value.family)], [CodecIdentifier(codec), 0],
      [1, 0], Blob(LiteralBytes(value)) + TimePayload(time));
  }

  // ------------------------------------------------------------------------- frames

  /** The sync word, version, kind, flags, number, length and payload; behind them their checksum. */
  lemma FrameBytes(r: StoredRecord)
    requires Storable(r) && |r.record.payload| < 128
    ensures var (frame, end) := (Frame(r), 17 + |r.record.payload|);
            && |frame| == end + 4
            && frame[..4] == [0x50, 0x54, 0x52, 0x31] && frame[4] == 1 && frame[5] == r.record.kind && frame[6] == frame[7] == 0
            && frame[8..16] == Little(r.sequence, 8) && frame[16] as int == |r.record.payload| && frame[17..end] == r.record.payload
            && frame[end..] == Little(Checksum(frame[..end]) as int, 4)
  {
    SmallNumbers(0);
    assert Uleb(|r.record.payload|) == [|r.record.payload|];
    assert Little(r.record.flags, 2) == [0, 0];
    hide Checksum;
    hide Little;
    hide Uleb;
    hide Fits;
    FrameParts(FRAME_MAGIC, [r.record.version, r.record.kind], [0, 0], Little(r.sequence, 8), [|r.record.payload|], r.record.payload,
      Little(Checksum(Content(r)) as int, 4));
  }

  lemma FrameParts(a: Bytes, b: Bytes, c: Bytes, d: Bytes, e: Bytes, f: Bytes, g: Bytes)
    requires |a| == 4 && |b| == |c| == 2 && |d| == 8 && |e| == 1
    ensures var x := (a + b + c + d + e + f) + g;
            && |x| == 17 + |f| + |g| && x[..4] == a && x[4] == b[0] && x[5] == b[1] && x[6] == c[0] && x[7] == c[1] && x[8..16] == d && x[16] == e[0]
            && x[17..17 + |f|] == f && x[17 + |f|..] == g && x[..17 + |f|] == a + b + c + d + e + f
  {
  }

  lemma UlebLengths(n: nat)
    ensures 128 <= n < 0x4000 ==> |Uleb(n)| == 2
    ensures 0x4000 <= n < 0x20_0000 ==> |Uleb(n)| == 3
    ensures 0x20_0000 <= n < 0x1000_0000 ==> |Uleb(n)| == 4
  {
    if 128 <= n {
      UlebUnfolds(n);
      if 0x4000 <= n {
        UlebUnfolds(n / 128);
        if 0x20_0000 <= n {
          UlebUnfolds(n / 128 / 128);
        }
      }
    }
  }

  /** A frame is at most 16 MiB: 24 bytes around the largest payload there is. */
  lemma LargestPayload(payload: Bytes)
    ensures Frames.Fits(payload) <==> |payload| <= 16_777_192
  {
    UlebLengths(|payload|);
    hide Uleb;
  }

  lemma RecordKinds()
    ensures RECORD_ROLE == 1 && RECORD_CODEC == 2 && RECORD_POSIT == 3 && RECORD_COMMIT == 255
  {
  }

  /** The batch, the numbers of its first and last record, and how many there are. */
  lemma CommitBytes(batch: nat, first: nat, last: nat, count: nat)
    ensures var payload := CommitPayload(batch, first, last, count);
            && |payload| >= 24
            && payload[..8] == Little(batch, 8) && payload[8..16] == Little(first, 8) && payload[16..24] == Little(last, 8) && payload[24..] == Uleb(count)
  {
    hide Little;
    hide Uleb;
  }

  // ---------------------------------------------------------------- the store's files

  lemma SevenParts(a: Bytes, b: Bytes, c: Bytes, d: Bytes, e: Bytes, f: Bytes, g: Bytes, h: Bytes)
    requires |a| == 8 && |b| == |c| == 2 && |d| == 4 && |e| == 16 && |f| == 8 && |g| == 20 && |h| == 4
    ensures var x := (a + b + c + d + e + f + g) + h;
            && |x| == 64 && x[..8] == a && x[8..10] == b && x[10..12] == c && x[12..16] == d && x[16..32] == e && x[32..40] == f && x[40..60] == g
            && x[60..] == h && x[..60] == a + b + c + d + e + f + g
  {
    var x := (a + b + c + d + e + f + g) + h;
    assert x[..8] == a && x[8..10] == b && x[10..12] == c && x[12..16] == d;
    assert x[16..32] == e && x[32..40] == f && x[40..60] == g;
  }

  /** The log header, at the offsets the format gives its fields. */
  lemma HeaderBytes(uuid: Uuid)
    ensures var header := LogHeader(uuid);
            && header[..8] == [0x50, 0x4f, 0x53, 0x49, 0x54, 0x4c, 0x4f, 0x47]
            && header[8..10] == [1, 0] && header[10..12] == [0, 0] && header[12..16] == [64, 0, 0, 0] && header[16..32] == uuid
            && header[32..40] == [1, 0, 0, 0, 0, 0, 0, 0] && header[40..60] == Zeros(20) && header[60..] == Little(Checksum(header[..60]) as int, 4)
  {
    SmallNumbers(0);
    SmallNumbers(1);
    SmallNumbers(64);
    SevenParts(LOG_MAGIC, Little(FORMAT_MAJOR, 2), Little(FORMAT_MINOR, 2), Little(LOG_HEADER_LEN, 4), uuid, Little(1, 8), ZEROS, Seal(HeaderContent(uuid)));
    assert ZEROS == Zeros(20);
    hide Zeros;
    hide Checksum;
    hide Little;
  }

  function Zeros(n: nat): Bytes {
    seq(n, _ => 0)
  }

  lemma TenParts(a: Bytes, b: Bytes, c: Bytes, d: Bytes, e: Bytes, f: Bytes, g: Bytes, h: Bytes, i: Bytes, seal: Bytes)
    requires |a| == 8 && |b| == |c| == 2 && |d| == 4 && |e| == 16 && |f| == |g| == 8 && |h| == 35 && |i| == 8 && |seal| == 4
    ensures var content := (a + (b + (c + (d + (e + (f + (g + h))))))) + i;
            var x := content + seal;
            && |x| == 95 && x[..8] == a && x[8..10] == b && x[10..12] == c && x[12..16] == d && x[16..32] == e && x[32..40] == f && x[40..48] == g
            && x[48..83] == h && x[83..91] == i && x[91..] == seal && x[..91] == content
  {
    var x := (a + (b + (c + (d + (e + (f + (g + h))))))) + i + seal;
    assert x[..8] == a && x[8..10] == b && x[10..12] == c && x[12..16] == d;
    assert x[16..32] == e && x[32..40] == f;
    assert x[40..48] == g;
    assert x[48..83] == h;
    assert x[83..91] == i;
  }

  lemma SegmentParts(name: Bytes)
    ensures [1] + (([24] + name) + ([1, 0, 0, 0, 0, 0, 0, 0] + [0])) == [1, 24] + name + [1, 0, 0, 0, 0, 0, 0, 0, 0]
  {
    assert [1, 0, 0, 0, 0, 0, 0, 0] + [0] == [1, 0, 0, 0, 0, 0, 0, 0, 0];
    assert [1] + ([24] + name) == [1, 24] + name;
  }

  lemma SegmentBytes()
    ensures Segment() == [1, 24] + LOG_NAME + [1, 0, 0, 0, 0, 0, 0, 0, 0]
  {
    SmallNumbers(1);
    assert Uleb(1) == [1] && Uleb(24) == [24];
    SegmentParts(LOG_NAME);
    hide Little;
    hide Uleb;
  }

  /** The manifest: one unsealed segment, whose committed length is all that ever changes. */
  lemma ManifestBytes(m: Manifest)
    ensures var bytes := EncodeManifest(m);
            && |bytes| == 95 && bytes[..8] == [0x50, 0x4f, 0x53, 0x49, 0x54, 0x50, 0x4d, 0x46]
            && bytes[8..10] == [1, 0] && bytes[10..12] == [0, 0] && bytes[12..16] == [48, 0, 0, 0] && bytes[16..32] == m.uuid
            && bytes[32..40] == bytes[40..48] == [0, 0, 0, 0, 0, 0, 0, 0]
            && bytes[48..83] == [1, 24] + LOG_NAME + [1, 0, 0, 0, 0, 0, 0, 0, 0]
            && bytes[83..91] == Little(m.committedLength, 8) && bytes[91..] == Little(Checksum(bytes[..91]) as int, 4)
  {
    SmallNumbers(0);
    SmallNumbers(1);
    SmallNumbers(48);
    SegmentBytes();
    hide Checksum;
    hide Little;
    hide Segment;
    TenParts(MANIFEST_MAGIC, Little(FORMAT_MAJOR, 2), Little(FORMAT_MINOR, 2), Little(MANIFEST_HEADER_LEN, 4), m.uuid, Little(0, 8), Little(0, 8), Segment(),
      Little(m.committedLength, 8), Seal(ManifestContent(m)));
  }

  // --------------------------------------------------------------- logical exports

  /** An exported posit names each role as a role and each Thing as a Thing, under the store's identifier. */
  lemma ExportedPosit(store: string, p: Posit)
    ensures var line := PositLineOf(store, p);
            && line.PositLine? && line.identity == External(store, p.id) && line.token == p.value.token && line.family == FamilyName(p.value.family)
            && |line.appearances| == |p.appearances|
            && forall i :: 0 <= i < |p.appearances| ==>
                 line.appearances[i].role == External(store, p.appearances[i].role) && line.appearances[i].thing == External(store, p.appearances[i].thing)
  {
  }

  lemma FamilyNames()
    ensures ParseFamily("string") == Some(StringFamily) && ParseFamily("integer") == Some(IntegerFamily) && ParseFamily("decimal") == Some(DecimalFamily)
    ensures ParseFamily("certainty") == Some(CertaintyFamily) && ParseFamily("json") == Some(JsonFamily) && ParseFamily("time") == Some(TimeFamily)
  {
  }
}
