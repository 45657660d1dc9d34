/** Posit records: identity, sorted appearances, the exact literal token and the time. */
module PositCodec {
  import opened Prelude
  import opened Encoding
  import opened Times
  import opened Constructs
  import opened Payload

  // ------------------------------------------------------------- sorted appearances

  predicate PairLess(a: Appearance, b: Appearance) {
    a.role < b.role || (a.role == b.role && a.thing < b.thing)
  }

  predicate Ordered(appearanceSet: seq<Appearance>) {
    forall i, j :: 0 <= i < j < |appearanceSet| ==> !PairLess(appearanceSet[j], appearanceSet[i])
  }

  function Insert(a: Appearance, sorted: seq<Appearance>): (r: seq<Appearance>)
    ensures multiset(r) == multiset(sorted) + multiset{a}
  {
    if sorted == [] then [a]
    else if !PairLess(sorted[0], a) then [a] + sorted
    else
      assert sorted == [sorted[0]] + sorted[1..];
      [sorted[0]] + Insert(a, sorted[1..])
  }

  /** The appearances by role, then by Thing. */
  function Sorted(appearanceSet: seq<Appearance>): (r: seq<Appearance>)
    ensures multiset(r) == multiset(appearanceSet)
  {
    if appearanceSet == [] then []
    else
      assert appearanceSet == [appearanceSet[0]] + appearanceSet[1..];
      Insert(appearanceSet[0], Sorted(appearanceSet[1..]))
  }

  lemma {:induction false} InsertKeepsOrder(a: Appearance, sorted: seq<Appearance>)
    requires Ordered(sorted)
    ensures Ordered(Insert(a, sorted))
  {
    if sorted != [] && PairLess(sorted[0], a) {
      var rest := Insert(a, sorted[1..]);
      InsertKeepsOrder(a, sorted[1..]);
      forall x | x in rest ensures !PairLess(x, sorted[0]) {
        assert x in multiset(rest);
        assert x == a || x in sorted[1..];
      }
    }
  }

  lemma {:induction false} SortedIsOrdered(appearanceSet: seq<Appearance>)
    ensures Ordered(Sorted(appearanceSet))
  {
    if appearanceSet != [] {
      SortedIsOrdered(appearanceSet[1..]);
      InsertKeepsOrder(appearanceSet[0], Sorted(appearanceSet[1..]));
    }
  }

  lemma {:induction false} SortedOfOrdered(appearanceSet: seq<Appearance>)
    requires Ordered(appearanceSet)
    ensures Sorted(appearanceSet) == appearanceSet
  {
    if appearanceSet != [] {
      SortedOfOrdered(appearanceSet[1..]);
      assert appearanceSet == [appearanceSet[0]] + appearanceSet[1..];
    }
  }

  predicate RepeatsRole(sorted: seq<Appearance>) {
    exists i :: 0 <= i < |sorted| - 1 && sorted[i].role == sorted[i + 1].role
  }

  /** Neighbours strictly ascending, as a decoder checks them. */
  predicate Ascends(appearanceSet: seq<Appearance>) {
    forall i :: 0 <= i < |appearanceSet| - 1 ==> PairLess(appearanceSet[i], appearanceSet[i + 1]) && appearanceSet[i].role != appearanceSet[i + 1].role
  }

  lemma {:induction false} RolesAscend(appearanceSet: seq<Appearance>, i: nat, j: nat)
    requires Ascends(appearanceSet) && i < j < |appearanceSet|
    ensures appearanceSet[i].role < appearanceSet[j].role
    decreases j
  {
    assert PairLess(appearanceSet[j - 1], appearanceSet[j]) && appearanceSet[j - 1].role != appearanceSet[j].role;
    if i < j - 1 {
      RolesAscend(appearanceSet, i, j - 1);
    }
  }

  lemma AscendsIsCanonical(appearanceSet: seq<Appearance>)
    ensures Ascends(appearanceSet) <==> Canonical(appearanceSet)
  {
    if Ascends(appearanceSet) {
      forall i, j | 0 <= i < j < |appearanceSet| ensures appearanceSet[i].role < appearanceSet[j].role {
        RolesAscend(appearanceSet, i, j);
      }
    }
  }

  /** Sorting yields a canonical set exactly when no role occurs twice. */
  lemma SortedCanonical(appearanceSet: seq<Appearance>)
    ensures Canonical(Sorted(appearanceSet)) <==> !RepeatsRole(Sorted(appearanceSet))
  {
    SortedIsOrdered(appearanceSet);
    AscendsIsCanonical(Sorted(appearanceSet));
    var s := Sorted(appearanceSet);
    if !RepeatsRole(s) {
      forall i | 0 <= i < |s| - 1 ensures PairLess(s[i], s[i + 1]) && s[i].role != s[i + 1].role {
        assert !PairLess(s[i + 1], s[i]);
      }
    }
  }

  // ------------------------------------------------------------------------ writing

  function Appearances(appearanceSet: seq<Appearance>): Bytes {
    if appearanceSet == [] then [] else Little(appearanceSet[0].role, 8) + (Little(appearanceSet[0].thing, 8) + Appearances(appearanceSet[1..]))
  }

  function LiteralBytes(value: Literal): Bytes {
    LiteralRoundTrip(value);
    EncodeLiteral(value, SelectCodec(value)).value
  }

  function PositPayload(p: Posit): Bytes {
    var codec := SelectCodec(p.value);
    Little(p.id, 8) + (Uleb(|p.appearances|) + (Appearances(p.appearances) + ([FamilyIdentifier(p.value.family)]
    + (Little(CodecIdentifier(codec), 2) + (Little(CODEC_VERSION, 2) + (Blob(LiteralBytes(p.value)) + TimePayload(p.time)))))))
  }

  /** Sorts the appearances, refuses a repeated role, and writes the payload. */
  function PositRecord(id: Thing, appearances: seq<Appearance>, value: Literal, time: Time): Option<Bytes> {
    var sorted := Sorted(appearances);
    if RepeatsRole(sorted) then None else Some(PositPayload(Posit(id, sorted, value, time)))
  }

  // ------------------------------------------------------------------------ reading

  function TakeAppearances(bytes: Bytes, count: nat): Option<Parsed<seq<Appearance>>> {
    if count == 0 then Some(Parsed([], bytes))
    else
      var role :- TakeNumber(bytes, 8);
      var thing :- TakeNumber(role.rest, 8);
      if role.value == 0 || thing.value == 0 then None
      else
        var rest :- TakeAppearances(thing.rest, count - 1);
        Some(Parsed([Appearance(thing.value, role.value)] + rest.value, rest.rest))
  }

  function DecodePosit(payload: Bytes, declared: set<Codec>, parse: Parser): Option<Posit> {
    var id :- TakeNumber(payload, 8);
    if id.value == 0 then None
    else
      var count :- TakeUleb(id.rest);
      if count.value == 0 || count.value > |count.rest| / 16 then None
      else
        var appearanceSet :- TakeAppearances(count.rest, count.value);
        if !Ascends(appearanceSet.value) then None
        else DecodeValue(id.value, appearanceSet.value, appearanceSet.rest, declared, parse)
  }

  function DecodeValue(id: Thing, appearanceSet: AppearanceSet, bytes: Bytes, declared: set<Codec>, parse: Parser): Option<Posit> {
    var tag :- TakeByte(bytes);
    var family :- FamilyOf(tag.value);
    var identifier :- TakeNumber(tag.rest, 2);
    var version :- TakeNumber(identifier.rest, 2);
    var codec :- CodecOf(identifier.value, version.value);
    if codec !in declared then None
    else
      var encoded :- TakeBlob(version.rest);
      var token :- DecodeLiteral(encoded.value, family, codec);
      var meaning :- parse(token, family);
      var time :- TakeTime(encoded.rest);
      if time.rest != [] then None
      else Some(Posit(id, appearanceSet, Constructs.Literal(token, family, meaning), time.value))
  }

  /** What a persisted posit satisfies: no genesis identity, a set with one Thing per role, a literal of its family. */
  predicate ValidPosit(p: Posit, parse: Parser) {
    && 0 < p.id < U64 && p.appearances != [] && |p.appearances| < U64 && Canonical(p.appearances)
    && (forall a :: a in p.appearances ==> 0 < a.role < U64 && 0 < a.thing < U64)
    && parse(p.value.token, p.value.family) == Some(p.value.meaning) && |LiteralBytes(p.value)| < U64
  }

  lemma AppearancesStart(appearanceSet: seq<Appearance>, rest: Bytes)
    requires appearanceSet != []
    ensures var (a, later) := (appearanceSet[0], Appearances(appearanceSet[1..]) + rest);
            && Appearances(appearanceSet) + rest == Little(a.role, 8) + (Little(a.thing, 8) + later)
            && |Appearances(appearanceSet)| == 16 + |Appearances(appearanceSet[1..])|
  {
    hide Little;
    var (a, others) := (appearanceSet[0], Appearances(appearanceSet[1..]));
    assert Appearances(appearanceSet) == Little(a.role, 8) + (Little(a.thing, 8) + others);
    hide Appearances;
    Regrouped(Little(a.role, 8), Little(a.thing, 8), others, rest);
  }

  lemma Regrouped(a: Bytes, b: Bytes, c: Bytes, d: Bytes)
    ensures (a + (b + c)) + d == a + (b + (c + d))
  {
  }

  lemma {:induction false} AppearancesReadBack(appearanceSet: seq<Appearance>, rest: Bytes)
    requires forall a :: a in appearanceSet ==> 0 < a.role < U64 && 0 < a.thing < U64
    ensures TakeAppearances(Appearances(appearanceSet) + rest, |appearanceSet|) == Some(Parsed(appearanceSet, rest))
    ensures |Appearances(appearanceSet)| == 16 * |appearanceSet|
  {
    hide Little;
    hide Number;
    if appearanceSet == [] {
      assert Appearances(appearanceSet) + rest == rest;
    } else {
      var (a, others) := (appearanceSet[0], appearanceSet[1..]);
      AppearancesReadBack(others, rest);
      AppearancesStart(appearanceSet, rest);
      hide Appearances;
      Ranges();
      var later := Appearances(others) + rest;
      FixedWidthRoundTrip(a.role, 8, Little(a.thing, 8) + later);
      FixedWidthRoundTrip(a.thing, 8, later);
      hide TakeNumber;
      assert appearanceSet == [a] + others;
    }
  }

  lemma FamiliesReadBack(f: Family)
    ensures FamilyOf(FamilyIdentifier(f)) == Some(f)
  {
  }

  lemma CodecsReadBack(c: Codec)
    ensures CodecOf(CodecIdentifier(c), CODEC_VERSION) == Some(c)
  {
  }

  lemma ValueReadsBack(p: Posit, declared: set<Codec>, parse: Parser)
    requires ValidPosit(p, parse) && SelectCodec(p.value) in declared
    ensures var codec := SelectCodec(p.value);
            DecodeValue(p.id, p.appearances, [FamilyIdentifier(p.value.family)] + (Little(CodecIdentifier(codec), 2)
              + (Little(CODEC_VERSION, 2) + (Blob(LiteralBytes(p.value)) + TimePayload(p.time)))), declared, parse) == Some(p)
  {
    LiteralRoundTrip(p.value);
    FamiliesReadBack(p.value.family);
    var codec := SelectCodec(p.value);
    CodecsReadBack(codec);
    var encoded := LiteralBytes(p.value);
    assert |encoded| < U64;
    hide ValidPosit;
    hide Little;
    hide Number;
    hide Blob;
    hide TakeBlob;
    hide SelectCodec;
    hide LiteralBytes;
    hide CodecOf;
    hide FamilyOf;
    hide DecodeLiteral;
    hide TimePayload;
    hide TakeTime;
    hide CodecIdentifier;
    Ranges();
    var time := TimePayload(p.time);
    assert time == time + [];
    TimeRoundTrip(p.time, []);
    BlobBijection(encoded, time, Blob(encoded) + time);
    var version := Little(CODEC_VERSION, 2) + (Blob(encoded) + time);
    var identifier := Little(CodecIdentifier(codec), 2) + version;
    FixedWidthRoundTrip(CODEC_VERSION, 2, Blob(encoded) + time);
    FixedWidthRoundTrip(CodecIdentifier(codec), 2, version);
    hide TakeNumber;
    var bytes := [FamilyIdentifier(p.value.family)] + identifier;
    assert bytes[1..] == identifier;
    hide FamilyIdentifier;
    assert p.value == Constructs.Literal(p.value.token, p.value.family, p.value.meaning);
  }

  lemma DecodeSteps(payload: Bytes, declared: set<Codec>, parse: Parser, id: nat, appearanceSet: AppearanceSet, counted: Bytes, listed: Bytes, value: Bytes)
    requires TakeNumber(payload, 8) == Some(Parsed(id, counted)) && id != 0
    requires TakeUleb(counted) == Some(Parsed(|appearanceSet|, listed)) && 0 < |appearanceSet| <= |listed| / 16
    requires TakeAppearances(listed, |appearanceSet|) == Some(Parsed(appearanceSet, value)) && Ascends(appearanceSet)
    ensures DecodePosit(payload, declared, parse) == DecodeValue(id, appearanceSet, value, declared, parse)
  {
    hide TakeNumber;
    hide TakeUleb;
    hide TakeAppearances;
    hide DecodeValue;
    hide Ascends;
  }

  /**
   Decoding a written posit returns the same identity, appearances, exact token and time,
   for every family and precision, once its codec has been declared.
   */
  lemma PositRoundTrip(p: Posit, declared: set<Codec>, parse: Parser)
    requires ValidPosit(p, parse) && SelectCodec(p.value) in declared
    ensures DecodePosit(PositPayload(p), declared, parse) == Some(p)
  {
    ValueReadsBack(p, declared, parse);
    AscendsIsCanonical(p.appearances);
    Ranges();
    hide Little;
    hide Number;
    hide Uleb;
    hide TakeUlebFrom;
    hide Blob;
    hide SelectCodec;
    hide LiteralBytes;
    hide FamilyIdentifier;
    hide TimePayload;
    hide DecodeValue;
    hide Appearances;
    hide TakeAppearances;
    var codec := SelectCodec(p.value);
    var value := [FamilyIdentifier(p.value.family)] + (Little(CodecIdentifier(codec), 2)
      + (Little(CODEC_VERSION, 2) + (Blob(LiteralBytes(p.value)) + TimePayload(p.time))));
    var listed := Appearances(p.appearances) + value;
    var counted := Uleb(|p.appearances|) + listed;
    assert PositPayload(p) == Little(p.id, 8) + counted;
    FixedWidthRoundTrip(p.id, 8, counted);
    UlebBijection(|p.appearances|, listed, counted);
    AppearancesReadBack(p.appearances, value);
    DecodeSteps(PositPayload(p), declared, parse, p.id, p.appearances, counted, listed, value);
  }

  /** Whatever order the appearances arrive in, the record decodes to them sorted, or there is none. */
  lemma RecordRoundTrip(id: Thing, appearances: seq<Appearance>, value: Literal, time: Time, declared: set<Codec>, parse: Parser)
    requires 0 < id < U64 && appearances != [] && |appearances| < U64
    requires forall a :: a in appearances ==> 0 < a.role < U64 && 0 < a.thing < U64
    requires parse(value.token, value.family) == Some(value.meaning) && |LiteralBytes(value)| < U64 && SelectCodec(value) in declared
    ensures var record := PositRecord(id, appearances, value, time);
            if RepeatsRole(Sorted(appearances)) then record.None?
            else record.Some? && DecodePosit(record.value, declared, parse) == Some(Posit(id, Sorted(appearances), value, time))
  {
    if !RepeatsRole(Sorted(appearances)) {
      var p := Posit(id, Sorted(appearances), value, time);
      SortedCanonical(appearances);
      assert |multiset(p.appearances)| == |multiset(appearances)|;
      forall a | a in p.appearances ensures a in appearances {
        assert a in multiset(p.appearances);
      }
      assert ValidPosit(p, parse);
      PositRoundTrip(p, declared, parse);
    }
  }

  /** The appearance loop: one role and one Thing at a time, none of them genesis. */
  method DecodeAppearances(payload: Bytes, start: nat, count: nat) returns (decoded: Option<(seq<Appearance>, nat)>)
    requires start <= |payload|
    ensures match TakeAppearances(payload[start..], count) {
              case None => decoded.None?
              case Some(p) =>
                && (decoded.Some? <==> Ascends(p.value))
                && (decoded.Some? ==> decoded.value.0 == p.value && decoded.value.1 <= |payload| && payload[decoded.value.1..] == p.rest)
            }
  {
    hide Number;
    var appearances: seq<Appearance> := [];
    var cursor: nat := start;
    BehindNothing(TakeAppearances(payload[start..], count));
    for i := 0 to count
      invariant cursor <= |payload|
      invariant TakeAppearances(payload[start..], count) == Behind(appearances, TakeAppearances(payload[cursor..], count - i))
    {
      if |payload| - cursor < 16 {
        assert TakeAppearances(payload[cursor..], count - i).None?;
        return None;
      }
      var role := Number(payload[cursor..cursor + 8]);
      var thing := Number(payload[cursor + 8..cursor + 16]);
      ghost var here := payload[cursor..];
      assert here[..8] == payload[cursor..cursor + 8] && here[8..][..8] == payload[cursor + 8..cursor + 16] && here[8..][8..] == payload[cursor + 16..];
      if role == 0 || thing == 0 {
        return None;
      }
      BehindOneMore(appearances, Appearance(thing, role), TakeAppearances(payload[cursor + 16..], count - i - 1));
      appearances := appearances + [Appearance(thing, role)];
      cursor := cursor + 16;
    }
    assert appearances + [] == appearances;
    if !Ascends(appearances) {
      return None;
    }
    return Some((appearances, cursor));
  }

  lemma BehindNothing(rest: Option<Parsed<seq<Appearance>>>)
    ensures Behind([], rest) == rest
  {
    if rest.Some? {
      assert [] + rest.value.value == rest.value.value;
    }
  }

  function Behind(done: seq<Appearance>, rest: Option<Parsed<seq<Appearance>>>): Option<Parsed<seq<Appearance>>> {
    var p :- rest;
    Some(Parsed(done + p.value, p.rest))
  }

  lemma BehindOneMore(done: seq<Appearance>, a: Appearance, rest: Option<Parsed<seq<Appearance>>>)
    ensures Behind(done, Behind([a], rest)) == Behind(done + [a], rest)
  {
    if rest.Some? {
      assert done + ([a] + rest.value.value) == done + [a] + rest.value.value;
    }
  }
}
