/**
 Families along a branch.  Bindings are compared by token, so two literals of different
 families can meet in one variable, and the row then keeps the family it met first.  Every
 pattern's rows are its relation together with those families.
 */
module Families {
  import opened Prelude
  import opened Sequences
  import opened Times
  import opened Constructs
  import opened Temporal
  import opened Effect
  import opened Bindings
  import opened Matching
  import opened Patterns
  import opened JoinOrder
  import opened LatestPatterns
  import opened Branches

  type FamilyMap = map<string, Family>

  /** A posit with the row found for it. */
  datatype CarriedMatch = CarriedMatch(posit: Posit, row: Row)

  // ------------------------------------------------------------- carried relations

  function SlotFamilies(slot: ValueSlot, value: Literal): FamilyMap {
    if slot.ValueVariable? then map[slot.name := value.family] else map[]
  }

  /** The families once a posit's value has met the value slot. */
  function AfterFields(families: FamilyMap, p: PositPattern, q: Posit): FamilyMap {
    SlotFamilies(p.value, q.value) + families
  }

  /** The families that structural matching and the reduction leave in place. */
  function StructuralFamilies(p: PositPattern, families: FamilyMap): FamilyMap {
    if p.cutoff.Some? then families - Deferred(p) else families
  }

  function StructuralRow(p: PositPattern, input: Row): Row {
    Row(StructuralInput(p, input.binding), StructuralFamilies(p, input.families))
  }

  function Carried(p: PositPattern, families: FamilyMap): StructuralMatch -> CarriedMatch {
    (m: StructuralMatch) => CarriedMatch(m.posit, Row(m.binding, AfterFields(families, p, m.posit)))
  }

  function Carriedly(p: PositPattern, families: FamilyMap): StructuralMatch -> seq<CarriedMatch> {
    (m: StructuralMatch) => [Carried(p, families)(m)]
  }

  /** The final join: a candidate's own families win over the input's. */
  function JoinedWith(input: Row): CarriedMatch -> seq<Row> {
    (c: CarriedMatch) =>
      match Merge(input.binding, c.row.binding)
      case None => []
      case Some(b) => [Row(b, input.families + c.row.families)]
  }

  ghost function CarriedScan(ctx: Context, p: PositPattern, posits: seq<Posit>, cut: Option<Time>, input: Row): seq<Row> {
    var own := StructuralRow(p, input);
    FlatMap(FlatMap(SelectedRows(ctx, p, posits, cut, own.binding), Carriedly(p, own.families)), JoinedWith(input))
  }

  function Dressing(families: FamilyMap): Binding -> seq<Row> {
    (b: Binding) => [Row(b, families)]
  }

  function EvidenceFamilies(p: PositPattern, via: Option<PositPattern>, row: Evidence, families: FamilyMap): FamilyMap {
    var target := AfterFields(families, p, row.target);
    if via.None? then target else AfterFields(target, via.value, row.assertion)
  }

  ghost function CarriedEvidence(ctx: Context, p: PositPattern, via: Option<PositPattern>, input: Row): Evidence -> seq<Row> {
    (row: Evidence) =>
      FlatMap(OnEvidence(ctx, p, via, input.binding)(row), Dressing(EvidenceFamilies(p, via, row, input.families)))
  }

  ghost function CarriedEffect(ctx: Context, p: PositPattern, via: Option<PositPattern>, rows: seq<Evidence>, input: Row): seq<Row> {
    FlatMap(rows, CarriedEvidence(ctx, p, via, input))
  }

  /** What a full evaluation of a pattern returns, families included. */
  ghost function CarriedRelation(s: Snapshot, p: PositPattern, input: Row): seq<Row> {
    var ctx := Context(s.roleNames, input.binding);
    if p.effect.Some? then
      var assertionCut := ResolvedCutoff(p.effect.value.assertionCutoff, input.binding);
      var appearanceCut := ResolvedCutoff(p.effect.value.appearanceCutoff, input.binding);
      if assertionCut.Err? || appearanceCut.Err? then []
      else CarriedEffect(ctx, p, p.effect.value.via, SliceAt(s, Cut(assertionCut.value, appearanceCut.value)), input)
    else if p.cutoff.None? then CarriedScan(ctx, p, AllPosits(s), None, input)
    else
      match ResolvedCutoff(p.cutoff.value, input.binding)
      case Err(_) => []
      case Ok(cut) => CarriedScan(ctx, p, AllPosits(s), Some(cut), input)
  }

  ghost function CarriedStep(s: Snapshot, p: PositPattern): Row -> seq<Row> {
    (input: Row) => CarriedRelation(s, p, input)
  }

  /** Runs patterns in order over a list of rows. */
  ghost function CarriedRun(s: Snapshot, patterns: seq<PositPattern>, rows: seq<Row>): seq<Row> {
    if patterns == [] then rows else CarriedRun(s, patterns[1..], FlatMap(rows, CarriedStep(s, patterns[0])))
  }

  // ----------------------------------------------------- candidates, step by step

  /** Structural matches under one row: matching leaves its families alone. */
  function Holding(families: FamilyMap): StructuralMatch -> seq<CarriedMatch> {
    (m: StructuralMatch) => [CarriedMatch(m.posit, Row(m.binding, families))]
  }

  function FieldingCarried(p: PositPattern): CarriedMatch -> seq<CarriedMatch> {
    (c: CarriedMatch) =>
      match Join(Some(c.row.binding), FieldBinding(p, c.posit))
      case Some(b) => [CarriedMatch(c.posit, Row(b, AfterFields(c.row.families, p, c.posit)))]
      case None => []
  }

  lemma FieldsCarried(p: PositPattern, rows: seq<StructuralMatch>, families: FamilyMap)
    ensures FlatMap(FlatMap(rows, Holding(families)), FieldingCarried(p)) == FlatMap(FieldRows(p, rows), Carriedly(p, families))
  {
    hide Merge;
    hide FieldBinding;
    hide AfterFields;
    var (f, g, h) := (Holding(families), FieldingCarried(p), Carriedly(p, families));
    FlatMapFlatMap(rows, f, g);
    FlatMapFlatMap(rows, Fielding(p), h);
    forall m | m in rows ensures Then(f, g)(m) == Then(Fielding(p), h)(m) {
      FieldCarried(p, m, families);
    }
    FlatMapAgree(rows, Then(f, g), Then(Fielding(p), h));
  }

  lemma FieldCarried(p: PositPattern, m: StructuralMatch, families: FamilyMap)
    ensures Then(Holding(families), FieldingCarried(p))(m) == Then(Fielding(p), Carriedly(p, families))(m)
  {
    hide FlatMap;
    hide Merge;
    hide FieldBinding;
    hide AfterFields;
    var held := CarriedMatch(m.posit, Row(m.binding, families));
    assert Holding(families)(m) == [held];
    FlatMapOne(held, FieldingCarried(p));
    var joined := Join(Some(m.binding), FieldBinding(p, m.posit));
    if joined.Some? {
      var fielded := StructuralMatch(m.posit, joined.value);
      assert Fielding(p)(m) == [fielded];
      FlatMapOne(fielded, Carriedly(p, families));
      assert Carriedly(p, families)(fielded) == [Carried(p, families)(fielded)] == FieldingCarried(p)(held);
    } else {
      assert Fielding(p)(m) == [];
      FlatMapNothing(Carriedly(p, families));
    }
  }

  function CarriedSet(c: CarriedMatch): AppearanceSet {
    c.posit.appearances
  }

  function CarriedTime(c: CarriedMatch): Time {
    c.posit.time
  }

  /** One carried match for each match, of the same posit. */
  ghost predicate Dresses(d: StructuralMatch -> seq<CarriedMatch>) {
    forall m :: |d(m)| == 1 && d(m)[0].posit == m.posit
  }

  lemma {:induction false} KeepDressed(rows: seq<StructuralMatch>, d: StructuralMatch -> seq<CarriedMatch>, p: StructuralMatch -> bool, q: CarriedMatch -> bool)
    requires Dresses(d) && forall m :: m in rows ==> p(m) == q(d(m)[0])
    ensures Keep(FlatMap(rows, d), q) == FlatMap(Keep(rows, p), d)
  {
    if rows != [] {
      var (front, last) := (rows[..|rows| - 1], rows[|rows| - 1]);
      assert rows == front + [last];
      KeepDressed(front, d, p, q);
      KeepSnoc(FlatMap(front, d), d(last)[0], q);
      assert d(last) == [d(last)[0]];
      KeepSnoc(front, last, p);
      FlatMapSnoc(Keep(front, p), last, d);
    }
  }

  /** The reduction looks at posits alone, so it carries families along. */
  lemma ReducedDressed(rows: seq<StructuralMatch>, d: StructuralMatch -> seq<CarriedMatch>)
    requires Dresses(d)
    ensures Maximal(FlatMap(rows, d), CarriedSet, CarriedTime) == FlatMap(Reduced(rows), d)
  {
    var dressed := FlatMap(rows, d);
    MaximalKeeps(dressed, CarriedSet, CarriedTime);
    MaximalKeeps(rows, SetOf, TimeOf);
    var (p, q) := (Undominated(rows, SetOf, TimeOf), Undominated(dressed, CarriedSet, CarriedTime));
    forall m | m in rows ensures p(m) == q(d(m)[0]) {
      UndominatedDressed(rows, d, m);
    }
    KeepDressed(rows, d, p, q);
  }

  lemma UndominatedDressed(rows: seq<StructuralMatch>, d: StructuralMatch -> seq<CarriedMatch>, m: StructuralMatch)
    requires Dresses(d) && m in rows
    ensures Undominated(rows, SetOf, TimeOf)(m) == Undominated(FlatMap(rows, d), CarriedSet, CarriedTime)(d(m)[0])
  {
    hide FlatMap;
    hide DefinitelyBefore;
    var dressed := FlatMap(rows, d);
    forall c ensures c in dressed <==> exists other :: other in rows && c in d(other) {
      FlatMapMembers(rows, d, c);
    }
    if Undominated(rows, SetOf, TimeOf)(m) {
      forall c | c in dressed && CarriedSet(c) == m.posit.appearances ensures !DefinitelyBefore(m.posit.time, CarriedTime(c)) {
        var other :| other in rows && c in d(other);
        assert c == d(other)[0];
      }
    } else {
      var other :| other in rows && SetOf(other) == SetOf(m) && DefinitelyBefore(TimeOf(m), TimeOf(other));
      var later := d(other)[0];
      assert later in d(other) && later in dressed;
      assert CarriedSet(later) == CarriedSet(d(m)[0]) && DefinitelyBefore(CarriedTime(d(m)[0]), CarriedTime(later));
    }
  }

  // ------------------------------------------------------ without the families

  function BindingIn(): Row -> seq<Binding> {
    (row: Row) => [row.binding]
  }

  /** The bindings of rows. */
  ghost function Plain(rows: seq<Row>): seq<Binding> {
    FlatMap(rows, BindingIn())
  }

  lemma PlainScan(ctx: Context, p: PositPattern, posits: seq<Posit>, cut: Option<Time>, input: Row)
    ensures Plain(CarriedScan(ctx, p, posits, cut, input)) == ScanRelation(ctx, p, posits, cut, input.binding)
  {
    hide SelectedRows;
    hide Merge;
    hide AfterFields;
    var own := StructuralRow(p, input);
    var rows := SelectedRows(ctx, p, posits, cut, own.binding);
    var (f, g) := (Carriedly(p, own.families), JoinedWith(input));
    FlatMapFlatMap(rows, f, g);
    FlatMapFlatMap(rows, Then(f, g), BindingIn());
    FlatMapFlatMap(rows, BindingOf, Extending(input.binding));
    forall m | m in rows ensures Then(Then(f, g), BindingIn())(m) == Then(BindingOf, Extending(input.binding))(m) {
      PlainJoined(p, own.families, input, m);
    }
    FlatMapAgree(rows, Then(Then(f, g), BindingIn()), Then(BindingOf, Extending(input.binding)));
  }

  lemma PlainJoined(p: PositPattern, families: FamilyMap, input: Row, m: StructuralMatch)
    ensures Then(Then(Carriedly(p, families), JoinedWith(input)), BindingIn())(m) == Then(BindingOf, Extending(input.binding))(m)
  {
    hide Merge;
    hide FlatMap;
    hide AfterFields;
    var c := Carried(p, families)(m);
    assert Carriedly(p, families)(m) == [c] && BindingOf(m) == [m.binding];
    FlatMapOne(c, JoinedWith(input));
    FlatMapOne(m.binding, Extending(input.binding));
    if Merge(input.binding, m.binding).Some? {
      var row := JoinedWith(input)(c)[0];
      assert JoinedWith(input)(c) == [row] && Extending(input.binding)(m.binding) == [row.binding];
      FlatMapOne(row, BindingIn());
    } else {
      FlatMapNothing(BindingIn());
    }
  }

  lemma PlainNothing()
    ensures Plain([]) == []
  {
  }

  lemma PlainSnoc(rows: seq<Row>, row: Row)
    ensures Plain(rows + [row]) == Plain(rows) + [row.binding]
  {
    FlatMapSnoc(rows, row, BindingIn());
  }

  lemma {:induction false} PlainDressed(bindings: seq<Binding>, families: FamilyMap)
    ensures Plain(FlatMap(bindings, Dressing(families))) == bindings
  {
    hide FlatMap;
    hide Plain;
    if bindings == [] {
      FlatMapNothing(Dressing(families));
      PlainNothing();
    } else {
      var (front, last) := (bindings[..|bindings| - 1], bindings[|bindings| - 1]);
      assert bindings == front + [last];
      FlatMapSnoc(front, last, Dressing(families));
      PlainDressed(front, families);
      PlainSnoc(FlatMap(front, Dressing(families)), Row(last, families));
    }
  }

  lemma PlainEffect(ctx: Context, p: PositPattern, via: Option<PositPattern>, rows: seq<Evidence>, input: Row)
    ensures Plain(CarriedEffect(ctx, p, via, rows, input)) == EffectRelation(ctx, p, via, rows, input.binding)
  {
    hide OnEvidence;
    hide EvidenceFamilies;
    FlatMapFlatMap(rows, CarriedEvidence(ctx, p, via, input), BindingIn());
    forall row | row in rows
      ensures Then(CarriedEvidence(ctx, p, via, input), BindingIn())(row) == OnEvidence(ctx, p, via, input.binding)(row)
    {
      PlainDressed(OnEvidence(ctx, p, via, input.binding)(row), EvidenceFamilies(p, via, row, input.families));
    }
    FlatMapAgree(rows, Then(CarriedEvidence(ctx, p, via, input), BindingIn()), OnEvidence(ctx, p, via, input.binding));
  }

  /** Without its families the carried relation is the relation. */
  lemma PlainRelation(s: Snapshot, p: PositPattern, input: Row)
    ensures Plain(CarriedRelation(s, p, input)) == Relation(s, p, input.binding)
  {
    hide CarriedScan;
    hide ScanRelation;
    hide CarriedEffect;
    hide EffectRelation;
    hide AllPosits;
    var ctx := Context(s.roleNames, input.binding);
    FlatMapNothing(BindingIn());
    if p.effect.Some? {
      var assertionCut := ResolvedCutoff(p.effect.value.assertionCutoff, input.binding);
      var appearanceCut := ResolvedCutoff(p.effect.value.appearanceCutoff, input.binding);
      if assertionCut.Ok? && appearanceCut.Ok? {
        PlainEffect(ctx, p, p.effect.value.via, SliceAt(s, Cut(assertionCut.value, appearanceCut.value)), input);
      }
    } else if p.cutoff.None? {
      PlainScan(ctx, p, AllPosits(s), None, input);
    } else if ResolvedCutoff(p.cutoff.value, input.binding).Ok? {
      PlainScan(ctx, p, AllPosits(s), Some(ResolvedCutoff(p.cutoff.value, input.binding).value), input);
    }
  }

  lemma PlainStep(s: Snapshot, p: PositPattern, rows: seq<Row>)
    ensures Plain(FlatMap(rows, CarriedStep(s, p))) == FlatMap(Plain(rows), Step(s, p))
  {
    hide CarriedRelation;
    hide Relation;
    FlatMapFlatMap(rows, CarriedStep(s, p), BindingIn());
    FlatMapFlatMap(rows, BindingIn(), Step(s, p));
    forall row | row in rows ensures Then(CarriedStep(s, p), BindingIn())(row) == Then(BindingIn(), Step(s, p))(row) {
      PlainRelation(s, p, row);
      FlatMapOne(row.binding, Step(s, p));
    }
    FlatMapAgree(rows, Then(CarriedStep(s, p), BindingIn()), Then(BindingIn(), Step(s, p)));
  }

  /** A branch run with families is the branch run without them, once the families are forgotten. */
  lemma {:induction false} PlainRun(s: Snapshot, patterns: seq<PositPattern>, rows: seq<Row>)
    ensures Plain(CarriedRun(s, patterns, rows)) == Run(s, patterns, Plain(rows))
  {
    hide CarriedStep;
    hide Step;
    hide Plain;
    if patterns != [] {
      PlainStep(s, patterns[0], rows);
      PlainRun(s, patterns[1..], FlatMap(rows, CarriedStep(s, patterns[0])));
    }
  }

  // ----------------------------------------------------- the families of a carried row

  lemma FieldLiterals(p: PositPattern, q: Posit)
    requires FieldBinding(p, q).Some?
    ensures var f := FieldBinding(p, q).value;
            && (forall n :: n in f ==> (f[n].LiteralValue? <==> p.value == ValueVariable(n)))
            && (p.value.ValueVariable? ==> p.value.name in f && f[p.value.name] == LiteralValue(q.value.token))
  {
  }

  /** Where a row binds a literal, and under which token. */
  lemma MergeLiterals(a: Binding, b: Binding, x: Binding)
    requires Merge(a, b) == Some(x)
    ensures forall n :: n in x <==> n in a || n in b
    ensures forall n :: n in a ==> (x[n].LiteralValue? <==> a[n].LiteralValue?) && (a[n].LiteralValue? ==> x[n] == a[n])
    ensures forall n :: n in b ==> (x[n].LiteralValue? <==> b[n].LiteralValue?) && (b[n].LiteralValue? ==> x[n] == b[n])
  {
  }

  lemma OnPositCarries(ctx: Context, p: PositPattern, q: Posit, row: Row, x: Binding)
    requires WellFormed(p.appearances) && Carries(row) && x in OnPosit(ctx, p, q, row.binding)
    ensures Carries(Row(x, AfterFields(row.families, p, q)))
    ensures forall n :: n in row.families ==> x[n] == row.binding[n]
    ensures forall n :: n in AfterFields(row.families, p, q) && n !in row.families ==>
                          x[n] == LiteralValue(q.value.token) && AfterFields(row.families, p, q)[n] == q.value.family
  {
    hide FlatMap;
    hide Merge;
    hide FieldBinding;
    hide OwnMatches;
    hide StructuralNames;
    var f := FieldBinding(p, q).value;
    var matches := OwnMatches(ctx, p.appearances, q.appearances);
    ExtendMembers(f, Extend(row.binding, matches), x);
    var y :| y in Extend(row.binding, matches) && Merge(f, y) == Some(x);
    ExtendMembers(row.binding, matches, y);
    var m :| m in matches && Merge(row.binding, m) == Some(y);
    OwnMatchValues(ctx, p.appearances, q.appearances, m);
    MergeLiterals(row.binding, m, y);
    MergeLiterals(f, y, x);
    FieldLiterals(p, q);
    hide MatchRow;
  }

  lemma MatchCarries(ctx: Context, pattern: SetPattern, stored: AppearanceSet, row: Row, x: Binding)
    requires WellFormed(pattern) && Carries(row) && x in Extend(row.binding, OwnMatches(ctx, pattern, stored))
    ensures Carries(Row(x, row.families))
  {
    hide FlatMap;
    hide Merge;
    hide OwnMatches;
    hide StructuralNames;
    var matches := OwnMatches(ctx, pattern, stored);
    ExtendMembers(row.binding, matches, x);
    var m :| m in matches && Merge(row.binding, m) == Some(x);
    OwnMatchValues(ctx, pattern, stored, m);
    MergeLiterals(row.binding, m, x);
    hide MatchRow;
  }

  /** Every family is that of a kept value with the bound token. */
  ghost predicate KeptRow(s: Snapshot, row: Row) {
    Carries(row) && forall n :: n in row.families ==> KeptAs(s, row.binding[n], row.families[n])
  }

  ghost predicate KeptAs(s: Snapshot, v: BoundValue, family: Family) {
    exists id :: id in s.posits && v == LiteralValue(s.posits[id].value.token) && family == s.posits[id].value.family
  }

  lemma OnPositKept(s: Snapshot, ctx: Context, p: PositPattern, q: Posit, row: Row, x: Binding)
    requires WellFormed(p.appearances) && KeptRow(s, row) && q.id in s.posits && s.posits[q.id] == q && x in OnPosit(ctx, p, q, row.binding)
    ensures KeptRow(s, Row(x, AfterFields(row.families, p, q)))
  {
    hide OnPosit;
    hide Carries;
    OnPositCarries(ctx, p, q, row, x);
    var after := AfterFields(row.families, p, q);
    forall n | n in after ensures n in x && KeptAs(s, x[n], after[n]) {
      CarriesThere(Row(x, after), n);
      if n in row.families {
        CarriesThere(row, n);
      }
    }
  }

  lemma CarriesThere(row: Row, n: string)
    requires Carries(row) && n in row.families
    ensures n in row.binding && row.binding[n].LiteralValue?
  {
  }

  lemma JoinedKept(s: Snapshot, input: Row, c: CarriedMatch, row: Row)
    requires KeptRow(s, input) && KeptRow(s, c.row) && row in JoinedWith(input)(c)
    ensures KeptRow(s, row)
  {
    hide KeptAs;
    hide Merge;
    MergeLiterals(input.binding, c.row.binding, row.binding);
    forall n | n in row.families ensures KeptAs(s, row.binding[n], row.families[n]) {
      if n in c.row.families {
        assert KeptAs(s, c.row.binding[n], c.row.families[n]);
      } else {
        assert KeptAs(s, input.binding[n], input.families[n]);
      }
    }
  }

  lemma StructuralRowKept(s: Snapshot, p: PositPattern, input: Row)
    requires KeptRow(s, input)
    ensures KeptRow(s, StructuralRow(p, input))
  {
    hide KeptAs;
    hide Deferred;
    var own := StructuralRow(p, input);
    forall n | n in own.families ensures KeptAs(s, own.binding[n], own.families[n]) {
      assert KeptAs(s, input.binding[n], input.families[n]);
    }
  }

  lemma ScanKept(s: Snapshot, ctx: Context, p: PositPattern, cut: Option<Time>, input: Row, row: Row)
    requires Closed(s) && WellFormed(p.appearances) && KeptRow(s, input) && row in CarriedScan(ctx, p, AllPosits(s), cut, input)
    ensures KeptRow(s, row)
  {
    hide SelectedRows;
    hide OnPosit;
    hide AllPosits;
    hide Merge;
    hide KeptRow;
    hide AfterFields;
    hide StructuralRow;
    hide DistinctIds;
    var own := StructuralRow(p, input);
    var rows := SelectedRows(ctx, p, AllPosits(s), cut, own.binding);
    FlatMapMembers(FlatMap(rows, Carriedly(p, own.families)), JoinedWith(input), row);
    var c :| c in FlatMap(rows, Carriedly(p, own.families)) && row in JoinedWith(input)(c);
    FlatMapMembers(rows, Carriedly(p, own.families), c);
    var m :| m in rows && c in Carriedly(p, own.families)(m);
    SelectedFrom(ctx, p, AllPosits(s), cut, own.binding, m);
    AllPositsDistinct(s);
    StructuralRowKept(s, p, input);
    OnPositKept(s, ctx, p, m.posit, own, m.binding);
    assert c == Carried(p, own.families)(m);
    JoinedKept(s, input, c, row);
  }

  lemma EvidenceKept(s: Snapshot, ctx: Context, p: PositPattern, via: Option<PositPattern>, e: Evidence, input: Row, row: Row)
    requires WellFormed(p.appearances) && (via.Some? ==> WellFormed(via.value.appearances)) && KeptRow(s, input)
    requires e.target.id in s.posits && s.posits[e.target.id] == e.target && e.assertion.id in s.posits && s.posits[e.assertion.id] == e.assertion
    requires row in CarriedEvidence(ctx, p, via, input)(e)
    ensures KeptRow(s, row)
  {
    hide OnPosit;
    hide KeptRow;
    hide AfterFields;
    hide FlatMap;
    var bindings := OnEvidence(ctx, p, via, input.binding)(e);
    FlatMapMembers(bindings, Dressing(EvidenceFamilies(p, via, e, input.families)), row);
    var x :| x in bindings && row in Dressing(EvidenceFamilies(p, via, e, input.families))(x);
    if via.None? {
      OnPositKept(s, ctx, p, e.target, input, x);
    } else {
      FlatMapMembers(OnPosit(ctx, p, e.target, input.binding), ViaRows(ctx, via.value, e.assertion), x);
      var y :| y in OnPosit(ctx, p, e.target, input.binding) && x in ViaRows(ctx, via.value, e.assertion)(y);
      OnPositKept(s, ctx, p, e.target, input, y);
      OnPositKept(s, ctx, via.value, e.assertion, Row(y, AfterFields(input.families, p, e.target)), x);
    }
  }

  lemma {:induction false} EligibleAreKept(s: Snapshot, cut: Cut, ids: seq<Thing>, e: Evidence)
    requires Closed(s) && EligibleRows(s.posits, cut, ids).Ok? && e in EligibleRows(s.posits, cut, ids).value
    ensures e.target.id in s.posits && s.posits[e.target.id] == e.target && e.assertion.id in s.posits && s.posits[e.assertion.id] == e.assertion
  {
    hide Envelope;
    if ids != [] {
      var front := ids[..|ids| - 1];
      if e in EligibleRows(s.posits, cut, front).value {
        EligibleAreKept(s, cut, front, e);
      }
    }
  }

  lemma SliceIsKept(s: Snapshot, cut: Cut, e: Evidence)
    requires Closed(s) && e in SliceAt(s, cut)
    ensures e.target.id in s.posits && s.posits[e.target.id] == e.target && e.assertion.id in s.posits && s.posits[e.assertion.id] == e.assertion
  {
    hide Closed;
    hide InEffect;
    var ids := SortedOf(CandidateIdentities(s));
    var eligible := EligibleRows(s.posits, cut, ids).value;
    KeepMembers(eligible, row => InEffect(eligible, row), e);
    EligibleAreKept(s, cut, ids, e);
  }

  lemma EffectKept(s: Snapshot, ctx: Context, p: PositPattern, via: Option<PositPattern>, cut: Cut, input: Row, row: Row)
    requires Closed(s) && WellFormed(p.appearances) && (via.Some? ==> WellFormed(via.value.appearances)) && KeptRow(s, input)
    requires row in CarriedEffect(ctx, p, via, SliceAt(s, cut), input)
    ensures KeptRow(s, row)
  {
    hide CarriedEvidence;
    hide SliceAt;
    hide KeptRow;
    hide Closed;
    FlatMapMembers(SliceAt(s, cut), CarriedEvidence(ctx, p, via, input), row);
    var e :| e in SliceAt(s, cut) && row in CarriedEvidence(ctx, p, via, input)(e);
    SliceIsKept(s, cut, e);
    EvidenceKept(s, ctx, p, via, e, input, row);
  }

  /** A pattern's rows keep to the families of kept values. */
  lemma StepKept(s: Snapshot, p: PositPattern, input: Row, row: Row)
    requires Closed(s) && WellBuilt(p) && KeptRow(s, input) && row in CarriedStep(s, p)(input)
    ensures KeptRow(s, row)
  {
    hide CarriedScan;
    hide CarriedEffect;
    hide KeptRow;
    hide Closed;
    hide AllPosits;
    hide SliceAt;
    var ctx := Context(s.roleNames, input.binding);
    if p.effect.Some? {
      var e := p.effect.value;
      EffectKept(s, ctx, p, e.via, Cut(ResolvedCutoff(e.assertionCutoff, input.binding).value, ResolvedCutoff(e.appearanceCutoff, input.binding).value), input, row);
    } else {
      ScanKept(s, ctx, p, if p.cutoff.None? then None else Some(ResolvedCutoff(p.cutoff.value, input.binding).value), input, row);
    }
  }

  ghost predicate AllKept(s: Snapshot, rows: seq<Row>) {
    forall row :: row in rows ==> KeptRow(s, row)
  }

  lemma {:induction false} RunKept(s: Snapshot, patterns: seq<PositPattern>, rows: seq<Row>)
    requires Closed(s) && (forall p :: p in patterns ==> WellBuilt(p)) && AllKept(s, rows)
    ensures AllKept(s, CarriedRun(s, patterns, rows))
  {
    hide CarriedStep;
    hide KeptRow;
    hide Closed;
    hide WellBuilt;
    if patterns != [] {
      var more := FlatMap(rows, CarriedStep(s, patterns[0]));
      forall row | row in more ensures KeptRow(s, row) {
        FlatMapMembers(rows, CarriedStep(s, patterns[0]), row);
        var input :| input in rows && row in CarriedStep(s, patterns[0])(input);
        StepKept(s, patterns[0], input, row);
      }
      RunKept(s, patterns[1..], more);
    }
  }
}
