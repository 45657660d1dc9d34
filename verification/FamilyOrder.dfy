/**
 When orders agree on families too.  Orders that return the same bag of bindings still
 return rows with different families, and later comparisons decide by family, exactly when
 two kept values share a token under different families.
 */
module FamilyOrder {
  import opened Prelude
  import opened Sequences
  import opened Constructs
  import opened Bindings
  import opened Matching
  import opened Patterns
  import opened JoinOrder
  import opened LatestPatterns
  import opened Branches
  import opened Families
  import opened SelfReference

  /** Two kept values share a token under different families. */
  ghost predicate Mixed(s: Snapshot) {
    exists a, b :: a in s.posits && b in s.posits && Mixes(s.posits[a], s.posits[b])
  }

  predicate Mixes(a: Posit, b: Posit) {
    a.value.token == b.value.token && a.value.family != b.value.family
  }

  ghost predicate CarriedReordering(s: Snapshot, a: seq<PositPattern>, b: seq<PositPattern>, available: set<string>, rows: seq<Row>) {
    Reordering(a, b, available, Plain(rows)) && AllKept(s, rows)
  }

  /** Any two dependency-respecting orders of any branch return the same bag of rows, families included. */
  ghost predicate CarriedOrdersAgree(s: Snapshot) {
    forall a, b, available, rows ::
      CarriedReordering(s, a, b, available, rows) ==> multiset(CarriedRun(s, a, rows)) == multiset(CarriedRun(s, b, rows))
  }

  // ------------------------------------------------------------ modulo family

  /** Where all orders agree on bindings, they do so for rows once families are forgotten. */
  lemma OrdersAgreeModuloFamily(s: Snapshot, a: seq<PositPattern>, b: seq<PositPattern>, available: set<string>, rows: seq<Row>)
    requires Closed(s) && !Contested(s) && Reordering(a, b, available, Plain(rows))
    ensures multiset(Plain(CarriedRun(s, a, rows))) == multiset(Plain(CarriedRun(s, b, rows)))
  {
    hide Plain;
    hide Run;
    hide CarriedRun;
    hide Reordering;
    PlainRun(s, a, rows);
    PlainRun(s, b, rows);
    UncontestedOrders(s, a, b, available, Plain(rows));
  }

  // ------------------------------------------------------- families from tokens

  ghost predicate KeptToken(s: Snapshot, token: string) {
    exists id :: id in s.posits && s.posits[id].value.token == token
  }

  ghost function FamilyOfToken(s: Snapshot, token: string): Family
    requires KeptToken(s, token)
  {
    var id :| id in s.posits && s.posits[id].value.token == token;
    s.posits[id].value.family
  }

  /** The only row of kept families that a binding can have when no token is mixed. */
  ghost function Redressed(s: Snapshot): Binding -> seq<Row> {
    (b: Binding) =>
      [Row(b, map n | n in b && b[n].LiteralValue? && KeptToken(s, b[n].token) :: FamilyOfToken(s, b[n].token))]
  }

  lemma OneFamily(s: Snapshot, v: BoundValue, family: Family)
    requires !Mixed(s) && KeptAs(s, v, family)
    ensures v.LiteralValue? && KeptToken(s, v.token) && FamilyOfToken(s, v.token) == family
  {
    var id :| id in s.posits && v == LiteralValue(s.posits[id].value.token) && family == s.posits[id].value.family;
    var other :| other in s.posits && s.posits[other].value.token == v.token && s.posits[other].value.family == FamilyOfToken(s, v.token);
    assert !Mixes(s.posits[id], s.posits[other]);
  }

  lemma KeptIsRedressed(s: Snapshot, row: Row)
    requires !Mixed(s) && KeptRow(s, row)
    ensures Redressed(s)(row.binding) == [row]
  {
    var b := row.binding;
    forall n | n in b && b[n].LiteralValue?
      ensures n in row.families && KeptToken(s, b[n].token) && FamilyOfToken(s, b[n].token) == row.families[n]
    {
      OneFamily(s, b[n], row.families[n]);
    }
    hide Mixed;
    hide KeptToken;
    hide FamilyOfToken;
    assert Redressed(s)(b)[0].families == row.families;
  }

  lemma AllRedressed(s: Snapshot, rows: seq<Row>)
    requires !Mixed(s) && AllKept(s, rows)
    ensures FlatMap(Plain(rows), Redressed(s)) == rows
  {
    hide KeptRow;
    hide Mixed;
    hide Redressed;
    FlatMapFlatMap(rows, BindingIn(), Redressed(s));
    forall row | row in rows ensures Then(BindingIn(), Redressed(s))(row) == Itself()(row) {
      FlatMapOne(row.binding, Redressed(s));
      KeptIsRedressed(s, row);
    }
    FlatMapAgree(rows, Then(BindingIn(), Redressed(s)), Itself());
    FlatMapItself(rows);
  }

  function Itself(): Row -> seq<Row> {
    (row: Row) => [row]
  }

  lemma {:induction false} FlatMapItself(rows: seq<Row>)
    ensures FlatMap(rows, Itself()) == rows
  {
    if rows != [] {
      FlatMapItself(rows[..|rows| - 1]);
      assert rows == rows[..|rows| - 1] + [rows[|rows| - 1]];
    }
  }

  lemma UnmixedOrders(s: Snapshot, a: seq<PositPattern>, b: seq<PositPattern>, available: set<string>, rows: seq<Row>)
    requires Closed(s) && !Contested(s) && !Mixed(s) && CarriedReordering(s, a, b, available, rows)
    ensures multiset(CarriedRun(s, a, rows)) == multiset(CarriedRun(s, b, rows))
  {
    hide Plain;
    hide CarriedRun;
    hide AllKept;
    hide Mixed;
    hide Contested;
    hide Closed;
    var (xs, ys) := (CarriedRun(s, a, rows), CarriedRun(s, b, rows));
    OrdersAgreeModuloFamily(s, a, b, available, rows);
    SameMembers(a, b);
    hide Reordering;
    RunKept(s, a, rows);
    RunKept(s, b, rows);
    AllRedressed(s, xs);
    AllRedressed(s, ys);
    FlatMapBag(Plain(xs), Plain(ys), Redressed(s));
  }

  // ------------------------------------------------------ two orders over mixed values

  const VALUE := "v"

  /** Every posit under a name, its value in the shared variable. */
  function Valuing(name: string): PositPattern {
    PositPattern(Some(name), SetPattern(None, [], false, true), ValueVariable(VALUE), AnyTime, None, false, None)
  }

  function Found(name: string, q: Posit): Binding {
    map[name := PositValue(q.id), VALUE := LiteralValue(q.value.token)]
  }

  lemma ValuingOnPosit(ctx: Context, name: string, q: Posit, b: Binding)
    requires name != VALUE
    ensures OnPosit(ctx, Valuing(name), q, b) == Emit(Merge(Found(name, q), b))
  {
    hide Merge;
    ValuingFields(name, q);
    var p := Valuing(name);
    assert OwnMatches(ctx, p.appearances, q.appearances) == [map[]];
    FlatMapOne(map[], Extending(b));
    MergeEmpty(b);
    FlatMapOne(b, Extending(Found(name, q)));
  }

  lemma ValuingFields(name: string, q: Posit)
    requires name != VALUE
    ensures FieldBinding(Valuing(name), q) == Some(Found(name, q))
  {
    MergeEmpty(Found(name, q));
    assert Merged(map[name := PositValue(q.id)], map[VALUE := LiteralValue(q.value.token)]) == Found(name, q);
  }

  /** A row of a plain pattern: a binding found on some posit, under the families its value leaves. */
  ghost predicate FoundOn(s: Snapshot, p: PositPattern, input: Row, row: Row, q: Posit) {
    && q in AllPosits(s) && row.families == AfterFields(input.families, p, q)
    && row.binding in OnPosit(Context(s.roleNames, input.binding), p, q, input.binding)
  }

  lemma PlainPatternMatches(s: Snapshot, p: PositPattern, input: Row)
    requires p.effect.None? && p.cutoff.None?
    ensures var rows := SelectedRows(Context(s.roleNames, input.binding), p, AllPosits(s), None, input.binding);
            && CarriedRelation(s, p, input) == FlatMap(FlatMap(rows, Carriedly(p, input.families)), JoinedWith(input))
            && (forall m :: m in rows <==> m.posit in AllPosits(s)
                                           && m.binding in OnPosit(Context(s.roleNames, input.binding), p, m.posit, input.binding))
  {
    hide OnPosit;
    hide AllPosits;
    hide FieldRows;
    hide StructuralRows;
    hide FlatMap;
    var posits := AllPosits(s);
    CandidateRowsByPosit(Context(s.roleNames, input.binding), p, posits, None, input.binding);
    forall q ensures q in Keep(posits, Within(None)) <==> q in posits {
      KeepMembers(posits, Within(None), q);
    }
  }

  /** A match of a plain pattern already says what the input says, so joining adds nothing. */
  lemma MatchJoins(ctx: Context, p: PositPattern, input: Row, m: StructuralMatch)
    requires m.binding in OnPosit(ctx, p, m.posit, input.binding)
    ensures JoinedWith(input)(Carried(p, input.families)(m)) == [Row(m.binding, AfterFields(input.families, p, m.posit))]
  {
    hide OnPosit;
    hide Merge;
    OwnRowsAbsorb(ctx, p, input.binding, m.posit, m.binding);
    FamiliesAbsorb(input.families, p, m.posit);
  }

  lemma CarriedFrom(rows: seq<StructuralMatch>, p: PositPattern, input: Row, row: Row) returns (m: StructuralMatch)
    requires row in FlatMap(FlatMap(rows, Carriedly(p, input.families)), JoinedWith(input))
    ensures m in rows && row in JoinedWith(input)(Carried(p, input.families)(m))
  {
    hide FlatMap;
    hide JoinedWith;
    hide Carried;
    var carried := FlatMap(rows, Carriedly(p, input.families));
    FlatMapMembers(carried, JoinedWith(input), row);
    var c :| c in carried && row in JoinedWith(input)(c);
    FlatMapMembers(rows, Carriedly(p, input.families), c);
    m :| m in rows && c in Carriedly(p, input.families)(m);
  }

  lemma PlainRowFound(s: Snapshot, p: PositPattern, input: Row, row: Row) returns (q: Posit)
    requires p.effect.None? && p.cutoff.None? && row in CarriedRelation(s, p, input)
    ensures FoundOn(s, p, input, row, q)
  {
    PlainPatternMatches(s, p, input);
    hide OnPosit;
    hide AllPosits;
    hide SelectedRows;
    hide CarriedRelation;
    hide AfterFields;
    hide JoinedWith;
    hide FlatMap;
    hide Carried;
    var ctx := Context(s.roleNames, input.binding);
    var m := CarriedFrom(SelectedRows(ctx, p, AllPosits(s), None, input.binding), p, input, row);
    MatchJoins(ctx, p, input, m);
    q := m.posit;
  }

  lemma FoundIsRow(s: Snapshot, p: PositPattern, input: Row, row: Row, q: Posit)
    requires p.effect.None? && p.cutoff.None? && FoundOn(s, p, input, row, q)
    ensures row in CarriedRelation(s, p, input)
  {
    PlainPatternMatches(s, p, input);
    hide OnPosit;
    hide AllPosits;
    hide SelectedRows;
    hide CarriedRelation;
    hide AfterFields;
    hide JoinedWith;
    hide FlatMap;
    var ctx := Context(s.roleNames, input.binding);
    var rows := SelectedRows(ctx, p, AllPosits(s), None, input.binding);
    var m := StructuralMatch(q, row.binding);
    var c := Carried(p, input.families)(m);
    assert m in rows && Carriedly(p, input.families)(m) == [c];
    FlatMapMembers(rows, Carriedly(p, input.families), c);
    MatchJoins(ctx, p, input, m);
    FlatMapMembers(FlatMap(rows, Carriedly(p, input.families)), JoinedWith(input), row);
    assert row in JoinedWith(input)(c);
  }

  lemma FamiliesAbsorb(families: FamilyMap, p: PositPattern, q: Posit)
    ensures families + AfterFields(families, p, q) == AfterFields(families, p, q)
  {
  }

  lemma CarriedRunOfTwo(s: Snapshot, p: PositPattern, q: PositPattern, start: Row, row: Row)
    ensures row in CarriedRun(s, [p, q], [start]) <==> exists x :: x in CarriedRelation(s, p, start) && row in CarriedRelation(s, q, x)
  {
    hide CarriedRelation;
    assert [p, q][1..] == [q] && [q][1..] == [];
    FlatMapOne(start, CarriedStep(s, p));
    assert CarriedRun(s, [p, q], [start]) == CarriedRun(s, [q], CarriedRelation(s, p, start));
    assert CarriedRun(s, [q], CarriedRelation(s, p, start)) == CarriedRun(s, [], FlatMap(CarriedRelation(s, p, start), CarriedStep(s, q)));
    FlatMapMembers(CarriedRelation(s, p, start), CarriedStep(s, q), row);
  }

  /** The row that two posits with one token make, under a family. */
  function Meeting(first: string, a: Posit, second: string, b: Posit, family: Family): Row {
    Row(map[first := PositValue(a.id), second := PositValue(b.id), VALUE := LiteralValue(a.value.token)], map[VALUE := family])
  }

  lemma MeetingFound(s: Snapshot, first: string, a: Posit, second: string, b: Posit)
    requires first != second && first != VALUE && second != VALUE
    requires a in AllPosits(s) && b in AllPosits(s) && a.value.token == b.value.token
    ensures Meeting(first, a, second, b, a.value.family) in CarriedRun(s, [Valuing(first), Valuing(second)], [NO_ROW])
  {
    hide CarriedRelation;
    hide OnPosit;
    hide AllPosits;
    hide Merge;
    var row := Meeting(first, a, second, b, a.value.family);
    var x := Row(Found(first, a), map[VALUE := a.value.family]);
    ValuingOnPosit(Context(s.roleNames, map[]), first, a, map[]);
    MergeEmpty(Found(first, a));
    assert x.families == AfterFields(NO_ROW.families, Valuing(first), a);
    assert FoundOn(s, Valuing(first), NO_ROW, x, a);
    FoundIsRow(s, Valuing(first), NO_ROW, x, a);
    ValuingOnPosit(Context(s.roleNames, x.binding), second, b, x.binding);
    MeetingMerges(first, a, second, b);
    assert row.families == AfterFields(x.families, Valuing(second), b);
    assert FoundOn(s, Valuing(second), x, row, b);
    FoundIsRow(s, Valuing(second), x, row, b);
    CarriedRunOfTwo(s, Valuing(first), Valuing(second), NO_ROW, row);
  }

  lemma MeetingMerges(first: string, a: Posit, second: string, b: Posit)
    requires first != second && first != VALUE && second != VALUE && a.value.token == b.value.token
    ensures Merge(Found(second, b), Found(first, a)) == Some(Meeting(first, a, second, b, a.value.family).binding)
  {
    assert Merged(Found(second, b), Found(first, a)) == Meeting(first, a, second, b, a.value.family).binding;
  }

  /** A row keeps the family of the posit that was found first. */
  lemma FirstFamilyStays(s: Snapshot, first: string, second: string, b: Posit, row: Row)
    requires first != second && first != VALUE && second != VALUE && Closed(s) && b in AllPosits(s)
    requires row in CarriedRun(s, [Valuing(first), Valuing(second)], [NO_ROW])
    requires first in row.binding && row.binding[first] == PositValue(b.id)
    ensures row.families == map[VALUE := b.value.family]
  {
    hide CarriedRelation;
    hide OnPosit;
    hide AllPosits;
    hide Merge;
    hide Closed;
    hide DistinctIds;
    CarriedRunOfTwo(s, Valuing(first), Valuing(second), NO_ROW, row);
    var x :| x in CarriedRelation(s, Valuing(first), NO_ROW) && row in CarriedRelation(s, Valuing(second), x);
    var q := PlainRowFound(s, Valuing(first), NO_ROW, x);
    ValuingOnPosit(Context(s.roleNames, map[]), first, q, map[]);
    MergeEmpty(Found(first, q));
    var r := PlainRowFound(s, Valuing(second), x, row);
    ValuingOnPosit(Context(s.roleNames, x.binding), second, r, x.binding);
    hide Valuing;
    FoundStays(second, r, first, q, row.binding);
    AllPositsDistinct(s);
    SamePosit(AllPosits(s), q, b);
  }

  lemma FoundStays(second: string, r: Posit, first: string, q: Posit, row: Binding)
    requires first != second && first != VALUE && Merge(Found(second, r), Found(first, q)) == Some(row)
    ensures first in row && row[first] == PositValue(q.id)
  {
  }

  lemma ValuingOrders()
    ensures Reordering([Valuing("a"), Valuing("b")], [Valuing("b"), Valuing("a")], {}, [map[]])
  {
    var (p, q) := (Valuing("a"), Valuing("b"));
    assert Dependencies(p) == {} && Dependencies(q) == {};
    OrderedPair(p, q);
    OrderedPair(q, p);
    hide Ordered;
    assert multiset([p, q]) == multiset{p, q} == multiset([q, p]);
  }

  lemma DifferentFamilies(f: Family, g: Family)
    requires f != g
    ensures map[VALUE := f] != map[VALUE := g]
  {
    assert map[VALUE := f][VALUE] == f;
  }

  /** Two posits with one token under different families: the two orders carry different families. */
  lemma MixedOrders(s: Snapshot, a: Posit, b: Posit)
    requires Closed(s) && a in AllPosits(s) && b in AllPosits(s) && Mixes(a, b)
    ensures var row := Meeting("a", a, "b", b, a.value.family);
            && row in CarriedRun(s, [Valuing("a"), Valuing("b")], [NO_ROW])
            && row !in CarriedRun(s, [Valuing("b"), Valuing("a")], [NO_ROW])
            && row.(families := map[VALUE := b.value.family]) in CarriedRun(s, [Valuing("b"), Valuing("a")], [NO_ROW])
  {
    hide Closed;
    hide AllPosits;
    hide CarriedRun;
    var row := Meeting("a", a, "b", b, a.value.family);
    MeetingFound(s, "a", a, "b", b);
    MeetingFound(s, "b", b, "a", a);
    assert Meeting("b", b, "a", a, b.value.family) == row.(families := map[VALUE := b.value.family]);
    DifferentFamilies(a.value.family, b.value.family);
    if row in CarriedRun(s, [Valuing("b"), Valuing("a")], [NO_ROW]) {
      FirstFamilyStays(s, "b", "a", b, row);
      assert false;
    }
  }

  lemma StartsKept(s: Snapshot)
    ensures Plain([NO_ROW]) == [map[]] && AllKept(s, [NO_ROW])
  {
    FlatMapOne(NO_ROW, BindingIn());
  }

  /** Orders agree, families included, exactly in databases that are neither contested nor mixed. */
  lemma EveryCarriedOrderAgrees(s: Snapshot)
    requires Closed(s)
    ensures CarriedOrdersAgree(s) <==> !Contested(s) && !Mixed(s)
  {
    hide CarriedRun;
    hide Closed;
    hide Mixes;
    hide Contests;
    hide AllPosits;
    hide DistinctIds;
    hide Reordering;
    hide Plain;
    hide AllKept;
    StartsKept(s);
    ClosedIdentities(s);
    AllPositsDistinct(s);
    if Contested(s) {
      var id, later :| id in s.posits && later in s.posits && Contests(s.posits[id], s.posits[later]);
      ContestedRows(s, s.posits[id], s.posits[later]);
    } else if Mixed(s) {
      var a, b :| a in s.posits && b in s.posits && Mixes(s.posits[a], s.posits[b]);
      MixedRows(s, s.posits[a], s.posits[b]);
    } else {
      forall a, b, available, rows | CarriedReordering(s, a, b, available, rows)
        ensures multiset(CarriedRun(s, a, rows)) == multiset(CarriedRun(s, b, rows))
      {
        UnmixedOrders(s, a, b, available, rows);
      }
    }
  }

  lemma ContestedRows(s: Snapshot, q: Posit, later: Posit)
    requires Closed(s) && q in AllPosits(s) && later in AllPosits(s) && Contests(q, later)
    ensures !CarriedOrdersAgree(s)
  {
    hide CarriedRun;
    hide Run;
    hide Closed;
    hide Contests;
    hide AllPosits;
    hide Reordering;
    hide AllKept;
    hide Plain;
    var (a, b) := ([Finder(), SelfPattern(later.time)], [SelfPattern(later.time), Finder()]);
    ContestedOrders(s, q, later);
    StartsKept(s);
    assert CarriedReordering(s, a, b, {}, [NO_ROW]);
    PlainRun(s, a, [NO_ROW]);
    PlainRun(s, b, [NO_ROW]);
    if multiset(CarriedRun(s, a, [NO_ROW])) == multiset(CarriedRun(s, b, [NO_ROW])) {
      PlainBag(CarriedRun(s, a, [NO_ROW]), CarriedRun(s, b, [NO_ROW]));
      assert false;
    }
  }

  lemma PlainBag(xs: seq<Row>, ys: seq<Row>)
    requires multiset(xs) == multiset(ys)
    ensures multiset(Plain(xs)) == multiset(Plain(ys))
  {
    FlatMapBag(xs, ys, BindingIn());
  }

  lemma MixedRows(s: Snapshot, a: Posit, b: Posit)
    requires Closed(s) && a in AllPosits(s) && b in AllPosits(s) && Mixes(a, b)
    ensures !CarriedOrdersAgree(s)
  {
    hide CarriedRun;
    hide Closed;
    hide Mixes;
    hide AllPosits;
    hide Reordering;
    hide AllKept;
    hide Plain;
    hide Valuing;
    var (x, y) := ([Valuing("a"), Valuing("b")], [Valuing("b"), Valuing("a")]);
    var row := Meeting("a", a, "b", b, a.value.family);
    StartsKept(s);
    ValuingOrders();
    MixedOrders(s, a, b);
    assert CarriedReordering(s, x, y, {}, [NO_ROW]);
    assert row in multiset(CarriedRun(s, x, [NO_ROW])) && row !in multiset(CarriedRun(s, y, [NO_ROW]));
  }

  // ------------------------------------------------------- what the family decides

  /** Two families that cannot be compared with each other's literals. */
  predicate Apart(f: Family, g: Family) {
    f != g && !({f, g} <= {IntegerFamily, DecimalFamily})
  }

  /** A row that has found two posits and not yet their values. */
  function Pinned(a: Posit, b: Posit): Row {
    Row(map["a" := PositValue(a.id), "b" := PositValue(b.id)], map[])
  }

  /** The literal a row carries is the posit's value. */
  predicate CarriesValueOf(row: Row, q: Posit) {
    VALUE in row.binding && row.binding[VALUE] == LiteralValue(q.value.token) && row.families == map[VALUE := q.value.family]
  }

  /** Reading the value of a pinned posit. */
  lemma PinnedFinds(s: Snapshot, name: string, q: Posit, input: Row, row: Row)
    requires Closed(s) && q in AllPosits(s) && name != VALUE && name in input.binding && input.binding[name] == PositValue(q.id)
    requires VALUE in input.binding ==> input.binding[VALUE] == LiteralValue(q.value.token) && VALUE in input.families
    ensures row in CarriedRelation(s, Valuing(name), input)
            <==> row == Row(input.binding[VALUE := LiteralValue(q.value.token)], AfterFields(input.families, Valuing(name), q))
  {
    hide CarriedRelation;
    hide OnPosit;
    hide AllPosits;
    hide Closed;
    hide DistinctIds;
    hide AfterFields;
    var (p, ctx) := (Valuing(name), Context(s.roleNames, input.binding));
    ValuingOnPosit(ctx, name, q, input.binding);
    PinnedMerges(name, q, input.binding);
    hide Merge;
    if row in CarriedRelation(s, p, input) {
      var r := PlainRowFound(s, p, input, row);
      ValuingOnPosit(ctx, name, r, input.binding);
      SameFound(name, r, q, input.binding, row.binding);
      AllPositsDistinct(s);
      SamePosit(AllPosits(s), r, q);
    }
    if row == Row(input.binding[VALUE := LiteralValue(q.value.token)], AfterFields(input.families, p, q)) {
      FoundIsRow(s, p, input, row, q);
    }
  }

  lemma PinnedMerges(name: string, q: Posit, input: Binding)
    requires name != VALUE && name in input && input[name] == PositValue(q.id)
    requires VALUE in input ==> input[VALUE] == LiteralValue(q.value.token)
    ensures Merge(Found(name, q), input) == Some(input[VALUE := LiteralValue(q.value.token)])
  {
    assert Merged(Found(name, q), input) == input[VALUE := LiteralValue(q.value.token)];
  }

  lemma SameFound(name: string, r: Posit, q: Posit, input: Binding, row: Binding)
    requires name != VALUE && name in input && input[name] == PositValue(q.id) && Merge(Found(name, r), input) == Some(row)
    ensures r.id == q.id
  {
    assert Compatible(Found(name, r)[name], input[name]);
  }

  /** Both posits pinned, the branch reads one value after the other and carries the first. */
  lemma FirstIsCarried(s: Snapshot, first: string, a: Posit, second: string, b: Posit, start: Row, row: Row)
    requires Closed(s) && a in AllPosits(s) && b in AllPosits(s) && a.value.token == b.value.token && start.families == map[]
    requires first != VALUE && second != VALUE && VALUE !in start.binding
    requires first in start.binding && start.binding[first] == PositValue(a.id)
    requires second in start.binding && start.binding[second] == PositValue(b.id)
    ensures row in CarriedRun(s, [Valuing(first), Valuing(second)], [start])
            <==> row == Row(start.binding[VALUE := LiteralValue(a.value.token)], map[VALUE := a.value.family])
  {
    hide CarriedRelation;
    hide AllPosits;
    hide Closed;
    var x := Row(start.binding[VALUE := LiteralValue(a.value.token)], map[VALUE := a.value.family]);
    assert AfterFields(map[], Valuing(first), a) == map[VALUE := a.value.family];
    assert AfterFields(x.families, Valuing(second), b) == x.families;
    assert x.binding[VALUE := LiteralValue(b.value.token)] == x.binding;
    hide AfterFields;
    PinnedFinds(s, first, a, start, x);
    PinnedFinds(s, second, b, x, row);
    CarriedRunOfTwo(s, Valuing(first), Valuing(second), start, row);
    forall y | y in CarriedRelation(s, Valuing(first), start) ensures y == x {
      PinnedFinds(s, first, a, start, y);
    }
  }

  /**
   From a row that has found both posits, either order of reading their values finds one
   row; comparing what it carries with a literal answers after the one order and is an
   error after the other.
   */
  lemma ComparisonDependsOnOrder(s: Snapshot, a: Posit, b: Posit, with: Literal)
    requires Closed(s) && a in AllPosits(s) && b in AllPosits(s) && Mixes(a, b)
    requires with.family == a.value.family && Apart(a.value.family, b.value.family)
    ensures var (x, y) := (CarriedRun(s, [Valuing("a"), Valuing("b")], [Pinned(a, b)]), CarriedRun(s, [Valuing("b"), Valuing("a")], [Pinned(a, b)]));
            && x != [] && (forall row :: row in x ==> CarriesValueOf(row, a)) && Nominal(a.value, with).Ok?
            && y != [] && (forall row :: row in y ==> CarriesValueOf(row, b)) && Nominal(b.value, with).Err?
  {
    hide CarriedRun;
    hide AllPosits;
    hide Closed;
    var start := Pinned(a, b);
    var value := start.binding[VALUE := LiteralValue(a.value.token)];
    forall row ensures row in CarriedRun(s, [Valuing("a"), Valuing("b")], [start]) <==> row == Row(value, map[VALUE := a.value.family]) {
      FirstIsCarried(s, "a", a, "b", b, start, row);
    }
    forall row ensures row in CarriedRun(s, [Valuing("b"), Valuing("a")], [start]) <==> row == Row(value, map[VALUE := b.value.family]) {
      FirstIsCarried(s, "b", b, "a", a, start, row);
    }
    assert Row(value, map[VALUE := a.value.family]) in CarriedRun(s, [Valuing("a"), Valuing("b")], [start]);
    assert Row(value, map[VALUE := b.value.family]) in CarriedRun(s, [Valuing("b"), Valuing("a")], [start]);
  }
}
