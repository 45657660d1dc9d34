/**
 Which databases every pattern joins in.  Only a posit that appears in its own
 appearance set can be recalled through one of its own Thing variables, so join
 independence fails in a database exactly when two such posits share a set and one is
 definitely before the other.  No command creates such a posit: the Things of a set have
 their identities before the posit gets its own.
 */
module SelfReference {
  import opened Prelude
  import opened Sequences
  import opened Times
  import opened Constructs
  import opened Bindings
  import opened Matching
  import opened Patterns
  import opened JoinOrder
  import opened LatestPatterns
  import opened Branches
  import opened IndexAccess

  ghost predicate Among(stored: AppearanceSet, thing: Thing) {
    exists a :: a in stored && a.thing == thing
  }

  /** A posit that is a Thing of its own appearance set. */
  ghost predicate InItself(q: Posit) {
    Among(q.appearances, q.id)
  }

  ghost predicate Contests(q: Posit, later: Posit) {
    q.appearances == later.appearances && DefinitelyBefore(q.time, later.time) && InItself(q) && InItself(later)
  }

  /** Two posits of one set appear in it, one definitely before the other. */
  ghost predicate Contested(s: Snapshot) {
    exists id, later :: id in s.posits && later in s.posits && Contests(s.posits[id], s.posits[later])
  }

  // --------------------------------------------------- a match binds Things of its set

  ghost predicate ThingsOf(stored: AppearanceSet, row: Binding) {
    forall n :: n in row && row[n].ThingValue? ==> Among(stored, row[n].id)
  }

  lemma MergeThings(stored: AppearanceSet, a: Binding, b: Binding)
    requires ThingsOf(stored, a) && ThingsOf(stored, b) && Merge(a, b).Some?
    ensures ThingsOf(stored, Merge(a, b).value)
  {
  }

  lemma ContributionThings(ctx: Context, member: Member, stored: AppearanceSet, a: Appearance)
    requires a in stored && Contribution(ctx, member, a).Some?
    ensures ThingsOf(stored, Contribution(ctx, member, a).value)
  {
    assert Among(stored, a.thing);
  }

  lemma {:induction false} MatchThings(ctx: Context, members: seq<Member>, stored: AppearanceSet, index: nat, used: set<nat>, row: Binding)
    requires index <= |members| && row in Matches(ctx, members, stored, index, used)
    ensures ThingsOf(stored, row)
    decreases |members| - index
  {
    hide MatchesFrom;
    hide FlatMap;
    hide Merge;
    hide Contribution;
    if index < |members| {
      var at := MatchHasStart(ctx, members, stored, index, used, row, 0);
      var own := Contribution(ctx, members[index], stored[at]).value;
      var rest := Matches(ctx, members, stored, index + 1, used + {at});
      ExtendMembers(own, rest, row);
      var tail :| tail in rest && Merge(own, tail) == Some(row);
      MatchThings(ctx, members, stored, index + 1, used + {at}, tail);
      ContributionThings(ctx, members[index], stored, stored[at]);
      MergeThings(stored, own, tail);
    }
  }

  lemma OwnMatchThings(ctx: Context, pattern: SetPattern, stored: AppearanceSet, row: Binding)
    requires row in OwnMatches(ctx, pattern, stored)
    ensures ThingsOf(stored, row)
  {
    hide FlatMap;
    hide Merge;
    hide Matches;
    var own := SetBinding(pattern, stored);
    if !pattern.any {
      var rows := VisitedRows(ctx, pattern.members, stored);
      ExtendMembers(own, rows, row);
      var m :| m in rows && Merge(own, m) == Some(row);
      DistinctMembers(Matches(ctx, pattern.members, stored, 0, {}));
      MatchThings(ctx, pattern.members, stored, 0, {}, m);
      MergeThings(stored, own, m);
    }
  }

  /** A pattern whose posit variable is also a Thing variable finds only posits that appear in themselves. */
  lemma RecalledAppears(ctx: Context, p: PositPattern, own: Binding, q: Posit, x: Binding, n: string)
    requires WellFormed(p.appearances) && own.Keys == Dependencies(p) && Unapart(p, n) && x in OnPosit(ctx, p, q, own)
    ensures InItself(q)
  {
    hide FlatMap;
    hide Merge;
    hide FieldBinding;
    hide OwnMatches;
    hide FieldNames;
    hide StructuralNames;
    hide Dependencies;
    var f := FieldBinding(p, q).value;
    var matches := OwnMatches(ctx, p.appearances, q.appearances);
    ExtendMembers(f, Extend(own, matches), x);
    var y :| y in Extend(own, matches) && Merge(f, y) == Some(x);
    ExtendMembers(own, matches, y);
    var m :| m in matches && Merge(own, m) == Some(y);
    FieldBindingNames(p, q);
    OwnMatchValues(ctx, p.appearances, q.appearances, m);
    SharedName(f, own, m, y, x, n);
    FieldBindingValues(p, q, n);
    OwnMatchThings(ctx, p.appearances, q.appearances, m);
  }

  // --------------------------------------------------------- where nothing is contested

  /** A pattern and a binding of exactly its dependencies. */
  ghost predicate Askable(p: PositPattern, own: Binding) {
    WellFormed(p.appearances) && own.Keys == Dependencies(p) && OwnInput(p, own) == own
  }

  /** Every input with these dependencies gets the join of itself with the pattern's own relation. */
  ghost predicate JoinsAlone(s: Snapshot, p: PositPattern, own: Binding) {
    forall input :: OwnInput(p, input) == own ==> Relation(s, p, input) == Extend(input, Relation(s, p, own))
  }

  lemma DroppedIsContested(s: Snapshot, p: PositPattern, cut: Option<Time>, own: Binding)
    requires Closed(s) && Askable(p, own) && !FieldsApart(p)
    requires !NothingDropped(Context(s.roleNames, own), p, AllPosits(s), cut, own)
    ensures Contested(s)
  {
    hide Closed;
    hide OnPosit;
    hide Superseded;
    hide NothingDropped;
    hide InItself;
    hide DistinctIds;
    hide FieldsApart;
    hide Unapart;
    hide AllPosits;
    hide Keep;
    var ctx := Context(s.roleNames, own);
    var n := SomeUnapart(p);
    var q := SomeDropped(ctx, p, AllPosits(s), cut, own);
    var later := SupersededBy(ctx, p, Keep(AllPosits(s), Within(cut)), own, q);
    RecalledAppears(ctx, p, own, q, OnPosit(ctx, p, q, own)[0], n);
    RecalledAppears(ctx, p, own, later, OnPosit(ctx, p, later, own)[0], n);
    AllPositsDistinct(s);
    KeepMembers(AllPosits(s), Within(cut), q);
    KeepMembers(AllPosits(s), Within(cut), later);
    assert Contests(s.posits[q.id], s.posits[later.id]);
  }

  lemma SupersededBy(ctx: Context, p: PositPattern, eligible: seq<Posit>, b: Binding, q: Posit) returns (later: Posit)
    requires Superseded(ctx, p, eligible, b, q)
    ensures later in eligible && later.appearances == q.appearances && OnPosit(ctx, p, later, b) != [] && DefinitelyBefore(q.time, later.time)
  {
    later :| later in eligible && later.appearances == q.appearances && OnPosit(ctx, p, later, b) != [] && DefinitelyBefore(q.time, later.time);
  }

  lemma UncontestedIsStable(s: Snapshot, p: PositPattern, own: Binding)
    requires Closed(s) && !Contested(s) && Askable(p, own)
    ensures StableAt(s, p, own)
  {
    if !StableAt(s, p, own) {
      DroppedIsContested(s, p, Some(ResolvedCutoff(p.cutoff.value, own).value), own);
    }
  }

  // ------------------------------------------------------------- a contested database

  const RECALLED := "p"

  /** The latest posits that appear in their own set, as of a time. */
  function SelfPattern(at: Time): PositPattern {
    PositPattern(Some(RECALLED), SetPattern(None, [Member(ThingVariable(RECALLED), AnyRole)], true, false),
                 AnyValue, AnyTime, Some(CutoffAt(at)), true, None)
  }

  lemma SelfMatches(ctx: Context, at: Time, q: Posit)
    requires InItself(q)
    ensures OnPosit(ctx, SelfPattern(at), q, map[]) != []
  {
    hide FlatMap;
    hide Merge;
    hide OwnMatches;
    var p := SelfPattern(at);
    var row: Binding := map[RECALLED := ThingValue(q.id)];
    var f: Binding := map[RECALLED := PositValue(q.id)];
    SelfMatchesSet(ctx, at, q);
    SelfFields(at, q);
    MergeEmpty(row);
    var matches := OwnMatches(ctx, p.appearances, q.appearances);
    ExtendMembers(map[], matches, row);
    SamePositJoins(f, row, q.id);
    ExtendMembers(f, Extend(map[], matches), Merged(f, row));
  }

  lemma SamePositJoins(f: Binding, row: Binding, id: Thing)
    requires f == map[RECALLED := PositValue(id)] && row == map[RECALLED := ThingValue(id)]
    ensures Merge(f, row) == Some(Merged(f, row))
  {
  }

  lemma SelfFields(at: Time, q: Posit)
    ensures FieldBinding(SelfPattern(at), q) == Some(map[RECALLED := PositValue(q.id)])
  {
    MergeEmpty(map[RECALLED := PositValue(q.id)]);
  }

  lemma SelfMatchesSet(ctx: Context, at: Time, q: Posit)
    requires InItself(q)
    ensures map[RECALLED := ThingValue(q.id)] in OwnMatches(ctx, SelfPattern(at).appearances, q.appearances)
  {
    hide FlatMap;
    hide Merge;
    hide Matches;
    hide Induced;
    var members := SelfPattern(at).appearances.members;
    var row: Binding := map[RECALLED := ThingValue(q.id)];
    var a :| a in q.appearances && a.thing == q.id;
    var i :| 0 <= i < |q.appearances| && q.appearances[i] == a;
    SelfInduces(ctx, members, q.appearances, i, q.id);
    InducedIsMatch(ctx, members, q.appearances, 0, {}, [i], row);
    DistinctMembers(Matches(ctx, members, q.appearances, 0, {}));
    MergeEmpty(row);
    ExtendMembers(map[], VisitedRows(ctx, members, q.appearances), row);
  }

  lemma SelfInduces(ctx: Context, members: seq<Member>, stored: AppearanceSet, i: nat, id: Thing)
    requires members == [Member(ThingVariable(RECALLED), AnyRole)] && i < |stored| && stored[i].thing == id
    ensures InducedBy(ctx, members, stored, 0, {}, [i], map[RECALLED := ThingValue(id)])
  {
    var row: Binding := map[RECALLED := ThingValue(id)];
    MergeEmpty(row);
    assert Contribution(ctx, members[0], stored[i]) == Some(row);
    assert [i][1..] == [];
    assert Induced(ctx, members, stored, 1, []) == Some(map[]);
  }

  lemma SelfPatternNames(at: Time)
    ensures Askable(SelfPattern(at), map[]) && Unapart(SelfPattern(at), RECALLED) && !FieldsApart(SelfPattern(at))
  {
    var p := SelfPattern(at);
    assert OneOfNames(p.appearances.members) == {};
    assert Dependencies(p) == {};
    assert MemberNames(p.appearances.members, 1) == {};
    assert RECALLED in MemberNames(p.appearances.members, 0);
    assert RECALLED in FieldNames(p) * StructuralNames(p.appearances);
  }

  lemma SelfSuperseded(ctx: Context, q: Posit, later: Posit, posits: seq<Posit>)
    requires q in posits && later in posits && Contests(q, later)
    ensures !NothingDropped(ctx, SelfPattern(later.time), posits, Some(later.time), map[])
  {
    hide OnPosit;
    hide InItself;
    hide CandidateRows;
    hide NothingDropped;
    hide SelfPattern;
    hide Keep;
    var (p, cut) := (SelfPattern(later.time), Some(later.time));
    SelfMatches(ctx, later.time, q);
    SelfMatches(ctx, later.time, later);
    KeepMembers(posits, Within(cut), q);
    KeepMembers(posits, Within(cut), later);
    CandidateRowsByPosit(ctx, p, posits, cut, map[]);
    ReducedCandidates(ctx, p, posits, cut, map[]);
    var row := StructuralMatch(q, OnPosit(ctx, p, q, map[])[0]);
    assert row in CandidateRows(ctx, p, posits, cut, map[]);
  }

  lemma SelfUnstable(s: Snapshot, at: Time)
    requires !NothingDropped(Context(s.roleNames, map[]), SelfPattern(at), AllPosits(s), Some(at), map[])
    ensures !StableAt(s, SelfPattern(at), map[])
  {
    hide NothingDropped;
    hide FieldsApart;
    SelfPatternNames(at);
  }

  /** The pattern that fails in a contested database. */
  lemma ContestedFails(s: Snapshot, q: Posit, later: Posit)
    requires Closed(s) && q in AllPosits(s) && later in AllPosits(s) && Contests(q, later)
    ensures Askable(SelfPattern(later.time), map[]) && !JoinsAlone(s, SelfPattern(later.time), map[])
  {
    hide Contests;
    hide Closed;
    hide Relation;
    hide StableAt;
    hide NothingDropped;
    hide SelfPattern;
    hide AllPosits;
    SelfPatternNames(later.time);
    SelfSuperseded(Context(s.roleNames, map[]), q, later, AllPosits(s));
    SelfUnstable(s, later.time);
    JoinsExactlyWhenStable(s, SelfPattern(later.time), map[]);
  }

  // ------------------------------------------------------------------------- theorems

  /** Every pattern joins independently, at all dependencies and inputs, exactly when nothing is contested. */
  lemma EveryPatternJoins(s: Snapshot)
    requires Closed(s)
    ensures (forall p, own :: Askable(p, own) ==> JoinsAlone(s, p, own)) <==> !Contested(s)
  {
    if Contested(s) {
      var id, later :| id in s.posits && later in s.posits && Contests(s.posits[id], s.posits[later]);
      AllPositsDistinct(s);
      ContestedFails(s, s.posits[id], s.posits[later]);
    } else {
      forall p, own | Askable(p, own) ensures JoinsAlone(s, p, own) {
        UncontestedIsStable(s, p, own);
        JoinsExactlyWhenStable(s, p, own);
      }
    }
  }

  /** Two orders of the same well-built patterns, each finding its dependencies bound. */
  ghost predicate Reordering(a: seq<PositPattern>, b: seq<PositPattern>, available: set<string>, rows: seq<Binding>) {
    && multiset(a) == multiset(b) && Ordered(a, available) && Ordered(b, available) && AllBind(rows, available)
    && forall p :: p in a ==> WellBuilt(p)
  }

  /** Any two dependency-respecting orders of any branch return the same bag of bindings. */
  ghost predicate OrdersAgree(s: Snapshot) {
    forall a, b, available, rows :: Reordering(a, b, available, rows) ==> multiset(Run(s, a, rows)) == multiset(Run(s, b, rows))
  }

  lemma UncontestedOrders(s: Snapshot, a: seq<PositPattern>, b: seq<PositPattern>, available: set<string>, rows: seq<Binding>)
    requires Closed(s) && !Contested(s) && Reordering(a, b, available, rows)
    ensures multiset(Run(s, a, rows)) == multiset(Run(s, b, rows))
  {
    forall p | p in a ensures Sound(s, p) {
      forall own: Binding | own.Keys == Dependencies(p) && OwnInput(p, own) == own ensures StableAt(s, p, own) {
        UncontestedIsStable(s, p, own);
      }
    }
    OrderIndependence(s, a, b, available, rows);
  }

  // -------------------------------------------------- two orders of a contested branch

  /** Every posit, under the Things of its set. */
  function Finder(): PositPattern {
    PositPattern(None, SetPattern(None, [Member(ThingVariable(RECALLED), AnyRole)], true, false), AnyValue, AnyTime, None, false, None)
  }

  function Recalling(id: Thing): Binding {
    map[RECALLED := ThingValue(id)]
  }

  /** A row that has recalled the identity, as a Thing or as a posit. */
  predicate Recalled(row: Binding, id: Thing) {
    RECALLED in row && row[RECALLED].Identity?() && row[RECALLED].id == id
  }

  lemma ScanOfPlain(s: Snapshot, p: PositPattern, q: Posit, input: Binding, x: Binding)
    requires p.effect.None? && p.cutoff.None? && q in AllPosits(s) && x in OnPosit(Context(s.roleNames, input), p, q, input)
    ensures x in Relation(s, p, input)
  {
    hide OnPosit;
    hide AllPosits;
    hide FieldRows;
    hide StructuralRows;
    var (ctx, posits) := (Context(s.roleNames, input), AllPosits(s));
    KeepMembers(posits, Within(None), q);
    CandidateRowsByPosit(ctx, p, posits, None, input);
    var rows := SelectedRows(ctx, p, posits, None, input);
    var row := StructuralMatch(q, x);
    assert row in rows;
    FlatMapMembers(rows, BindingOf, x);
    assert x in BindingOf(row);
    OwnRowsAbsorb(ctx, p, input, q, x);
    ExtendMembers(input, FlatMap(rows, BindingOf), x);
  }

  lemma FinderFinds(s: Snapshot, q: Posit)
    requires q in AllPosits(s) && InItself(q)
    ensures Recalling(q.id) in Relation(s, Finder(), map[])
  {
    hide FlatMap;
    hide Merge;
    hide OwnMatches;
    hide AllPosits;
    hide Relation;
    var (p, ctx, row) := (Finder(), Context(s.roleNames, map[]), Recalling(q.id));
    SelfMatchesSet(ctx, q.time, q);
    assert p.appearances == SelfPattern(q.time).appearances;
    MergeEmpty(map[]);
    assert FieldBinding(p, q) == Some(map[]);
    MergeEmpty(row);
    var matches := OwnMatches(ctx, p.appearances, q.appearances);
    ExtendMembers(map[], matches, row);
    ExtendMembers(map[], Extend(map[], matches), row);
    ScanOfPlain(s, p, q, map[], row);
  }

  lemma SelfRelation(s: Snapshot, at: Time, input: Binding)
    ensures Relation(s, SelfPattern(at), input)
            == ScanRelation(Context(s.roleNames, input), SelfPattern(at), AllPosits(s), Some(at), input)
    ensures SelfPattern(at).latest && StructuralInput(SelfPattern(at), map[]) == map[]
  {
    hide ScanRelation;
  }

  /** After the Finder the superseded posit is found, and nothing supersedes it any more. */
  lemma FoundAfter(s: Snapshot, q: Posit, later: Posit) returns (row: Binding)
    requires Closed(s) && q in AllPosits(s) && later in AllPosits(s) && Contests(q, later)
    ensures row in Relation(s, SelfPattern(later.time), Recalling(q.id)) && Recalled(row, q.id)
  {
    hide OnPosit;
    hide AllPosits;
    hide Closed;
    hide InItself;
    hide ScanRelation;
    hide NamesPosit;
    hide DistinctIds;
    var (p, cut, posits) := (SelfPattern(later.time), Some(later.time), AllPosits(s));
    var (own, input) := (map[], Recalling(q.id));
    var ctx := Context(s.roleNames, own);
    SelfPatternNames(later.time);
    AllPositsDistinct(s);
    UnapartNamesPosit(ctx, p, own, RECALLED);
    SelfMatches(ctx, later.time, q);
    KeepMembers(posits, Within(cut), q);
    RecallStructure(p, own, RECALLED, q.id);
    assert own[RECALLED := ThingValue(q.id)] == input;
    RecalledComesBack(ctx, p, posits, cut, own, RECALLED, q);
    var found := ScanRelation(ctx, p, posits, cut, input);
    row := found[0];
    var other := ScanMembers(ctx, p, posits, cut, input, row);
    OnPositExtends(ctx, p, other, input, row);
    assert OneOfNames(p.appearances.members) == {};
    ScanContext(s, p, posits, cut, own, input, input);
  }

  /** Before the Finder it is superseded, and no row ever recalls it. */
  lemma LostBefore(s: Snapshot, q: Posit, later: Posit, row: Binding)
    requires Closed(s) && q in AllPosits(s) && later in AllPosits(s) && Contests(q, later)
    requires row in Relation(s, SelfPattern(later.time), map[])
    ensures RECALLED in row && row[RECALLED].Identity?() && row[RECALLED].id != q.id
  {
    hide OnPosit;
    hide AllPosits;
    hide Closed;
    hide InItself;
    hide ScanRelation;
    hide DistinctIds;
    hide Relation;
    hide Keep;
    var (p, cut, posits) := (SelfPattern(later.time), Some(later.time), AllPosits(s));
    var ctx := Context(s.roleNames, map[]);
    SelfPatternNames(later.time);
    SelfRelation(s, later.time, map[]);
    AllPositsDistinct(s);
    UnapartNamesPosit(ctx, p, map[], RECALLED);
    SelfMatches(ctx, later.time, later);
    hide SelfPattern;
    KeepMembers(posits, Within(cut), later);
    assert Superseded(ctx, p, Keep(posits, Within(cut)), map[], q);
    var other := ScanMembers(ctx, p, posits, cut, map[], row);
    KeepMembers(posits, Within(cut), other);
    if other.id == q.id {
      SamePosit(posits, q, other);
      assert false;
    }
  }

  lemma StillRecalled(s: Snapshot, input: Binding, row: Binding, id: Thing)
    requires row in Relation(s, Finder(), input) && RECALLED in input && input[RECALLED].Identity?() && input[RECALLED].id != id
    ensures !Recalled(row, id)
  {
    hide OnPosit;
    hide SelectedRows;
    hide Merge;
    var kept := FlatMap(SelectedRows(Context(s.roleNames, input), Finder(), AllPosits(s), None, StructuralInput(Finder(), input)), BindingOf);
    ExtendMembers(input, kept, row);
    var x :| x in kept && Merge(input, x) == Some(row);
    MergeSays(input, x, row, input);
  }

  lemma RunOfTwo(s: Snapshot, p: PositPattern, q: PositPattern, row: Binding)
    ensures row in Run(s, [p, q], [map[]]) <==> exists x :: x in Relation(s, p, map[]) && row in Relation(s, q, x)
  {
    hide Relation;
    assert [p, q] == [p] + [q] && [q] == [q] + [];
    RunFirst(s, p, [q], [map[]]);
    RunFirst(s, q, [], FlatMap([map[]], Step(s, p)));
    FlatMapOne(map[], Step(s, p));
    FlatMapMembers(Relation(s, p, map[]), Step(s, q), row);
  }

  lemma OrderedPair(p: PositPattern, q: PositPattern)
    requires Dependencies(p) == {} && Dependencies(q) == {}
    ensures Ordered([p, q], {})
  {
    hide Introduced;
    assert [p, q][1..] == [q] && [q][1..] == [];
    assert Ordered([q], {} + Introduced(p));
  }

  lemma TwoOrders(at: Time)
    ensures Reordering([Finder(), SelfPattern(at)], [SelfPattern(at), Finder()], {}, [map[]])
  {
    var (p, q) := (Finder(), SelfPattern(at));
    assert OneOfNames(p.appearances.members) == {} && OneOfNames(q.appearances.members) == {};
    assert Dependencies(p) == {} && Dependencies(q) == {};
    OrderedPair(p, q);
    OrderedPair(q, p);
    hide Ordered;
    assert multiset([p, q]) == multiset{p, q} == multiset([q, p]);
  }

  /** A branch whose two orders return different bags in any contested database. */
  lemma ContestedOrders(s: Snapshot, q: Posit, later: Posit)
    requires Closed(s) && q in AllPosits(s) && later in AllPosits(s) && Contests(q, later)
    ensures Reordering([Finder(), SelfPattern(later.time)], [SelfPattern(later.time), Finder()], {}, [map[]])
    ensures multiset(Run(s, [Finder(), SelfPattern(later.time)], [map[]])) != multiset(Run(s, [SelfPattern(later.time), Finder()], [map[]]))
  {
    hide Relation;
    hide Closed;
    hide Contests;
    hide Run;
    hide AllPosits;
    hide SelfPattern;
    hide Finder;
    hide Reordering;
    var (p, latest) := (Finder(), SelfPattern(later.time));
    TwoOrders(later.time);
    ContestsInItself(q, later);
    FinderFinds(s, q);
    var row := FoundAfter(s, q, later);
    RunOfTwo(s, p, latest, row);
    RunOfTwo(s, latest, p, row);
    if row in Run(s, [latest, p], [map[]]) {
      var x :| x in Relation(s, latest, map[]) && row in Relation(s, p, x);
      LostBefore(s, q, later, x);
      StillRecalled(s, x, row, q.id);
      assert false;
    }
    assert row in multiset(Run(s, [p, latest], [map[]]));
    assert row !in multiset(Run(s, [latest, p], [map[]]));
  }

  lemma ContestsInItself(q: Posit, later: Posit)
    requires Contests(q, later)
    ensures InItself(q) && InItself(later)
  {
  }

  /** All orders of all branches agree exactly in the uncontested databases. */
  lemma EveryOrderAgrees(s: Snapshot)
    requires Closed(s)
    ensures OrdersAgree(s) <==> !Contested(s)
  {
    hide Run;
    hide Closed;
    hide Reordering;
    hide Contests;
    hide AllPosits;
    hide DistinctIds;
    if Contested(s) {
      var id, later :| id in s.posits && later in s.posits && Contests(s.posits[id], s.posits[later]);
      ClosedIdentities(s);
      AllPositsDistinct(s);
      ContestedOrders(s, s.posits[id], s.posits[later]);
    } else {
      forall a, b, available, rows | Reordering(a, b, available, rows) ensures multiset(Run(s, a, rows)) == multiset(Run(s, b, rows)) {
        UncontestedOrders(s, a, b, available, rows);
      }
    }
  }

  lemma ClosedIdentities(s: Snapshot)
    requires Closed(s)
    ensures forall id :: id in s.posits ==> s.posits[id].id == id
  {
  }

  // ---------------------------------------------------------- databases commands reach

  /** Commands only keep posits younger than their Things, so no database they build is contested. */
  lemma YoungerIsUncontested(s: Snapshot)
    requires Closed(s) && forall id :: id in s.posits ==> Younger(s.posits[id])
    ensures !Contested(s)
  {
  }
}
