/**
 Branches of a query: running posit patterns one after another.  Any two orders that
 respect the patterns' dependencies return the same bag of bindings, and the greedy
 planner finds such an order whenever one exists.
 */
module Branches {
  import opened Prelude
  import opened Sequences
  import opened Times
  import opened Constructs
  import opened Effect
  import opened Bindings
  import opened Matching
  import opened Patterns
  import opened JoinOrder
  import opened LatestPatterns

  // ---------------------------------------------------------------- bag algebra

  ghost function Adding<S(!new), T(!new)>(f: S -> seq<T>, g: S -> seq<T>): S -> seq<T> {
    (x: S) => f(x) + g(x)
  }

  lemma {:induction false} FlatMapSum<S(!new), T(!new)>(xs: seq<S>, f: S -> seq<T>, g: S -> seq<T>)
    ensures multiset(FlatMap(xs, Adding(f, g))) == multiset(FlatMap(xs, f)) + multiset(FlatMap(xs, g))
  {
    if xs != [] {
      FlatMapSum(xs[..|xs| - 1], f, g);
    }
  }

  lemma {:induction false} FlatMapBagAgree<S(!new), T(!new)>(xs: seq<S>, f: S -> seq<T>, g: S -> seq<T>)
    requires forall x :: x in xs ==> multiset(f(x)) == multiset(g(x))
    ensures multiset(FlatMap(xs, f)) == multiset(FlatMap(xs, g))
  {
    if xs != [] {
      FlatMapBagAgree(xs[..|xs| - 1], f, g);
      assert xs[|xs| - 1] in xs;
    }
  }

  lemma BagWithout<T>(xs: seq<T>, i: nat)
    requires i < |xs|
    ensures multiset(xs) == multiset(xs[..i] + xs[i + 1..]) + multiset{xs[i]}
  {
    assert xs == xs[..i] + ([xs[i]] + xs[i + 1..]);
  }

  lemma BagCancel<T>(a: multiset<T>, b: multiset<T>, x: T)
    requires a + multiset{x} == b + multiset{x}
    ensures a == b
  {
    assert a == a + multiset{x} - multiset{x};
    assert b == b + multiset{x} - multiset{x};
  }

  lemma FlatMapMiddle<S(!new), T(!new)>(xs: seq<S>, i: nat, f: S -> seq<T>)
    requires i < |xs|
    ensures multiset(FlatMap(xs, f)) == multiset(FlatMap(xs[..i] + xs[i + 1..], f)) + multiset(f(xs[i]))
  {
    var (before, after) := (xs[..i], xs[i + 1..]);
    assert xs == (before + [xs[i]]) + after;
    FlatMapConcat(before + [xs[i]], after, f);
    FlatMapSnoc(before, xs[i], f);
    FlatMapConcat(before, after, f);
  }

  /** The bag of a flat map depends only on the bag it maps. */
  lemma {:induction false} FlatMapBag<S(!new), T(!new)>(xs: seq<S>, ys: seq<S>, f: S -> seq<T>)
    requires multiset(xs) == multiset(ys)
    ensures multiset(FlatMap(xs, f)) == multiset(FlatMap(ys, f))
  {
    if xs == [] {
      assert |multiset(ys)| == 0;
      assert ys == [];
    } else {
      var front, last := xs[..|xs| - 1], xs[|xs| - 1];
      assert last in multiset(xs) && last in multiset(ys);
      var i :| 0 <= i < |ys| && ys[i] == last;
      BagWithout(xs, |xs| - 1);
      BagWithout(ys, i);
      assert xs[..|xs| - 1] + xs[|xs|..] == front;
      BagCancel(multiset(front), multiset(ys[..i] + ys[i + 1..]), last);
      FlatMapBag(front, ys[..i] + ys[i + 1..], f);
      FlatMapMiddle(ys, i, f);
    }
  }

  lemma {:induction false} ProductCommutes(xs: seq<Binding>, ys: seq<Binding>)
    ensures multiset(Product(xs, ys)) == multiset(Product(ys, xs))
  {
    if xs == [] {
      ProductNothing(ys);
    } else {
      var front, last := xs[..|xs| - 1], xs[|xs| - 1];
      assert xs == front + [last];
      ProductCommutes(front, ys);
      forall y | y in ys ensures Before(xs)(y) == Adding(Before(front), Extending(last))(y) {
        FlatMapSnoc(front, last, Extending(y));
        MergeCommutes(y, last);
      }
      FlatMapAgree(ys, Before(xs), Adding(Before(front), Extending(last)));
      FlatMapSum(ys, Before(front), Extending(last));
    }
  }

  lemma {:induction false} ProductNothing(ys: seq<Binding>)
    ensures Product(ys, []) == []
  {
    if ys != [] {
      ProductNothing(ys[..|ys| - 1]);
    }
  }

  // --------------------------------------------------------------- two patterns

  /** No input can disturb the pattern's reduction. */
  ghost predicate Stable(s: Snapshot, p: PositPattern) {
    forall own: Binding :: own.Keys == Dependencies(p) && OwnInput(p, own) == own ==> StableAt(s, p, own)
  }

  ghost function Step(s: Snapshot, p: PositPattern): Binding -> seq<Binding> {
    (b: Binding) => Relation(s, p, b)
  }

  lemma StepIsJoin(s: Snapshot, p: PositPattern, input: Binding)
    requires Stable(s, p) && Dependencies(p) <= input.Keys
    ensures Step(s, p)(input) == Extend(input, Relation(s, p, OwnInput(p, input)))
  {
    hide StableAt;
    OwnInputOfOwn(p, input);
    assert OwnInput(p, input).Keys == Dependencies(p);
    RelationIsJoin(s, p, input);
  }

  /** A joined row leaves the dependencies of other patterns as the input had them. */
  lemma OwnInputKept(p: PositPattern, input: Binding, other: Binding, row: Binding)
    requires Dependencies(p) <= input.Keys && Merge(input, other) == Some(row)
    ensures input.Keys <= row.Keys && OwnInput(p, row) == OwnInput(p, input)
  {
    assert row.Keys == input.Keys + other.Keys;
  }

  lemma TwoSteps(s: Snapshot, p: PositPattern, q: PositPattern, input: Binding)
    requires Stable(s, p) && Stable(s, q) && Dependencies(p) <= input.Keys && Dependencies(q) <= input.Keys
    ensures FlatMap(Step(s, p)(input), Step(s, q))
            == Extend(input, Product(Relation(s, p, OwnInput(p, input)), Relation(s, q, OwnInput(q, input))))
  {
    hide Relation;
    hide Merge;
    hide OwnInput;
    hide Stable;
    var (xs, ys) := (Relation(s, p, OwnInput(p, input)), Relation(s, q, OwnInput(q, input)));
    StepIsJoin(s, p, input);
    forall row | row in Extend(input, xs) ensures Step(s, q)(row) == Before(ys)(row) {
      ExtendMembers(input, xs, row);
      var x :| x in xs && Merge(input, x) == Some(row);
      OwnInputKept(q, input, x, row);
      StepIsJoin(s, q, row);
    }
    FlatMapAgree(Extend(input, xs), Step(s, q), Before(ys));
    ProductExtend(input, xs, ys);
  }

  lemma StepsCommute(s: Snapshot, p: PositPattern, q: PositPattern, input: Binding)
    requires Stable(s, p) && Stable(s, q) && Dependencies(p) <= input.Keys && Dependencies(q) <= input.Keys
    ensures multiset(Then(Step(s, p), Step(s, q))(input)) == multiset(Then(Step(s, q), Step(s, p))(input))
  {
    hide Relation;
    hide OwnInput;
    hide Stable;
    var (xs, ys) := (Relation(s, p, OwnInput(p, input)), Relation(s, q, OwnInput(q, input)));
    TwoSteps(s, p, q, input);
    TwoSteps(s, q, p, input);
    ProductCommutes(xs, ys);
    FlatMapBag(Product(xs, ys), Product(ys, xs), Extending(input));
  }

  // ------------------------------------------------------------------- branches

  /** Runs patterns in order over a list of bindings. */
  ghost function Run(s: Snapshot, patterns: seq<PositPattern>, rows: seq<Binding>): seq<Binding> {
    if patterns == [] then rows else Run(s, patterns[1..], FlatMap(rows, Step(s, patterns[0])))
  }

  /** Every pattern finds its dependencies bound by the patterns before it. */
  ghost predicate Ordered(patterns: seq<PositPattern>, available: set<string>) {
    patterns == [] || (Dependencies(patterns[0]) <= available && Ordered(patterns[1..], available + Introduced(patterns[0])))
  }

  ghost predicate AllBind(rows: seq<Binding>, names: set<string>) {
    forall row :: row in rows ==> names <= row.Keys
  }

  lemma SwapSteps(s: Snapshot, p: PositPattern, q: PositPattern, rows: seq<Binding>, available: set<string>)
    requires Stable(s, p) && Stable(s, q) && Dependencies(p) <= available && Dependencies(q) <= available
    requires AllBind(rows, available)
    ensures multiset(FlatMap(FlatMap(rows, Step(s, p)), Step(s, q))) == multiset(FlatMap(FlatMap(rows, Step(s, q)), Step(s, p)))
  {
    hide Stable;
    FlatMapFlatMap(rows, Step(s, p), Step(s, q));
    FlatMapFlatMap(rows, Step(s, q), Step(s, p));
    forall row | row in rows
      ensures multiset(Then(Step(s, p), Step(s, q))(row)) == multiset(Then(Step(s, q), Step(s, p))(row))
    {
      StepsCommute(s, p, q, row);
    }
    FlatMapBagAgree(rows, Then(Step(s, p), Step(s, q)), Then(Step(s, q), Step(s, p)));
  }

  lemma {:induction false} RunBag(s: Snapshot, patterns: seq<PositPattern>, xs: seq<Binding>, ys: seq<Binding>)
    requires multiset(xs) == multiset(ys)
    ensures multiset(Run(s, patterns, xs)) == multiset(Run(s, patterns, ys))
  {
    if patterns != [] {
      FlatMapBag(xs, ys, Step(s, patterns[0]));
      RunBag(s, patterns[1..], FlatMap(xs, Step(s, patterns[0])), FlatMap(ys, Step(s, patterns[0])));
    }
  }

  // ------------------------------------------------- what a pattern leaves bound

  lemma MergeKeys(a: Binding, b: Binding)
    ensures Merge(a, b).Some? ==> Merge(a, b).value.Keys == a.Keys + b.Keys
  {
  }

  lemma OnPositBinds(ctx: Context, p: PositPattern, q: Posit, b: Binding, row: Binding)
    requires WellFormed(p.appearances) && row in OnPosit(ctx, p, q, b)
    ensures row.Keys == b.Keys + FieldNames(p) + StructuralNames(p.appearances)
  {
    hide FieldBinding;
    hide OwnMatches;
    hide FieldNames;
    hide StructuralNames;
    hide Merge;
    hide FlatMap;
    var f, matches := FieldBinding(p, q).value, OwnMatches(ctx, p.appearances, q.appearances);
    FieldBindingNames(p, q);
    ExtendMembers(f, Extend(b, matches), row);
    var y :| y in Extend(b, matches) && Merge(f, y) == Some(row);
    ExtendMembers(b, matches, y);
    var m :| m in matches && Merge(b, m) == Some(y);
    OwnMatchValues(ctx, p.appearances, q.appearances, m);
    MergeKeys(f, y);
    MergeKeys(b, m);
  }

  lemma EffectBinds(ctx: Context, p: PositPattern, via: Option<PositPattern>, rows: seq<Evidence>, input: Binding, row: Binding)
    requires WellFormed(p.appearances) && (via.Some? ==> WellFormed(via.value.appearances))
    requires row in EffectRelation(ctx, p, via, rows, input)
    ensures row.Keys == input.Keys + FieldNames(p) + StructuralNames(p.appearances)
                        + (if via.Some? then FieldNames(via.value) + StructuralNames(via.value.appearances) else {})
  {
    hide OnPosit;
    FlatMapMembers(rows, OnEvidence(ctx, p, via, input), row);
    var e :| e in rows && row in OnEvidence(ctx, p, via, input)(e);
    if via.None? {
      OnPositBinds(ctx, p, e.target, input, row);
    } else {
      FlatMapMembers(OnPosit(ctx, p, e.target, input), ViaRows(ctx, via.value, e.assertion), row);
      var y :| y in OnPosit(ctx, p, e.target, input) && row in ViaRows(ctx, via.value, e.assertion)(y);
      hide FieldNames;
      hide StructuralNames;
      OnPositBinds(ctx, p, e.target, input, y);
      OnPositBinds(ctx, via.value, e.assertion, y, row);
    }
  }

  /** Every row of a scan binds what its input binds and what the pattern's fields and structure introduce. */
  lemma ScanBinds(ctx: Context, p: PositPattern, posits: seq<Posit>, cut: Option<Time>, input: Binding, row: Binding)
    requires WellFormed(p.appearances) && row in ScanRelation(ctx, p, posits, cut, input)
    ensures row.Keys == input.Keys + FieldNames(p) + StructuralNames(p.appearances)
  {
    hide OnPosit;
    hide Merge;
    hide SelectedRows;
    hide FieldNames;
    hide StructuralNames;
    var b := StructuralInput(p, input);
    var selected := SelectedRows(ctx, p, posits, cut, b);
    ExtendMembers(input, FlatMap(selected, BindingOf), row);
    var x :| x in FlatMap(selected, BindingOf) && Merge(input, x) == Some(row);
    FlatMapMembers(selected, BindingOf, x);
    var m :| m in selected && x in BindingOf(m);
    SelectedFrom(ctx, p, posits, cut, b, m);
    OnPositBinds(ctx, p, m.posit, b, x);
    MergeKeys(input, x);
  }

  /** A via pattern is plain: it has no evidence of its own. */
  predicate PlainVia(p: PositPattern) {
    p.effect.Some? && p.effect.value.via.Some? ==> p.effect.value.via.value.effect.None?
  }

  /** What the grammar guarantees: `*` has no members, and a via pattern is plain. */
  predicate WellBuilt(p: PositPattern) {
    && WellFormed(p.appearances) && PlainVia(p)
    && (p.effect.Some? && p.effect.value.via.Some? ==> WellFormed(p.effect.value.via.value.appearances))
  }

  /** A pattern leaves bound all its input binds and all it introduces, and nothing else. */
  lemma StepBinds(s: Snapshot, p: PositPattern, input: Binding, row: Binding)
    requires WellBuilt(p) && row in Step(s, p)(input)
    ensures row.Keys == input.Keys + Introduced(p)
  {
    hide ScanRelation;
    hide EffectRelation;
    hide FieldNames;
    hide StructuralNames;
    if p.effect.Some? {
      var e := p.effect.value;
      EffectBinds(Context(s.roleNames, input), p, e.via,
                  SliceAt(s, Cut(ResolvedCutoff(e.assertionCutoff, input).value, ResolvedCutoff(e.appearanceCutoff, input).value)), input, row);
    } else {
      var cut := if p.cutoff.None? then None else Some(ResolvedCutoff(p.cutoff.value, input).value);
      ScanBinds(Context(s.roleNames, input), p, AllPosits(s), cut, input, row);
    }
  }

  lemma StepAllBind(s: Snapshot, p: PositPattern, rows: seq<Binding>, available: set<string>)
    requires WellBuilt(p) && AllBind(rows, available)
    ensures AllBind(FlatMap(rows, Step(s, p)), available + Introduced(p))
  {
    hide WellBuilt;
    hide Relation;
    hide Introduced;
    forall row | row in FlatMap(rows, Step(s, p)) ensures available + Introduced(p) <= row.Keys {
      FlatMapMembers(rows, Step(s, p), row);
      var input :| input in rows && row in Step(s, p)(input);
      StepBinds(s, p, input, row);
    }
  }

  // ------------------------------------------------------------ order independence

  ghost predicate Sound(s: Snapshot, p: PositPattern) {
    Stable(s, p) && WellBuilt(p)
  }

  lemma {:induction false} OrderedMore(patterns: seq<PositPattern>, available: set<string>, more: set<string>)
    requires Ordered(patterns, available) && available <= more
    ensures Ordered(patterns, more)
  {
    hide Dependencies;
    hide Introduced;
    if patterns != [] {
      OrderedMore(patterns[1..], available + Introduced(patterns[0]), more + Introduced(patterns[0]));
    }
  }

  function MovedToFront(patterns: seq<PositPattern>, k: nat): seq<PositPattern>
    requires k < |patterns|
  {
    [patterns[k]] + patterns[..k] + patterns[k + 1..]
  }

  /** A pattern whose dependencies are already available may run first. */
  lemma {:induction false} MoveToFront(s: Snapshot, patterns: seq<PositPattern>, k: nat, available: set<string>, rows: seq<Binding>)
    requires k < |patterns| && Ordered(patterns, available) && Dependencies(patterns[k]) <= available
    requires (forall p :: p in patterns ==> Sound(s, p)) && AllBind(rows, available)
    ensures Ordered(MovedToFront(patterns, k), available)
    ensures multiset(Run(s, patterns, rows)) == multiset(Run(s, MovedToFront(patterns, k), rows))
    decreases k
  {
    hide Stable;
    hide Relation;
    hide WellBuilt;
    hide Dependencies;
    hide Introduced;
    hide AllBind;
    hide Run;
    hide Ordered;
    hide Sound;
    if k == 0 {
      assert MovedToFront(patterns, 0) == patterns;
    } else {
      var (q, p) := (patterns[0], patterns[k]);
      var (tail, rest) := (patterns[1..], patterns[1..k] + patterns[k + 1..]);
      assert q in patterns && p in patterns;
      OrderedFirst(patterns, available);
      SoundParts(s, q);
      SoundParts(s, p);
      StepAllBind(s, q, rows, available);
      MoveToFront(s, tail, k - 1, available + Introduced(q), FlatMap(rows, Step(s, q)));
      assert MovedToFront(tail, k - 1) == [p] + rest;
      assert MovedToFront(patterns, k) == [p] + ([q] + rest);
      MoveOrdered(p, q, rest, available);
      MoveRun(s, p, q, rest, available, rows);
      assert patterns == [q] + tail;
      RunFirst(s, q, tail, rows);
    }
  }

  lemma OrderedFirst(patterns: seq<PositPattern>, available: set<string>)
    requires Ordered(patterns, available) && patterns != []
    ensures Dependencies(patterns[0]) <= available && Ordered(patterns[1..], available + Introduced(patterns[0]))
  {
  }

  lemma MoveRun(s: Snapshot, p: PositPattern, q: PositPattern, rest: seq<PositPattern>, available: set<string>, rows: seq<Binding>)
    requires Stable(s, p) && Stable(s, q) && Dependencies(p) <= available && Dependencies(q) <= available
    requires AllBind(rows, available)
    ensures multiset(Run(s, [p] + rest, FlatMap(rows, Step(s, q)))) == multiset(Run(s, [p] + ([q] + rest), rows))
  {
    hide Stable;
    hide Relation;
    hide Dependencies;
    hide AllBind;
    hide Run;
    var after := FlatMap(rows, Step(s, q));
    SwapSteps(s, p, q, rows, available);
    RunBag(s, rest, FlatMap(after, Step(s, p)), FlatMap(FlatMap(rows, Step(s, p)), Step(s, q)));
    RunFirstTwo(s, p, q, rest, rows);
    RunFirst(s, p, rest, after);
  }

  lemma MoveOrdered(p: PositPattern, q: PositPattern, rest: seq<PositPattern>, available: set<string>)
    requires Dependencies(p) <= available && Dependencies(q) <= available
    requires Ordered([p] + rest, available + Introduced(q))
    ensures Ordered([p] + ([q] + rest), available)
  {
    hide Dependencies;
    hide Introduced;
    assert ([p] + rest)[1..] == rest && ([p] + ([q] + rest))[1..] == [q] + rest && ([q] + rest)[1..] == rest;
    assert available + Introduced(q) + Introduced(p) == available + Introduced(p) + Introduced(q);
  }

  lemma RunFirst(s: Snapshot, p: PositPattern, rest: seq<PositPattern>, rows: seq<Binding>)
    ensures Run(s, [p] + rest, rows) == Run(s, rest, FlatMap(rows, Step(s, p)))
  {
    assert ([p] + rest)[1..] == rest;
  }

  lemma RunFirstTwo(s: Snapshot, p: PositPattern, q: PositPattern, rest: seq<PositPattern>, rows: seq<Binding>)
    ensures Run(s, [p] + ([q] + rest), rows) == Run(s, rest, FlatMap(FlatMap(rows, Step(s, p)), Step(s, q)))
  {
    RunFirst(s, p, [q] + rest, rows);
    RunFirst(s, q, rest, FlatMap(rows, Step(s, p)));
  }

  lemma RestBag<T>(a: seq<T>, b: seq<T>, k: nat)
    requires multiset(a) == multiset(b) && a != [] && k < |b| && b[k] == a[0]
    ensures multiset(a[1..]) == multiset(b[..k] + b[k + 1..])
  {
    BagWithout(a, 0);
    BagWithout(b, k);
    assert a[..0] + a[1..] == a[1..];
    BagCancel(multiset(a[1..]), multiset(b[..k] + b[k + 1..]), a[0]);
  }

  lemma SameMembers<T>(a: seq<T>, b: seq<T>)
    requires multiset(a) == multiset(b)
    ensures |a| == |b| && forall x :: x in b <==> x in a
  {
    assert |a| == |multiset(a)| == |multiset(b)| == |b|;
    forall x ensures x in b <==> x in a {
      assert x in b <==> x in multiset(b);
      assert x in a <==> x in multiset(a);
    }
  }

  /** Every two dependency-respecting orders of a branch's patterns return the same bag of bindings. */
  lemma {:induction false} OrderIndependence(s: Snapshot, a: seq<PositPattern>, b: seq<PositPattern>, available: set<string>, rows: seq<Binding>)
    requires multiset(a) == multiset(b) && Ordered(a, available) && Ordered(b, available)
    requires (forall p :: p in a ==> Sound(s, p)) && AllBind(rows, available)
    ensures multiset(Run(s, a, rows)) == multiset(Run(s, b, rows))
    decreases |a|
  {
    hide Sound;
    hide WellBuilt;
    hide Relation;
    hide Dependencies;
    hide Introduced;
    hide AllBind;
    SameMembers(a, b);
    if a != [] {
      var p := a[0];
      assert p in b;
      var k :| 0 <= k < |b| && b[k] == p;
      MoveToFront(s, b, k, available, rows);
      var rest := b[..k] + b[k + 1..];
      assert MovedToFront(b, k) == [p] + rest && MovedToFront(b, k)[1..] == rest;
      RestBag(a, b, k);
      SoundParts(s, p);
      StepAllBind(s, p, rows, available);
      OrderIndependence(s, a[1..], rest, available + Introduced(p), FlatMap(rows, Step(s, p)));
      RunFirst(s, p, rest, rows);
    }
  }

  lemma SoundParts(s: Snapshot, p: PositPattern)
    requires Sound(s, p)
    ensures Stable(s, p) && WellBuilt(p)
  {
  }

  /** A negated block has a match in one order exactly when it has in every other. */
  lemma BlockMatchIndependence(s: Snapshot, a: seq<PositPattern>, b: seq<PositPattern>, outer: Binding)
    requires multiset(a) == multiset(b) && Ordered(a, outer.Keys) && Ordered(b, outer.Keys)
    requires forall p :: p in a ==> Sound(s, p)
    ensures Run(s, a, [outer]) != [] <==> Run(s, b, [outer]) != []
  {
    OrderIndependence(s, a, b, outer.Keys, [outer]);
    assert |Run(s, a, [outer])| == |multiset(Run(s, a, [outer]))| == |multiset(Run(s, b, [outer]))|;
  }

  // ----------------------------------------------------------------- the planner

  ghost function AllIntroduced(patterns: seq<PositPattern>): set<string> {
    if patterns == [] then {} else Introduced(patterns[0]) + AllIntroduced(patterns[1..])
  }

  lemma {:induction false} OrderedSnoc(patterns: seq<PositPattern>, p: PositPattern, available: set<string>)
    requires Ordered(patterns, available) && Dependencies(p) <= available + AllIntroduced(patterns)
    ensures Ordered(patterns + [p], available)
    ensures AllIntroduced(patterns + [p]) == AllIntroduced(patterns) + Introduced(p)
  {
    hide Dependencies;
    hide Introduced;
    if patterns == [] {
      assert ([] + [p])[1..] == [];
    } else {
      assert (patterns + [p])[1..] == patterns[1..] + [p];
      OrderedSnoc(patterns[1..], p, available + Introduced(patterns[0]));
    }
  }

  /** Names closed under the patterns they enable hold every dependency of an ordered list. */
  lemma {:induction false} ClosedNames(order: seq<PositPattern>, available: set<string>, names: set<string>)
    requires Ordered(order, available) && available <= names
    requires forall p :: p in order && Dependencies(p) <= names ==> Introduced(p) <= names
    ensures forall p :: p in order ==> Dependencies(p) <= names
  {
    hide Dependencies;
    hide Introduced;
    if order != [] {
      assert order[0] in order;
      ClosedNames(order[1..], available + Introduced(order[0]), names);
    }
  }

  lemma {:induction false} IntroducedMember(patterns: seq<PositPattern>, p: PositPattern)
    requires p in patterns
    ensures Introduced(p) <= AllIntroduced(patterns)
  {
    if p != patterns[0] {
      IntroducedMember(patterns[1..], p);
    }
  }

  /** No order exists once nothing pending can run. */
  lemma StuckMeansUnresolvable(patterns: seq<PositPattern>, planned: seq<PositPattern>, pending: seq<PositPattern>, available: set<string>, order: seq<PositPattern>)
    requires multiset(planned) + multiset(pending) == multiset(patterns) == multiset(order) && pending != []
    requires forall p :: p in pending ==> !(Dependencies(p) <= available + AllIntroduced(planned))
    ensures !Ordered(order, available)
  {
    hide Dependencies;
    hide Introduced;
    var stuck := pending[0];
    assert stuck in pending && stuck in multiset(pending) && stuck in multiset(order);
    assert stuck in order;
    if Ordered(order, available) {
      var names := available + AllIntroduced(planned);
      forall p | p in order && Dependencies(p) <= names ensures Introduced(p) <= names {
        assert p in multiset(order);
        assert p in multiset(planned);
        IntroducedMember(planned, p);
      }
      ClosedNames(order, available, names);
      assert false;
    }
  }

  /** The cheapest pending pattern that can run; the first of equals. */
  method PickRunnable(pending: seq<PositPattern>, estimate: PositPattern -> nat, now: set<string>) returns (best: Option<nat>)
    ensures best.Some? ==> best.value < |pending| && Dependencies(pending[best.value]) <= now
    ensures best.Some? ==> forall i :: 0 <= i < |pending| && Dependencies(pending[i]) <= now ==>
                                         estimate(pending[best.value]) <= estimate(pending[i])
    ensures best.Some? ==> forall i :: 0 <= i < best.value && Dependencies(pending[i]) <= now ==>
                                         estimate(pending[best.value]) < estimate(pending[i])
    ensures best.None? ==> forall p :: p in pending ==> !(Dependencies(p) <= now)
  {
    hide Dependencies;
    best := None;
    for i := 0 to |pending|
      invariant best.Some? ==> best.value < i && Dependencies(pending[best.value]) <= now
      invariant best.Some? ==> forall k :: 0 <= k < i && Dependencies(pending[k]) <= now ==> estimate(pending[best.value]) <= estimate(pending[k])
      invariant best.Some? ==> forall k :: 0 <= k < best.value && Dependencies(pending[k]) <= now ==> estimate(pending[best.value]) < estimate(pending[k])
      invariant best.None? ==> forall k :: 0 <= k < i ==> !(Dependencies(pending[k]) <= now)
    {
      if Dependencies(pending[i]) <= now {
        if best.None? || estimate(pending[i]) < estimate(pending[best.value]) {
          best := Some(i);
        }
      }
    }
  }

  /** At each place of a plan stands the cheapest of what could run there and was still pending. */
  ghost predicate Greedy(planned: seq<PositPattern>, pending: seq<PositPattern>, estimate: PositPattern -> nat, available: set<string>) {
    forall k, q :: 0 <= k < |planned| && (q in planned[k..] || q in pending) && Dependencies(q) <= available + AllIntroduced(planned[..k]) ==>
      estimate(planned[k]) <= estimate(q)
  }

  lemma GreedyStep(planned: seq<PositPattern>, pending: seq<PositPattern>, estimate: PositPattern -> nat, available: set<string>, at: nat)
    requires Greedy(planned, pending, estimate, available) && at < |pending|
    requires forall i :: 0 <= i < |pending| && Dependencies(pending[i]) <= available + AllIntroduced(planned) ==> estimate(pending[at]) <= estimate(pending[i])
    ensures Greedy(planned + [pending[at]], pending[..at] + pending[at + 1..], estimate, available)
  {
    hide Dependencies;
    hide AllIntroduced;
    var (more, rest) := (planned + [pending[at]], pending[..at] + pending[at + 1..]);
    forall k, q | 0 <= k < |more| && (q in more[k..] || q in rest) && Dependencies(q) <= available + AllIntroduced(more[..k])
      ensures estimate(more[k]) <= estimate(q)
    {
      if k < |planned| {
        assert more[..k] == planned[..k] && more[k..] == planned[k..] + [pending[at]];
        assert q in planned[k..] || q in pending;
      } else {
        assert more[..k] == planned && more[k..] == [pending[at]];
        assert q in pending;
      }
    }
  }

  lemma NothingPlanned(patterns: seq<PositPattern>, estimate: PositPattern -> nat, available: set<string>)
    ensures Planning(patterns, [], patterns, estimate, available, available)
  {
  }

  /** What is planned and what is pending make up the patterns, and the plan so far is ordered and greedy. */
  ghost predicate Planning(patterns: seq<PositPattern>, planned: seq<PositPattern>, pending: seq<PositPattern>, estimate: PositPattern -> nat,
      available: set<string>, now: set<string>)
  {
    && multiset(planned) + multiset(pending) == multiset(patterns) && Ordered(planned, available)
    && now == available + AllIntroduced(planned) && Greedy(planned, pending, estimate, available)
  }

  lemma PlanStep(patterns: seq<PositPattern>, planned: seq<PositPattern>, pending: seq<PositPattern>, estimate: PositPattern -> nat,
      available: set<string>, now: set<string>, at: nat)
    requires Planning(patterns, planned, pending, estimate, available, now) && at < |pending| && Dependencies(pending[at]) <= now
    requires forall i :: 0 <= i < |pending| && Dependencies(pending[i]) <= now ==> estimate(pending[at]) <= estimate(pending[i])
    ensures Planning(patterns, planned + [pending[at]], pending[..at] + pending[at + 1..], estimate, available, now + Introduced(pending[at]))
  {
    hide Dependencies;
    hide Introduced;
    hide Greedy;
    hide Ordered;
    hide AllIntroduced;
    BagWithout(pending, at);
    OrderedSnoc(planned, pending[at], available);
    GreedyStep(planned, pending, estimate, available, at);
  }

  lemma PlanStuck(patterns: seq<PositPattern>, planned: seq<PositPattern>, pending: seq<PositPattern>, estimate: PositPattern -> nat,
      available: set<string>, now: set<string>)
    requires Planning(patterns, planned, pending, estimate, available, now) && pending != []
    requires forall p :: p in pending ==> !(Dependencies(p) <= now)
    ensures forall order :: multiset(order) == multiset(patterns) ==> !Ordered(order, available)
  {
    forall order | multiset(order) == multiset(patterns) ensures !Ordered(order, available) {
      StuckMeansUnresolvable(patterns, planned, pending, available, order);
    }
  }

  lemma PlanDone(patterns: seq<PositPattern>, planned: seq<PositPattern>, estimate: PositPattern -> nat, available: set<string>, now: set<string>)
    requires Planning(patterns, planned, [], estimate, available, now)
    ensures multiset(planned) == multiset(patterns) && Ordered(planned, available) && Greedy(planned, [], estimate, available)
  {
  }

  /** Orders a branch greedily by estimate; fails exactly when no order respects the dependencies. */
  method PlanPatterns(patterns: seq<PositPattern>, estimate: PositPattern -> nat, available: set<string>)
    returns (plan: Result<seq<PositPattern>, QueryError>)
    ensures plan.Ok? ==> multiset(plan.value) == multiset(patterns) && Ordered(plan.value, available) && Greedy(plan.value, [], estimate, available)
    ensures plan.Err? ==> forall order :: multiset(order) == multiset(patterns) ==> !Ordered(order, available)
  {
    hide Dependencies;
    hide Introduced;
    NothingPlanned(patterns, estimate, available);
    hide Planning;
    var pending, planned, now := patterns, [], available;
    while pending != []
      invariant Planning(patterns, planned, pending, estimate, available, now)
      decreases |pending|
    {
      var best := PickRunnable(pending, estimate, now);
      if best.None? {
        PlanStuck(patterns, planned, pending, estimate, available, now);
        return Err(Unresolvable);
      }
      PlanStep(patterns, planned, pending, estimate, available, now, best.value);
      var p := pending[best.value];
      pending := pending[..best.value] + pending[best.value + 1..];
      planned := planned + [p];
      now := now + Introduced(p);
    }
    PlanDone(patterns, planned, estimate, available, now);
    return Ok(planned);
  }
}
