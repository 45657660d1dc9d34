/** How often a row is answered: no posit gives one row twice. */
module Multiplicity {
  import opened Prelude
  import opened Sequences
  import opened Constructs
  import opened Times
  import opened Bindings
  import opened Matching
  import opened Patterns
  import opened JoinOrder
  import opened LatestPatterns
  import Effect

  ghost predicate Once<T(!new)>(xs: seq<T>) {
    forall i, j :: 0 <= i < j < |xs| ==> xs[i] != xs[j]
  }

  lemma OnceSnoc<T(!new)>(xs: seq<T>, ys: seq<T>)
    requires Once(xs) && Once(ys) && forall y :: y in ys ==> y !in xs
    ensures Once(xs + ys)
  {
    var all := xs + ys;
    forall i, j | 0 <= i < j < |all| ensures all[i] != all[j] {
      if i < |xs| <= j {
        assert all[i] in xs && all[j] in ys;
      }
    }
  }

  lemma OncePart<T(!new)>(xs: seq<T>, n: nat)
    requires Once(xs) && n < |xs|
    ensures Once(xs[..n]) && xs[n] !in xs[..n]
  {
  }

  /** Different elements that lead to different results, each once, lead to each result once. */
  lemma {:induction false} FlatMapOnce<S(!new), T(!new)>(xs: seq<S>, f: S -> seq<T>)
    requires Once(xs) && (forall x :: x in xs ==> Once(f(x)))
    requires forall x, y, t :: x in xs && y in xs && t in f(x) && t in f(y) ==> x == y
    ensures Once(FlatMap(xs, f))
  {
    if xs != [] {
      var (init, last) := (xs[..|xs| - 1], xs[|xs| - 1]);
      OncePart(xs, |xs| - 1);
      FlatMapOnce(init, f);
      forall t | t in f(last) ensures t !in FlatMap(init, f) {
        FlatMapMembers(init, f, t);
      }
      OnceSnoc(FlatMap(init, f), f(last));
    }
  }

  lemma {:induction false} KeepOnce<T(!new)>(xs: seq<T>, p: T -> bool)
    requires Once(xs)
    ensures Once(Keep(xs, p)) && forall x :: x in Keep(xs, p) ==> x in xs
  {
    if xs != [] {
      OncePart(xs, |xs| - 1);
      KeepOnce(xs[..|xs| - 1], p);
      KeepStep(xs, p, |xs| - 1);
      assert xs[..|xs|] == xs;
      if p(xs[|xs| - 1]) {
        OnceSnoc(Keep(xs[..|xs| - 1], p), [xs[|xs| - 1]]);
      }
    }
  }

  // ------------------------------------------------------------------- bindings

  /** Two rows over the same names that see the same of them as posits. */
  ghost predicate Alike(x: Binding, y: Binding) {
    x.Keys == y.Keys && forall n :: n in x ==> (x[n].PositValue? <==> y[n].PositValue?)
  }

  /** Joining alike rows with one binding keeps them apart. */
  lemma MergeInjective(b: Binding, x: Binding, y: Binding)
    requires Alike(x, y) && Merge(b, x).Some? && Merge(b, x) == Merge(b, y)
    ensures x == y
  {
    forall n | n in x ensures x[n] == y[n] {
      assert Merged(b, x)[n] == Merged(b, y)[n];
    }
  }

  lemma MergeAlike(b: Binding, x: Binding, y: Binding)
    requires Alike(x, y) && Merge(b, x).Some? && Merge(b, y).Some?
    ensures Alike(Merge(b, x).value, Merge(b, y).value)
  {
  }

  ghost predicate AllAlike(rows: seq<Binding>) {
    forall x, y :: x in rows && y in rows ==> Alike(x, y)
  }

  lemma ExtendOnce(b: Binding, rows: seq<Binding>)
    requires Once(rows) && AllAlike(rows)
    ensures Once(Extend(b, rows)) && AllAlike(Extend(b, rows))
  {
    hide Merge;
    forall x, y, t | x in rows && y in rows && t in Extending(b)(x) && t in Extending(b)(y) ensures x == y {
      MergeInjective(b, x, y);
    }
    FlatMapOnce(rows, Extending(b));
    forall s, t | s in Extend(b, rows) && t in Extend(b, rows) ensures Alike(s, t) {
      ExtendMembers(b, rows, s);
      ExtendMembers(b, rows, t);
      var x :| x in rows && Merge(b, x) == Some(s);
      var y :| y in rows && Merge(b, y) == Some(t);
      MergeAlike(b, x, y);
    }
  }

  lemma MatchRowsAlike(names: set<string>, x: Binding, y: Binding)
    requires MatchRow(names, x) && MatchRow(names, y)
    ensures Alike(x, y)
  {
  }

  lemma OwnMatchesOnce(ctx: Context, pattern: SetPattern, stored: AppearanceSet)
    requires WellFormed(pattern)
    ensures Once(OwnMatches(ctx, pattern, stored)) && AllAlike(OwnMatches(ctx, pattern, stored))
  {
    hide Matches;
    forall x, y | x in OwnMatches(ctx, pattern, stored) && y in OwnMatches(ctx, pattern, stored) ensures Alike(x, y) {
      OwnMatchValues(ctx, pattern, stored, x);
      OwnMatchValues(ctx, pattern, stored, y);
      MatchRowsAlike(StructuralNames(pattern), x, y);
    }
    if !pattern.any && (pattern.open || |pattern.members| == |stored|) && |pattern.members| <= |stored| {
      var rows := VisitedRows(ctx, pattern.members, stored);
      VisitsExactlyTheInducedBindings(ctx, pattern, stored, map[]);
      forall x, y | x in rows && y in rows ensures Alike(x, y) {
        VisitedAlike(ctx, pattern.members, stored, x);
        VisitedAlike(ctx, pattern.members, stored, y);
        MatchRowsAlike(MemberNames(pattern.members, 0), x, y);
      }
      ExtendOnce(SetBinding(pattern, stored), rows);
    }
  }

  lemma VisitedAlike(ctx: Context, members: seq<Member>, stored: AppearanceSet, row: Binding)
    requires row in VisitedRows(ctx, members, stored)
    ensures MatchRow(MemberNames(members, 0), row)
  {
    DistinctMembers(Matches(ctx, members, stored, 0, {}));
    MatchValues(ctx, members, stored, 0, {}, row);
    hide Matches;
  }

  // --------------------------------------------------------------- posits and scans

  /** A posit gives each row of a pattern once. */
  lemma OnPositOnce(ctx: Context, p: PositPattern, q: Posit, b: Binding)
    requires WellFormed(p.appearances)
    ensures Once(OnPosit(ctx, p, q, b))
  {
    OwnMatchesOnce(ctx, p.appearances, q.appearances);
    var matches := OwnMatches(ctx, p.appearances, q.appearances);
    ExtendOnce(b, matches);
    if FieldBinding(p, q).Some? {
      ExtendOnce(FieldBinding(p, q).value, Extend(b, matches));
    }
  }

  lemma StructuralOnce(ctx: Context, p: PositPattern, q: Posit, b: Binding)
    requires WellFormed(p.appearances)
    ensures Once(Structural(ctx, p, b)(q)) && forall m :: m in Structural(ctx, p, b)(q) ==> m.posit == q
    ensures forall m, n :: m in Structural(ctx, p, b)(q) && n in Structural(ctx, p, b)(q) ==> Alike(m.binding, n.binding)
  {
    OwnMatchesOnce(ctx, p.appearances, q.appearances);
    var rows := Extend(b, OwnMatches(ctx, p.appearances, q.appearances));
    ExtendOnce(b, OwnMatches(ctx, p.appearances, q.appearances));
    FlatMapOnce(rows, Tagging(q));
    forall m | m in Tag(q, rows) ensures m.posit == q && m.binding in rows {
      FlatMapMembers(rows, Tagging(q), m);
    }
  }

  /** Matches of one posit see the same of their names as posits. */
  ghost predicate PositsAlike(rows: seq<StructuralMatch>) {
    forall m, n :: m in rows && n in rows && m.posit == n.posit ==> Alike(m.binding, n.binding)
  }

  lemma StructuralRowsOnce(ctx: Context, p: PositPattern, posits: seq<Posit>, cut: Option<Time>, b: Binding)
    requires WellFormed(p.appearances) && Once(posits)
    ensures Once(StructuralRows(ctx, p, posits, cut, b)) && PositsAlike(StructuralRows(ctx, p, posits, cut, b))
  {
    var kept := Keep(posits, Within(cut));
    KeepOnce(posits, Within(cut));
    hide Within;
    forall q | q in kept ensures Once(Structural(ctx, p, b)(q)) && forall m :: m in Structural(ctx, p, b)(q) ==> m.posit == q {
      StructuralOnce(ctx, p, q, b);
    }
    var f := Structural(ctx, p, b);
    var rows := StructuralRows(ctx, p, posits, cut, b);
    hide Structural;
    FlatMapOnce(kept, f);
    forall m, n | m in rows && n in rows && m.posit == n.posit ensures Alike(m.binding, n.binding) {
      FlatMapMembers(kept, f, m);
      FlatMapMembers(kept, f, n);
      StructuralOnce(ctx, p, m.posit, b);
    }
  }

  lemma FieldRowsOnce(p: PositPattern, rows: seq<StructuralMatch>)
    requires Once(rows) && PositsAlike(rows)
    ensures Once(FieldRows(p, rows))
  {
    hide FieldBinding;
    hide Merge;
    forall m, n, t | m in rows && n in rows && t in Fielding(p)(m) && t in Fielding(p)(n) ensures m == n {
      var f := FieldBinding(p, m.posit).value;
      MergeCommutes(f, m.binding);
      MergeCommutes(f, n.binding);
      MergeInjective(f, m.binding, n.binding);
    }
    FlatMapOnce(rows, Fielding(p));
  }

  lemma ReducedOnce(rows: seq<StructuralMatch>)
    requires Once(rows)
    ensures Once(Reduced(rows)) && (PositsAlike(rows) ==> PositsAlike(Reduced(rows)))
  {
    Effect.MaximalAmongFirstKeeps(rows, SetOf, TimeOf, |rows|);
    assert rows[..|rows|] == rows;
    KeepOnce(rows, Effect.Undominated(rows, SetOf, TimeOf));
  }

  /** Whichever way a pattern reads, it selects each posit and binding once. */
  lemma SelectedOnce(ctx: Context, p: PositPattern, posits: seq<Posit>, cut: Option<Time>, b: Binding)
    requires WellFormed(p.appearances) && Once(posits)
    ensures Once(SelectedRows(ctx, p, posits, cut, b))
  {
    var rows := StructuralRows(ctx, p, posits, cut, b);
    StructuralRowsOnce(ctx, p, posits, cut, b);
    hide StructuralRows;
    hide FieldRows;
    hide Reduced;
    ReducedOnce(rows);
    FieldRowsOnce(p, rows);
    if cut.Some? && !p.latest {
      FieldRowsOnce(p, Reduced(rows));
    } else if cut.Some? {
      ReducedOnce(FieldRows(p, rows));
    }
  }

  lemma AllPositsOnce(s: Snapshot)
    requires Closed(s)
    ensures Once(AllPosits(s))
  {
    var (ids, posits) := (SortedOf(s.posits.Keys), AllPosits(s));
    SortedAscends(s.posits.Keys);
    forall i, j | 0 <= i < j < |posits| ensures posits[i] != posits[j] {
      assert ids[i] in ids && ids[j] in ids;
      assert posits[i].id == ids[i] && posits[j].id == ids[j];
    }
  }

  // ----------------------------------------------------------------- how many rows

  /** The elements that lead to a result. */
  ghost function LeadingTo<S(!new), T(!new)>(xs: seq<S>, f: S -> seq<T>, t: T): set<S> {
    set x | x in xs && t in f(x)
  }

  lemma {:induction false} CountOnce<T(!new)>(xs: seq<T>, x: T)
    requires Once(xs)
    ensures multiset(xs)[x] == if x in xs then 1 else 0
  {
    if xs != [] {
      OncePart(xs, |xs| - 1);
      CountOnce(xs[..|xs| - 1], x);
      assert xs == xs[..|xs| - 1] + [xs[|xs| - 1]];
    }
  }

  /** A result occurs as often as there are elements leading to it. */
  lemma {:induction false} FlatMapCount<S(!new), T(!new)>(xs: seq<S>, f: S -> seq<T>, t: T)
    requires Once(xs) && forall x :: x in xs ==> Once(f(x))
    ensures multiset(FlatMap(xs, f))[t] == |LeadingTo(xs, f, t)|
  {
    if xs == [] {
      assert LeadingTo(xs, f, t) == {};
    } else {
      var (init, last) := (xs[..|xs| - 1], xs[|xs| - 1]);
      OncePart(xs, |xs| - 1);
      FlatMapCount(init, f, t);
      CountOnce(f(last), t);
      LeadingOneMore(init, last, f, t);
      assert xs == init + [last];
      hide LeadingTo;
      hide Once;
    }
  }

  lemma LeadingOneMore<S(!new), T(!new)>(xs: seq<S>, x: S, f: S -> seq<T>, t: T)
    requires x !in xs
    ensures |LeadingTo(xs + [x], f, t)| == |LeadingTo(xs, f, t)| + if t in f(x) then 1 else 0
  {
    assert LeadingTo(xs + [x], f, t) == LeadingTo(xs, f, t) + if t in f(x) then {x} else {};
  }

  /** A plain or as-of pattern answers a row as often as there are posits in its snapshot that give it. */
  lemma ScanRowsCount(s: Snapshot, p: PositPattern, cut: Option<Time>, input: Binding, row: Binding)
    requires Closed(s) && WellFormed(p.appearances) && (cut.None? || !p.latest)
    ensures var (ctx, posits) := (Context(s.roleNames, input), SnapshotPosits(p, AllPosits(s), cut));
            multiset(ScanRelation(ctx, p, AllPosits(s), cut, input))[row] == |LeadingTo(posits, OnPosits(ctx, p, input), row)|
  {
    var (ctx, b) := (Context(s.roleNames, input), StructuralInput(p, input));
    var posits := SnapshotPosits(p, AllPosits(s), cut);
    AllPositsOnce(s);
    SnapshotOnce(p, AllPosits(s), cut);
    ScanBeforeFields(ctx, p, AllPosits(s), cut, b);
    StructuralInputAbsorbs(p, input);
    ExtendOnPosits(ctx, p, posits, input, b);
    forall q | q in posits ensures Once(OnPosits(ctx, p, input)(q)) {
      OnPositOnce(ctx, p, q, input);
    }
    hide OnPosit;
    hide SnapshotPosits;
    hide SelectedRows;
    FlatMapCount(posits, OnPosits(ctx, p, input), row);
  }

  lemma SnapshotOnce(p: PositPattern, posits: seq<Posit>, cut: Option<Time>)
    requires Once(posits)
    ensures Once(SnapshotPosits(p, posits, cut))
  {
    KeepOnce(posits, Within(cut));
    var kept := Keep(posits, Within(cut));
    KeepOnce(kept, NotSucceeded(kept));
  }
}
