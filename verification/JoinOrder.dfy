/**
 Join-order independence.  The relation of a pattern under an input is the natural
 join of the input with the pattern's own relation, computed from its dependencies
 alone; so every dependency-respecting order of a branch gives the same bag.
 */
module JoinOrder {
  import opened Prelude
  import opened Sequences
  import opened Times
  import opened Constructs
  import opened Effect
  import opened Bindings
  import opened Matching
  import opened Patterns

  // ------------------------------------------------- the input a pattern owns

  /** The identity behind a value, forgetting whether it was seen as a posit. */
  function Demote(v: BoundValue): BoundValue {
    if v.PositValue? then ThingValue(v.id) else v
  }

  /** The dependencies of a pattern, as an input binds them. */
  function OwnInput(p: PositPattern, input: Binding): Binding {
    map n | n in input && n in Dependencies(p) :: Demote(input[n])
  }

  lemma OwnInputAbsorbed(p: PositPattern, input: Binding)
    ensures Absorbs(input, OwnInput(p, input))
  {
    AbsorbsMeans(input, OwnInput(p, input));
  }

  /** Two bindings recall the same identity for every one-of name. */
  ghost predicate SameRecall(names: set<string>, a: Binding, b: Binding) {
    forall n :: n in names ==> (n in a <==> n in b) && (n in a ==> Demote(a[n]) == Demote(b[n]))
  }

  lemma RecallsSame(names: seq<string>, a: Binding, b: Binding, thing: Thing)
    requires forall i :: 0 <= i < |names| ==> (names[i] in a <==> names[i] in b) && (names[i] in a ==> Demote(a[names[i]]) == Demote(b[names[i]]))
    ensures Recalls(names, a, thing) == Recalls(names, b, thing)
  {
  }

  lemma ContributionSame(roleNames: map<Thing, string>, member: Member, stored: Appearance, a: Binding, b: Binding)
    requires SameRecall(OneOfNames([member]), a, b)
    ensures Contribution(Context(roleNames, a), member, stored) == Contribution(Context(roleNames, b), member, stored)
  {
    if member.thing.OneOf? {
      forall i | 0 <= i < |member.thing.names| ensures member.thing.names[i] in OneOfNames([member]) {
        assert [member][0] in [member];
      }
      RecallsSame(member.thing.names, a, b, stored.thing);
    }
  }

  lemma MemberRecall(members: seq<Member>, index: nat, a: Binding, b: Binding)
    requires index < |members| && SameRecall(OneOfNames(members), a, b)
    ensures SameRecall(OneOfNames([members[index]]), a, b)
  {
    forall n | n in OneOfNames([members[index]]) ensures n in OneOfNames(members) {
      var m, i :| m in [members[index]] && m.thing.OneOf? && 0 <= i < |m.thing.names| && m.thing.names[i] == n;
      assert m in members;
    }
  }

  lemma {:induction false} MatchesSame(roleNames: map<Thing, string>, members: seq<Member>, stored: AppearanceSet, index: nat, used: set<nat>, a: Binding, b: Binding)
    requires index <= |members| && SameRecall(OneOfNames(members), a, b)
    ensures Matches(Context(roleNames, a), members, stored, index, used) == Matches(Context(roleNames, b), members, stored, index, used)
    decreases |members| - index, |stored| + 1
  {
    if index < |members| {
      MatchesFromSame(roleNames, members, stored, index, used, 0, a, b);
    }
  }

  lemma {:induction false} MatchesFromSame(roleNames: map<Thing, string>, members: seq<Member>, stored: AppearanceSet, index: nat, used: set<nat>, from: nat, a: Binding, b: Binding)
    requires index < |members| && from <= |stored| && SameRecall(OneOfNames(members), a, b)
    ensures MatchesFrom(Context(roleNames, a), members, stored, index, used, from) == MatchesFrom(Context(roleNames, b), members, stored, index, used, from)
    decreases |members| - index, |stored| - from
  {
    hide Contribution;
    hide SameRecall;
    hide FlatMap;
    if from < |stored| {
      MatchesFromSame(roleNames, members, stored, index, used, from + 1, a, b);
      MatchesSame(roleNames, members, stored, index + 1, used + {from}, a, b);
      MemberRecall(members, index, a, b);
      ContributionSame(roleNames, members[index], stored[from], a, b);
    }
  }

  lemma OwnMatchesSame(roleNames: map<Thing, string>, pattern: SetPattern, stored: AppearanceSet, a: Binding, b: Binding)
    requires SameRecall(OneOfNames(pattern.members), a, b)
    ensures OwnMatches(Context(roleNames, a), pattern, stored) == OwnMatches(Context(roleNames, b), pattern, stored)
  {
    MatchesSame(roleNames, pattern.members, stored, 0, {}, a, b);
  }

  lemma OnPositSame(roleNames: map<Thing, string>, p: PositPattern, q: Posit, a: Binding, b: Binding, x: Binding)
    requires SameRecall(OneOfNames(p.appearances.members), a, b)
    ensures OnPosit(Context(roleNames, a), p, q, x) == OnPosit(Context(roleNames, b), p, q, x)
  {
    OwnMatchesSame(roleNames, p.appearances, q.appearances, a, b);
  }

  lemma OwnInputRecalls(p: PositPattern, input: Binding, names: set<string>)
    requires names <= Dependencies(p)
    ensures SameRecall(names, input, OwnInput(p, input))
  {
  }

  // ------------------------------------------------- reduction by whole posits

  /** No posit of the same appearance set is definitely later. */
  ghost function NotSucceeded(posits: seq<Posit>): Posit -> bool {
    (q: Posit) => forall other :: other in posits && other.appearances == q.appearances ==> !DefinitelyBefore(q.time, other.time)
  }

  ghost function CurrentPosits(posits: seq<Posit>): seq<Posit> {
    Keep(posits, NotSucceeded(posits))
  }

  ghost predicate TagsItself(posits: seq<Posit>, g: Posit -> seq<StructuralMatch>) {
    forall q, row :: q in posits && row in g(q) ==> row.posit == q
  }

  /** Posits of one appearance set have rows together or not at all. */
  ghost predicate SetsTogether(posits: seq<Posit>, g: Posit -> seq<StructuralMatch>) {
    forall q, other :: q in posits && other in posits && q.appearances == other.appearances && g(q) != [] ==> g(other) != []
  }

  function PositHas(p: Posit -> bool): StructuralMatch -> bool {
    (row: StructuralMatch) => p(row.posit)
  }

  lemma {:induction false} KeepByPosit(posits: seq<Posit>, g: Posit -> seq<StructuralMatch>, p: Posit -> bool)
    requires TagsItself(posits, g)
    ensures Keep(FlatMap(posits, g), PositHas(p)) == FlatMap(Keep(posits, p), g)
  {
    if posits != [] {
      var front, last := posits[..|posits| - 1], posits[|posits| - 1];
      assert posits == front + [last];
      KeepByPosit(front, g, p);
      KeepConcat(FlatMap(front, g), g(last), PositHas(p));
      if p(last) {
        KeepAll(g(last), PositHas(p));
        FlatMapSnoc(Keep(front, p), last, g);
      } else {
        KeepNone(g(last), PositHas(p));
        assert Keep(front, p) + [] == Keep(front, p);
      }
    }
  }

  lemma {:induction false} KeepConcat<T(!new)>(xs: seq<T>, ys: seq<T>, p: T -> bool)
    ensures Keep(xs + ys, p) == Keep(xs, p) + Keep(ys, p)
  {
    if ys == [] {
      assert xs + ys == xs;
    } else {
      KeepConcat(xs, ys[..|ys| - 1], p);
      assert (xs + ys)[..|xs + ys| - 1] == xs + ys[..|ys| - 1];
    }
  }

  lemma {:induction false} KeepNone<T(!new)>(xs: seq<T>, p: T -> bool)
    requires forall x :: x in xs ==> !p(x)
    ensures Keep(xs, p) == []
  {
    if xs != [] {
      KeepNone(xs[..|xs| - 1], p);
    }
  }

  /**
   When the rows of a set's posits come together, reducing rows is reducing posits:
   the reduction cannot depend on which bindings an outer pattern admitted.
   */
  lemma ReduceByPosit(posits: seq<Posit>, g: Posit -> seq<StructuralMatch>)
    requires TagsItself(posits, g) && SetsTogether(posits, g)
    ensures Reduced(FlatMap(posits, g)) == FlatMap(CurrentPosits(posits), g)
  {
    var rows := FlatMap(posits, g);
    MaximalKeeps(rows, SetOf, TimeOf);
    forall row | row in rows
      ensures Undominated(rows, SetOf, TimeOf)(row) == PositHas(NotSucceeded(posits))(row)
    {
      UndominatedByPosit(posits, g, row);
    }
    KeepAgree(rows, Undominated(rows, SetOf, TimeOf), PositHas(NotSucceeded(posits)));
    KeepByPosit(posits, g, NotSucceeded(posits));
  }

  lemma UndominatedByPosit(posits: seq<Posit>, g: Posit -> seq<StructuralMatch>, row: StructuralMatch)
    requires TagsItself(posits, g) && SetsTogether(posits, g) && row in FlatMap(posits, g)
    ensures Undominated(FlatMap(posits, g), SetOf, TimeOf)(row) == NotSucceeded(posits)(row.posit)
  {
    var rows := FlatMap(posits, g);
    FlatMapMembers(posits, g, row);
    var q :| q in posits && row in g(q);
    if Undominated(rows, SetOf, TimeOf)(row) {
      forall other | other in posits && other.appearances == row.posit.appearances
        ensures !DefinitelyBefore(row.posit.time, other.time)
      {
        assert g(other) != [];
        var later := g(other)[0];
        assert later in g(other);
        FlatMapMembers(posits, g, later);
      }
    } else {
      var later :| later in rows && SetOf(later) == SetOf(row) && DefinitelyBefore(TimeOf(row), TimeOf(later));
      FlatMapMembers(posits, g, later);
      var other :| other in posits && later in g(other);
    }
  }

  // ----------------------------------------------- from rows back to bindings

  ghost function Fielded(ctx: Context, p: PositPattern, b: Binding): Posit -> seq<StructuralMatch> {
    (q: Posit) => Tag(q, OnPosit(ctx, p, q, b))
  }

  ghost function OnPosits(ctx: Context, p: PositPattern, b: Binding): Posit -> seq<Binding> {
    (q: Posit) => OnPosit(ctx, p, q, b)
  }

  lemma {:induction false} TagBindings(q: Posit, xs: seq<Binding>)
    ensures FlatMap(Tag(q, xs), BindingOf) == xs
    ensures forall row :: row in Tag(q, xs) ==> row.posit == q
    ensures Tag(q, xs) == [] <==> xs == []
  {
    if xs != [] {
      TagBindings(q, xs[..|xs| - 1]);
      FlatMapSnoc(Tag(q, xs[..|xs| - 1]), StructuralMatch(q, xs[|xs| - 1]), BindingOf);
    }
  }

  lemma {:induction false} TagFields(p: PositPattern, q: Posit, xs: seq<Binding>)
    ensures FlatMap(Tag(q, xs), Fielding(p)) == Tag(q, ExtendOption(FieldBinding(p, q), xs))
  {
    hide FieldBinding;
    if xs != [] {
      var front, last := xs[..|xs| - 1], xs[|xs| - 1];
      TagFields(p, q, front);
      FlatMapSnoc(Tag(q, front), StructuralMatch(q, last), Fielding(p));
      if FieldBinding(p, q).Some? {
        var f := FieldBinding(p, q).value;
        MergeCommutes(f, last);
        FlatMapConcat(Extend(f, front), Emit(Merge(f, last)), Tagging(q));
        FlatMapEmit(Merge(f, last), Tagging(q));
      }
    }
  }

  /** Fields applied to structural rows, posit by posit. */
  lemma FieldRowsByPosit(ctx: Context, p: PositPattern, posits: seq<Posit>, b: Binding)
    ensures FieldRows(p, FlatMap(posits, Structural(ctx, p, b))) == FlatMap(posits, Fielded(ctx, p, b))
  {
    FlatMapFlatMap(posits, Structural(ctx, p, b), Fielding(p));
    forall q | q in posits ensures Then(Structural(ctx, p, b), Fielding(p))(q) == Fielded(ctx, p, b)(q) {
      TagFields(p, q, Extend(b, OwnMatches(ctx, p.appearances, q.appearances)));
    }
    FlatMapAgree(posits, Then(Structural(ctx, p, b), Fielding(p)), Fielded(ctx, p, b));
  }

  lemma FieldedBindings(ctx: Context, p: PositPattern, posits: seq<Posit>, b: Binding)
    ensures FlatMap(FlatMap(posits, Fielded(ctx, p, b)), BindingOf) == FlatMap(posits, OnPosits(ctx, p, b))
    ensures TagsItself(posits, Fielded(ctx, p, b)) && TagsItself(posits, Structural(ctx, p, b))
  {
    FlatMapFlatMap(posits, Fielded(ctx, p, b), BindingOf);
    forall q | q in posits
      ensures Then(Fielded(ctx, p, b), BindingOf)(q) == OnPosits(ctx, p, b)(q)
      ensures forall row :: row in Fielded(ctx, p, b)(q) ==> row.posit == q
      ensures forall row :: row in Structural(ctx, p, b)(q) ==> row.posit == q
    {
      TagBindings(q, OnPosit(ctx, p, q, b));
      TagBindings(q, Extend(b, OwnMatches(ctx, p.appearances, q.appearances)));
    }
    FlatMapAgree(posits, Then(Fielded(ctx, p, b), BindingOf), OnPosits(ctx, p, b));
  }

  /** Joining an input absorbs whatever part of it the matching already saw. */
  lemma ExtendOnPosits(ctx: Context, p: PositPattern, posits: seq<Posit>, input: Binding, b: Binding)
    requires Absorbs(input, b)
    ensures Extend(input, FlatMap(posits, OnPosits(ctx, p, b))) == FlatMap(posits, OnPosits(ctx, p, input))
  {
    FlatMapFlatMap(posits, OnPosits(ctx, p, b), Extending(input));
    forall q | q in posits ensures Then(OnPosits(ctx, p, b), Extending(input))(q) == OnPosits(ctx, p, input)(q) {
      ExtendOnPosit(ctx, p, q, input, b);
    }
    FlatMapAgree(posits, Then(OnPosits(ctx, p, b), Extending(input)), OnPosits(ctx, p, input));
  }

  lemma ExtendOnPosit(ctx: Context, p: PositPattern, q: Posit, input: Binding, b: Binding)
    requires Absorbs(input, b)
    ensures Extend(input, OnPosit(ctx, p, q, b)) == OnPosit(ctx, p, q, input)
  {
    var own := OwnMatches(ctx, p.appearances, q.appearances);
    if FieldBinding(p, q).Some? {
      ExtendCommutes(input, FieldBinding(p, q).value, Extend(b, own));
      ExtendAbsorbed(input, b, own);
    }
  }

  // --------------------------------------------------- plain and as-of patterns

  /** The posits a pattern reads once the temporal snapshot is taken, when the fields play no part in it. */
  ghost function SnapshotPosits(p: PositPattern, posits: seq<Posit>, cut: Option<Time>): seq<Posit> {
    if cut.None? then Keep(posits, Within(cut)) else CurrentPosits(Keep(posits, Within(cut)))
  }

  lemma StructuralTogether(ctx: Context, p: PositPattern, posits: seq<Posit>, b: Binding)
    ensures SetsTogether(posits, Structural(ctx, p, b))
  {
    forall q, other | q in posits && other in posits && q.appearances == other.appearances && Structural(ctx, p, b)(q) != []
      ensures Structural(ctx, p, b)(other) != []
    {
      TagBindings(q, Extend(b, OwnMatches(ctx, p.appearances, q.appearances)));
      TagBindings(other, Extend(b, OwnMatches(ctx, p.appearances, other.appearances)));
    }
  }

  lemma ScanBeforeFields(ctx: Context, p: PositPattern, posits: seq<Posit>, cut: Option<Time>, b: Binding)
    requires cut.None? || !p.latest
    ensures FlatMap(SelectedRows(ctx, p, posits, cut, b), BindingOf) == FlatMap(SnapshotPosits(p, posits, cut), OnPosits(ctx, p, b))
  {
    var eligible := Keep(posits, Within(cut));
    FieldedBindings(ctx, p, eligible, b);
    if cut.Some? {
      StructuralTogether(ctx, p, eligible, b);
      ReduceByPosit(eligible, Structural(ctx, p, b));
    }
    FieldRowsByPosit(ctx, p, SnapshotPosits(p, posits, cut), b);
    FieldedBindings(ctx, p, SnapshotPosits(p, posits, cut), b);
  }

  // ------------------------------------------------------------ latest patterns

  /** Field variables are dependencies or stay out of structural matching. */
  predicate FieldsApart(p: PositPattern) {
    FieldNames(p) * StructuralNames(p.appearances) <= Dependencies(p)
  }

  ghost function Fitting(p: PositPattern, own: Binding): Posit -> bool {
    (q: Posit) => Join(Some(own), FieldBinding(p, q)).Some?
  }

  /** As far as the fields can tell, `b` says just what the dependencies say. */
  ghost predicate Trimmed(p: PositPattern, own: Binding, b: Binding) {
    forall n :: n in FieldNames(p) ==> (n in b <==> n in own) && (n in b ==> Demote(b[n]) == Demote(own[n]))
  }

  lemma FieldBindingNames(p: PositPattern, q: Posit)
    ensures FieldBinding(p, q).Some? ==> FieldBinding(p, q).value.Keys == FieldNames(p)
  {
  }

  lemma JoinableTrimmed(p: PositPattern, own: Binding, b: Binding, f: Binding)
    requires Trimmed(p, own, b) && f.Keys == FieldNames(p)
    ensures Joinable(b, f) <==> Joinable(own, f)
  {
  }

  lemma OwnMatchNames(ctx: Context, pattern: SetPattern, stored: AppearanceSet, row: Binding)
    requires row in OwnMatches(ctx, pattern, stored)
    ensures row.Keys <= StructuralNames(pattern)
  {
    if !pattern.any {
      var own, rows := SetBinding(pattern, stored), VisitedRows(ctx, pattern.members, stored);
      ExtendMembers(own, rows, row);
      var m :| m in rows && Merge(own, m) == Some(row);
      MatchesOver(ctx, pattern.members, stored, 0, {});
      DistinctMembers(Matches(ctx, pattern.members, stored, 0, {}));
      assert RowOver(MemberNames(pattern.members, 0), m);
    }
  }

  lemma MatchTrimmed(p: PositPattern, own: Binding, b: Binding, m: Binding, x: Binding)
    requires FieldsApart(p) && own.Keys == Dependencies(p) && Trimmed(p, own, b)
    requires m.Keys <= StructuralNames(p.appearances) && Merge(b, m) == Some(x)
    ensures Trimmed(p, own, x)
  {
    forall n | n in FieldNames(p) ensures (n in x <==> n in own) && (n in x ==> Demote(x[n]) == Demote(own[n])) {
      if n in m {
        assert n in FieldNames(p) * StructuralNames(p.appearances);
        assert n in b && Compatible(b[n], m[n]);
      }
    }
  }

  lemma MatchFitsFields(ctx: Context, p: PositPattern, own: Binding, b: Binding, q: Posit, x: Binding, f: Binding)
    requires FieldsApart(p) && own.Keys == Dependencies(p) && Trimmed(p, own, b) && f.Keys == FieldNames(p)
    requires x in Extend(b, OwnMatches(ctx, p.appearances, q.appearances))
    ensures Merge(f, x).Some? <==> Joinable(own, f)
  {
    hide OwnMatches;
    hide FlatMap;
    var matches := OwnMatches(ctx, p.appearances, q.appearances);
    ExtendMembers(b, matches, x);
    var m :| m in matches && Merge(b, m) == Some(x);
    OwnMatchNames(ctx, p.appearances, q.appearances, m);
    MatchTrimmed(p, own, b, m, x);
    JoinableTrimmed(p, own, x, f);
    MergeCommutes(f, x);
  }

  lemma ExtendNonempty(f: Binding, xs: seq<Binding>)
    ensures Extend(f, xs) != [] <==> exists x :: x in xs && Merge(f, x).Some?
  {
    if Extend(f, xs) != [] {
      var y := Extend(f, xs)[0];
      ExtendMembers(f, xs, y);
    }
    if exists x :: x in xs && Merge(f, x).Some? {
      var x :| x in xs && Merge(f, x).Some?;
      ExtendMembers(f, xs, Merge(f, x).value);
    }
  }

  /** With the fields apart, a posit has rows exactly when its set matches and its own fields fit the dependencies. */
  lemma OnPositNonempty(ctx: Context, p: PositPattern, own: Binding, b: Binding, q: Posit)
    requires FieldsApart(p) && own.Keys == Dependencies(p) && Trimmed(p, own, b)
    ensures OnPosit(ctx, p, q, b) != [] <==>
            Extend(b, OwnMatches(ctx, p.appearances, q.appearances)) != [] && Fitting(p, own)(q)
  {
    hide FieldBinding;
    hide OwnMatches;
    hide FlatMap;
    hide Joinable;
    hide Trimmed;
    hide FieldsApart;
    var xs := Extend(b, OwnMatches(ctx, p.appearances, q.appearances));
    if FieldBinding(p, q).Some? {
      var f := FieldBinding(p, q).value;
      FieldBindingNames(p, q);
      ExtendNonempty(f, xs);
      forall x | x in xs ensures Merge(f, x).Some? <==> Joinable(own, f) {
        MatchFitsFields(ctx, p, own, b, q, x, f);
      }
      if xs != [] {
        assert xs[0] in xs;
      }
    }
  }

  lemma ScanAfterFields(ctx: Context, p: PositPattern, posits: seq<Posit>, cut: Option<Time>, own: Binding, b: Binding)
    requires cut.Some? && p.latest && FieldsApart(p) && own.Keys == Dependencies(p) && Trimmed(p, own, b)
    ensures FlatMap(SelectedRows(ctx, p, posits, cut, b), BindingOf)
            == FlatMap(CurrentPosits(Keep(Keep(posits, Within(cut)), Fitting(p, own))), OnPosits(ctx, p, b))
  {
    var eligible := Keep(posits, Within(cut));
    var fitting := Keep(eligible, Fitting(p, own));
    var g := Fielded(ctx, p, b);
    FieldRowsByPosit(ctx, p, eligible, b);
    forall q ensures g(q) != [] <==> Extend(b, OwnMatches(ctx, p.appearances, q.appearances)) != [] && Fitting(p, own)(q) {
      OnPositNonempty(ctx, p, own, b, q);
      TagBindings(q, OnPosit(ctx, p, q, b));
    }
    FlatMapKeep(eligible, Fitting(p, own), g);
    FieldedBindings(ctx, p, fitting, b);
    forall q ensures q in fitting <==> q in eligible && Fitting(p, own)(q) {
      KeepMembers(eligible, Fitting(p, own), q);
    }
    assert SetsTogether(fitting, g);
    ReduceByPosit(fitting, g);
    FieldedBindings(ctx, p, CurrentPosits(fitting), b);
  }

  /** The rows of a latest pattern before its reduction. */
  ghost function CandidateRows(ctx: Context, p: PositPattern, posits: seq<Posit>, cut: Option<Time>, b: Binding): seq<StructuralMatch> {
    FieldRows(p, StructuralRows(ctx, p, posits, cut, b))
  }

  /** The reduction of a latest pattern's own rows drops none of them. */
  ghost predicate NothingDropped(ctx: Context, p: PositPattern, posits: seq<Posit>, cut: Option<Time>, own: Binding) {
    var rows := CandidateRows(ctx, p, posits, cut, own);
    Reduced(rows) == rows
  }

  lemma KeptUnchanged<T(!new)>(xs: seq<T>, p: T -> bool)
    ensures Keep(xs, p) == xs <==> forall x :: x in xs ==> p(x)
  {
    if Keep(xs, p) == xs {
      forall x | x in xs ensures p(x) {
        KeepMembers(xs, p, x);
      }
    } else if forall x :: x in xs ==> p(x) {
      KeepAll(xs, p);
    }
  }

  /** Some posit of the same set with rows of its own is definitely later than `q`. */
  ghost predicate Superseded(ctx: Context, p: PositPattern, eligible: seq<Posit>, b: Binding, q: Posit) {
    exists other :: other in eligible && other.appearances == q.appearances && OnPosit(ctx, p, other, b) != []
                    && DefinitelyBefore(q.time, other.time)
  }

  lemma CandidateRowsByPosit(ctx: Context, p: PositPattern, posits: seq<Posit>, cut: Option<Time>, b: Binding)
    ensures var eligible := Keep(posits, Within(cut));
            CandidateRows(ctx, p, posits, cut, b) == FlatMap(eligible, Fielded(ctx, p, b))
    ensures forall row :: row in CandidateRows(ctx, p, posits, cut, b) <==>
                          row.posit in Keep(posits, Within(cut)) && row.binding in OnPosit(ctx, p, row.posit, b)
  {
    var eligible := Keep(posits, Within(cut));
    FieldRowsByPosit(ctx, p, eligible, b);
    hide FlatMap;
    hide OnPosit;
    hide Keep;
    forall row: StructuralMatch
      ensures row in CandidateRows(ctx, p, posits, cut, b) <==> row.posit in eligible && row.binding in OnPosit(ctx, p, row.posit, b)
    {
      FlatMapMembers(eligible, Fielded(ctx, p, b), row);
      forall q ensures row in Fielded(ctx, p, b)(q) <==> q == row.posit && row.binding in OnPosit(ctx, p, q, b) {
        FlatMapMembers(OnPosit(ctx, p, q, b), Tagging(q), row);
      }
    }
  }

  /** Reducing a latest pattern's rows keeps exactly the rows of posits that are not superseded. */
  lemma ReducedCandidates(ctx: Context, p: PositPattern, posits: seq<Posit>, cut: Option<Time>, b: Binding)
    ensures var rows := CandidateRows(ctx, p, posits, cut, b);
            var eligible := Keep(posits, Within(cut));
            && (forall row :: row in Reduced(rows) <==> row in rows && !Superseded(ctx, p, eligible, b, row.posit))
            && (NothingDropped(ctx, p, posits, cut, b) <==> forall row :: row in rows ==> !Superseded(ctx, p, eligible, b, row.posit))
  {
    hide OnPosit;
    hide FlatMap;
    hide DefinitelyBefore;
    var rows := CandidateRows(ctx, p, posits, cut, b);
    var eligible := Keep(posits, Within(cut));
    CandidateRowsByPosit(ctx, p, posits, cut, b);
    hide CandidateRows;
    MaximalKeeps(rows, SetOf, TimeOf);
    hide Keep;
    forall row | row in rows ensures Undominated(rows, SetOf, TimeOf)(row) <==> !Superseded(ctx, p, eligible, b, row.posit) {
      if Superseded(ctx, p, eligible, b, row.posit) {
        var other :| other in eligible && other.appearances == row.posit.appearances && OnPosit(ctx, p, other, b) != []
                     && DefinitelyBefore(row.posit.time, other.time);
        var later := StructuralMatch(other, OnPosit(ctx, p, other, b)[0]);
        assert later in rows;
      }
    }
    forall row ensures row in Reduced(rows) <==> row in rows && !Superseded(ctx, p, eligible, b, row.posit) {
      KeepMembers(rows, Undominated(rows, SetOf, TimeOf), row);
    }
    KeptUnchanged(rows, Undominated(rows, SetOf, TimeOf));
  }

  lemma OwnRowsRemain(ctx: Context, p: PositPattern, q: Posit, own: Binding, b: Binding)
    requires Absorbs(b, own)
    ensures OnPosit(ctx, p, q, b) != [] ==> OnPosit(ctx, p, q, own) != []
  {
    hide OnPosit;
    hide Absorbs;
    ExtendOnPosit(ctx, p, q, b, own);
    assert Extend(b, []) == [];
  }

  /** An outer binding only removes rows: what nothing drops without it, nothing drops with it. */
  lemma NothingDroppedWithInput(ctx: Context, p: PositPattern, posits: seq<Posit>, cut: Option<Time>, own: Binding, b: Binding)
    requires NothingDropped(ctx, p, posits, cut, own) && Absorbs(b, own)
    ensures NothingDropped(ctx, p, posits, cut, b)
  {
    hide OnPosit;
    hide FlatMap;
    hide CandidateRows;
    hide NothingDropped;
    hide Keep;
    hide DefinitelyBefore;
    hide Absorbs;
    var eligible := Keep(posits, Within(cut));
    CandidateRowsByPosit(ctx, p, posits, cut, own);
    CandidateRowsByPosit(ctx, p, posits, cut, b);
    ReducedCandidates(ctx, p, posits, cut, own);
    ReducedCandidates(ctx, p, posits, cut, b);
    forall q ensures OnPosit(ctx, p, q, b) != [] ==> OnPosit(ctx, p, q, own) != [] {
      OwnRowsRemain(ctx, p, q, own, b);
    }
    forall row | row in CandidateRows(ctx, p, posits, cut, b) ensures !Superseded(ctx, p, eligible, b, row.posit) {
      var mine := StructuralMatch(row.posit, OnPosit(ctx, p, row.posit, own)[0]);
      assert mine in CandidateRows(ctx, p, posits, cut, own);
    }
  }

  // ------------------------------------------------- where a selected row comes from

  lemma FieldRowsWithin(p: PositPattern, some: seq<StructuralMatch>, all: seq<StructuralMatch>)
    requires forall row :: row in some ==> row in all
    ensures forall row :: row in FieldRows(p, some) ==> row in FieldRows(p, all)
  {
    hide FlatMap;
    forall row | row in FieldRows(p, some) ensures row in FieldRows(p, all) {
      FlatMapMembers(some, Fielding(p), row);
      FlatMapMembers(all, Fielding(p), row);
    }
  }

  lemma ReducedWithin(rows: seq<StructuralMatch>)
    ensures forall row :: row in Reduced(rows) ==> row in rows
  {
    MaximalKeeps(rows, SetOf, TimeOf);
    forall row | row in Reduced(rows) ensures row in rows {
      KeepMembers(rows, Undominated(rows, SetOf, TimeOf), row);
    }
  }

  /** Whatever a reduction keeps, a selected row is one of its posit's own rows. */
  lemma SelectedFrom(ctx: Context, p: PositPattern, posits: seq<Posit>, cut: Option<Time>, b: Binding, row: StructuralMatch)
    requires row in SelectedRows(ctx, p, posits, cut, b)
    ensures row.posit in posits && row.binding in OnPosit(ctx, p, row.posit, b)
  {
    hide OnPosit;
    hide Reduced;
    var structural := StructuralRows(ctx, p, posits, cut, b);
    ReducedWithin(structural);
    ReducedWithin(FieldRows(p, structural));
    FieldRowsWithin(p, Reduced(structural), structural);
    CandidateRowsByPosit(ctx, p, posits, cut, b);
    KeepMembers(posits, Within(cut), row.posit);
  }

  // ------------------------------------------- a scan joins what it would find alone

  /** When the reduction cannot tell inputs apart, a scan is the join of its input with its own scan. */
  ghost predicate StableScan(ctx: Context, p: PositPattern, posits: seq<Posit>, cut: Option<Time>, own: Binding) {
    cut.Some? && p.latest ==> FieldsApart(p) || NothingDropped(ctx, p, posits, cut, own)
  }

  lemma TrimmedInput(p: PositPattern, input: Binding)
    requires p.cutoff.Some? && FieldsApart(p)
    ensures Trimmed(p, OwnInput(p, input), StructuralInput(p, input))
  {
    forall n | n in FieldNames(p) ensures n in StructuralInput(p, input) <==> n in OwnInput(p, input) {
      assert n in StructuralNames(p.appearances) ==> n in FieldNames(p) * StructuralNames(p.appearances);
    }
  }

  lemma StructuralInputAbsorbs(p: PositPattern, input: Binding)
    ensures Absorbs(input, StructuralInput(p, input))
    ensures Absorbs(StructuralInput(p, input), OwnInput(p, input))
  {
    AbsorbsMeans(input, StructuralInput(p, input));
    AbsorbsMeans(StructuralInput(p, input), OwnInput(p, input));
  }

  lemma OwnInputOfOwn(p: PositPattern, input: Binding)
    ensures OwnInput(p, OwnInput(p, input)) == OwnInput(p, input)
    ensures StructuralInput(p, OwnInput(p, input)) == OwnInput(p, input)
  {
  }

  /** The posits a scan reads, whatever the input beyond the dependencies. */
  ghost function ScannedPosits(ctx: Context, p: PositPattern, posits: seq<Posit>, cut: Option<Time>, own: Binding): seq<Posit> {
    var eligible := Keep(posits, Within(cut));
    if cut.None? then eligible
    else if !p.latest then CurrentPosits(eligible)
    else if FieldsApart(p) then CurrentPosits(Keep(eligible, Fitting(p, own)))
    else eligible
  }

  lemma ScanByPosits(ctx: Context, p: PositPattern, posits: seq<Posit>, cut: Option<Time>, own: Binding, input: Binding)
    requires own == OwnInput(p, input) && own.Keys == Dependencies(p) && (cut.Some? <==> p.cutoff.Some?)
    requires StableScan(ctx, p, posits, cut, own)
    ensures ScanRelation(ctx, p, posits, cut, input) == FlatMap(ScannedPosits(ctx, p, posits, cut, own), OnPosits(ctx, p, input))
  {
    var b := StructuralInput(p, input);
    StructuralInputAbsorbs(p, input);
    if cut.None? || !p.latest {
      ScanBeforeFields(ctx, p, posits, cut, b);
    } else if FieldsApart(p) {
      TrimmedInput(p, input);
      ScanAfterFields(ctx, p, posits, cut, own, b);
    } else {
      NothingDroppedWithInput(ctx, p, posits, cut, own, b);
      CandidateRowsByPosit(ctx, p, posits, cut, b);
      FieldedBindings(ctx, p, Keep(posits, Within(cut)), b);
    }
    ExtendOnPosits(ctx, p, ScannedPosits(ctx, p, posits, cut, own), input, b);
  }

  lemma ScanIsJoin(ctx: Context, p: PositPattern, posits: seq<Posit>, cut: Option<Time>, own: Binding, input: Binding)
    requires own == OwnInput(p, input) && own.Keys == Dependencies(p) && (cut.Some? <==> p.cutoff.Some?)
    requires StableScan(ctx, p, posits, cut, own)
    ensures ScanRelation(ctx, p, posits, cut, input) == Extend(input, ScanRelation(ctx, p, posits, cut, own))
  {
    OwnInputOfOwn(p, input);
    OwnInputAbsorbed(p, input);
    ScanByPosits(ctx, p, posits, cut, own, input);
    ScanByPosits(ctx, p, posits, cut, own, own);
    ExtendOnPosits(ctx, p, ScannedPosits(ctx, p, posits, cut, own), input, own);
  }

  // -------------------------------------------------------- every kind of pattern

  /** Whether reductions of the pattern at these dependencies ignore everything else. */
  ghost predicate StableAt(s: Snapshot, p: PositPattern, own: Binding) {
    p.effect.None? && p.cutoff.Some? && ResolvedCutoff(p.cutoff.value, own).Ok? ==>
      StableScan(Context(s.roleNames, own), p, AllPosits(s), Some(ResolvedCutoff(p.cutoff.value, own).value), own)
  }

  lemma ScanContext(s: Snapshot, p: PositPattern, posits: seq<Posit>, cut: Option<Time>, a: Binding, b: Binding, input: Binding)
    requires SameRecall(OneOfNames(p.appearances.members), a, b)
    ensures ScanRelation(Context(s.roleNames, a), p, posits, cut, input) == ScanRelation(Context(s.roleNames, b), p, posits, cut, input)
  {
    var x := StructuralInput(p, input);
    var (f, g) := (Structural(Context(s.roleNames, a), p, x), Structural(Context(s.roleNames, b), p, x));
    forall q | q in Keep(posits, Within(cut)) ensures f(q) == g(q) {
      OwnMatchesSame(s.roleNames, p.appearances, q.appearances, a, b);
    }
    FlatMapAgree(Keep(posits, Within(cut)), f, g);
  }

  lemma CutoffOfOwn(p: PositPattern, c: Cutoff, input: Binding)
    requires CutoffNames(c) <= Dependencies(p)
    ensures ResolvedCutoff(c, OwnInput(p, input)).Ok? <==> ResolvedCutoff(c, input).Ok?
    ensures ResolvedCutoff(c, input).Ok? ==> ResolvedCutoff(c, OwnInput(p, input)) == ResolvedCutoff(c, input)
  {
  }

  /** Rows under one binding followed by a relation of their own. */
  ghost function Product(xs: seq<Binding>, ys: seq<Binding>): seq<Binding> {
    FlatMap(xs, Before(ys))
  }

  ghost function Before(ys: seq<Binding>): Binding -> seq<Binding> {
    (x: Binding) => Extend(x, ys)
  }

  lemma ProductExtend(b: Binding, xs: seq<Binding>, ys: seq<Binding>)
    ensures Product(Extend(b, xs), ys) == Extend(b, Product(xs, ys))
  {
    FlatMapFlatMap(xs, Extending(b), Before(ys));
    FlatMapFlatMap(xs, Before(ys), Extending(b));
    forall x | x in xs ensures Then(Extending(b), Before(ys))(x) == Then(Before(ys), Extending(b))(x) {
      ExtendExtend(b, x, ys);
      FlatMapEmit(Merge(b, x), Before(ys));
    }
    FlatMapAgree(xs, Then(Extending(b), Before(ys)), Then(Before(ys), Extending(b)));
  }

  lemma OnEvidenceExtends(roleNames: map<Thing, string>, p: PositPattern, via: Option<PositPattern>, row: Evidence, input: Binding, own: Binding)
    requires Absorbs(input, own)
    requires SameRecall(OneOfNames(p.appearances.members), input, own)
    requires via.Some? ==> SameRecall(OneOfNames(via.value.appearances.members), input, own)
    ensures OnEvidence(Context(roleNames, input), p, via, input)(row)
            == Extend(input, OnEvidence(Context(roleNames, own), p, via, own)(row))
  {
    var (ctx, mine) := (Context(roleNames, input), Context(roleNames, own));
    OnPositSame(roleNames, p, row.target, input, own, own);
    ExtendOnPosit(ctx, p, row.target, input, own);
    if via.Some? {
      var v := via.value;
      var targets := OnPosit(mine, p, row.target, own);
      var matches := OwnMatches(mine, v.appearances, row.assertion.appearances);
      var inner := ExtendOption(FieldBinding(v, row.assertion), matches);
      OwnMatchesSame(roleNames, v.appearances, row.assertion.appearances, input, own);
      ViaIsProduct(ctx, v, row.assertion, Extend(input, targets));
      ViaIsProduct(mine, v, row.assertion, targets);
      ProductExtend(input, targets, inner);
    }
  }

  lemma ViaIsProduct(ctx: Context, v: PositPattern, assertion: Posit, xs: seq<Binding>)
    ensures FlatMap(xs, ViaRows(ctx, v, assertion))
            == Product(xs, ExtendOption(FieldBinding(v, assertion), OwnMatches(ctx, v.appearances, assertion.appearances)))
  {
    var matches := OwnMatches(ctx, v.appearances, assertion.appearances);
    var inner := ExtendOption(FieldBinding(v, assertion), matches);
    forall x | x in xs ensures ViaRows(ctx, v, assertion)(x) == Before(inner)(x) {
      if FieldBinding(v, assertion).Some? {
        ExtendCommutes(x, FieldBinding(v, assertion).value, matches);
      }
    }
    FlatMapAgree(xs, ViaRows(ctx, v, assertion), Before(inner));
  }

  lemma EffectIsJoin(roleNames: map<Thing, string>, p: PositPattern, via: Option<PositPattern>, rows: seq<Evidence>, input: Binding, own: Binding)
    requires Absorbs(input, own)
    requires SameRecall(OneOfNames(p.appearances.members), input, own)
    requires via.Some? ==> SameRecall(OneOfNames(via.value.appearances.members), input, own)
    ensures EffectRelation(Context(roleNames, input), p, via, rows, input)
            == Extend(input, EffectRelation(Context(roleNames, own), p, via, rows, own))
  {
    var (f, g) := (OnEvidence(Context(roleNames, input), p, via, input), OnEvidence(Context(roleNames, own), p, via, own));
    FlatMapFlatMap(rows, g, Extending(input));
    forall row | row in rows ensures f(row) == Then(g, Extending(input))(row) {
      OnEvidenceExtends(roleNames, p, via, row, input, own);
    }
    FlatMapAgree(rows, f, Then(g, Extending(input)));
  }

  lemma CutScanIsJoin(s: Snapshot, p: PositPattern, cut: Option<Time>, input: Binding)
    requires Dependencies(p) <= input.Keys && (cut.Some? <==> p.cutoff.Some?)
    requires StableScan(Context(s.roleNames, OwnInput(p, input)), p, AllPosits(s), cut, OwnInput(p, input))
    ensures ScanRelation(Context(s.roleNames, input), p, AllPosits(s), cut, input)
            == Extend(input, ScanRelation(Context(s.roleNames, OwnInput(p, input)), p, AllPosits(s), cut, OwnInput(p, input)))
  {
    var own := OwnInput(p, input);
    OwnInputRecalls(p, input, OneOfNames(p.appearances.members));
    ScanIsJoin(Context(s.roleNames, own), p, AllPosits(s), cut, own, input);
    ScanContext(s, p, AllPosits(s), cut, input, own, input);
  }

  lemma CutEffectIsJoin(s: Snapshot, p: PositPattern, rows: seq<Evidence>, input: Binding)
    requires p.effect.Some?
    ensures EffectRelation(Context(s.roleNames, input), p, p.effect.value.via, rows, input)
            == Extend(input, EffectRelation(Context(s.roleNames, OwnInput(p, input)), p, p.effect.value.via, rows, OwnInput(p, input)))
  {
    OwnInputAbsorbed(p, input);
    OwnInputRecalls(p, input, OneOfNames(p.appearances.members));
    if p.effect.value.via.Some? {
      OwnInputRecalls(p, input, OneOfNames(p.effect.value.via.value.appearances.members));
    }
    EffectIsJoin(s.roleNames, p, p.effect.value.via, rows, input, OwnInput(p, input));
  }

  /**
   The relation of a pattern is the natural join of the input with the pattern's own
   relation, in the same order: plain, as-of, latest and in-effect patterns alike.
   */
  lemma RelationIsJoin(s: Snapshot, p: PositPattern, input: Binding)
    requires Dependencies(p) <= input.Keys
    requires StableAt(s, p, OwnInput(p, input))
    ensures Relation(s, p, input) == Extend(input, Relation(s, p, OwnInput(p, input)))
  {
    hide ScanRelation;
    hide EffectRelation;
    hide OwnInput;
    if p.effect.Some? {
      var e := p.effect.value;
      CutoffOfOwn(p, e.assertionCutoff, input);
      CutoffOfOwn(p, e.appearanceCutoff, input);
      var (assertionCut, appearanceCut) := (ResolvedCutoff(e.assertionCutoff, input), ResolvedCutoff(e.appearanceCutoff, input));
      if assertionCut.Ok? && appearanceCut.Ok? {
        CutEffectIsJoin(s, p, SliceAt(s, Cut(assertionCut.value, appearanceCut.value)), input);
      }
    } else if p.cutoff.None? {
      CutScanIsJoin(s, p, None, input);
    } else {
      CutoffOfOwn(p, p.cutoff.value, input);
      if ResolvedCutoff(p.cutoff.value, input).Ok? {
        CutScanIsJoin(s, p, Some(ResolvedCutoff(p.cutoff.value, input).value), input);
      }
    }
  }
}
