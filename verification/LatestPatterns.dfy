/**
 The one family of patterns whose temporal reduction an outer binding can disturb: a
 latest pattern whose posit variable is also one of its own Thing variables.  Join
 independence holds at given dependencies exactly when that reduction drops nothing.
 */
module LatestPatterns {
  import opened Prelude
  import opened Sequences
  import opened Times
  import opened Constructs
  import opened Bindings
  import opened Matching
  import opened Patterns
  import opened JoinOrder

  /** `*` as an appearance set has no members. */
  predicate WellFormed(p: SetPattern) {
    p.any ==> p.members == []
  }

  // -------------------------------------------------------- the values of a row

  lemma FieldBindingValues(p: PositPattern, q: Posit, n: string)
    requires FieldBinding(p, q).Some? && n in FieldBinding(p, q).value
    ensures var v := FieldBinding(p, q).value[n];
            v.LiteralValue? || v.TimeValue? || (v == PositValue(q.id) && p.posit == Some(n))
  {
  }

  /** A match binds all the structural names, to Things, roles and sets. */
  ghost predicate MatchRow(names: set<string>, row: Binding) {
    row.Keys == names && forall n :: n in row ==> row[n].ThingValue? || row[n].RoleValue? || row[n].SetValue?
  }

  lemma MergeMatchRows(a: Binding, b: Binding, p: set<string>, q: set<string>)
    requires MatchRow(p, a) && MatchRow(q, b)
    ensures Merge(a, b).Some? ==> MatchRow(p + q, Merge(a, b).value)
  {
  }

  lemma ContributionValues(ctx: Context, member: Member, a: Appearance)
    ensures Contribution(ctx, member, a).Some? ==>
              MatchRow(ThingNames(member.thing) + RoleSlotNames(member.role), Contribution(ctx, member, a).value)
  {
  }

  lemma {:induction false} MatchValues(ctx: Context, members: seq<Member>, stored: AppearanceSet, index: nat, used: set<nat>, row: Binding)
    requires index <= |members| && row in Matches(ctx, members, stored, index, used)
    ensures MatchRow(MemberNames(members, index), row)
    decreases |members| - index
  {
    hide MatchesFrom;
    hide FlatMap;
    hide Merge;
    hide Contribution;
    if index < |members| {
      var at := MatchHasStart(ctx, members, stored, index, used, row, 0);
      var own := Contribution(ctx, members[index], stored[at]).value;
      var rest := Matches(ctx, members, stored, index + 1, used + {at});
      ExtendMembers(own, rest, row);
      var tail :| tail in rest && Merge(own, tail) == Some(row);
      MatchValues(ctx, members, stored, index + 1, used + {at}, tail);
      ContributionValues(ctx, members[index], stored[at]);
      MergeMatchRows(own, tail, ThingNames(members[index].thing) + RoleSlotNames(members[index].role), MemberNames(members, index + 1));
    }
  }

  lemma OwnMatchValues(ctx: Context, pattern: SetPattern, stored: AppearanceSet, row: Binding)
    requires WellFormed(pattern) && row in OwnMatches(ctx, pattern, stored)
    ensures MatchRow(StructuralNames(pattern), row)
  {
    hide FlatMap;
    hide Merge;
    hide Matches;
    var own := SetBinding(pattern, stored);
    assert MatchRow(NamesOf(pattern.binding), own);
    if !pattern.any {
      var rows := VisitedRows(ctx, pattern.members, stored);
      ExtendMembers(own, rows, row);
      var m :| m in rows && Merge(own, m) == Some(row);
      DistinctMembers(Matches(ctx, pattern.members, stored, 0, {}));
      MatchValues(ctx, pattern.members, stored, 0, {}, m);
      MergeMatchRows(own, m, NamesOf(pattern.binding), MemberNames(pattern.members, 0));
    } else {
      assert MemberNames(pattern.members, 0) == {};
    }
  }

  /** A name that both the fields and the match bind, and no dependency does. */
  lemma SharedName(f: Binding, own: Binding, m: Binding, y: Binding, x: Binding, n: string)
    requires Merge(own, m) == Some(y) && Merge(f, y) == Some(x)
    requires n in f && n in m && n !in own
    ensures n in x && Compatible(f[n], m[n]) && x[n] == Sharper(f[n], m[n])
  {
  }

  /** Every row of the pattern's own scan binds `n` to its posit. */
  ghost predicate NamesPosit(ctx: Context, p: PositPattern, own: Binding, n: string) {
    forall q, x :: x in OnPosit(ctx, p, q, own) ==> n in x && x[n] == PositValue(q.id)
  }

  predicate Unapart(p: PositPattern, n: string) {
    n in FieldNames(p) && n in StructuralNames(p.appearances) && n !in Dependencies(p)
  }

  lemma FieldMeetsMatch(ctx: Context, p: PositPattern, own: Binding, q: Posit, x: Binding, n: string)
    requires WellFormed(p.appearances) && own.Keys == Dependencies(p) && Unapart(p, n) && x in OnPosit(ctx, p, q, own)
    ensures p.posit == Some(n) && n in x && x[n] == PositValue(q.id)
  {
    hide FlatMap;
    hide Merge;
    hide FieldBinding;
    hide OwnMatches;
    hide FieldNames;
    hide StructuralNames;
    hide Dependencies;
    var f := FieldBinding(p, q).value;
    var matches := OwnMatches(ctx, p.appearances, q.appearances);
    ExtendMembers(f, Extend(own, matches), x);
    var y :| y in Extend(own, matches) && Merge(f, y) == Some(x);
    ExtendMembers(own, matches, y);
    var m :| m in matches && Merge(own, m) == Some(y);
    FieldBindingNames(p, q);
    OwnMatchValues(ctx, p.appearances, q.appearances, m);
    SharedName(f, own, m, y, x, n);
    FieldBindingValues(p, q, n);
  }

  lemma UnapartNamesPosit(ctx: Context, p: PositPattern, own: Binding, n: string)
    requires WellFormed(p.appearances) && own.Keys == Dependencies(p) && Unapart(p, n)
    ensures NamesPosit(ctx, p, own, n)
  {
    hide OnPosit;
    forall q, x | x in OnPosit(ctx, p, q, own) ensures n in x && x[n] == PositValue(q.id) {
      FieldMeetsMatch(ctx, p, own, q, x, n);
    }
  }

  // ------------------------------------------------------ the row that comes back

  lemma MergeTwice(a: Binding, b: Binding)
    requires Merge(a, b).Some?
    ensures Merge(a, Merge(a, b).value) == Merge(a, b)
  {
    MergeIdempotent(a);
    JoinAssociates(Some(a), Some(a), Some(b));
  }

  lemma OwnRowsAbsorb(ctx: Context, p: PositPattern, own: Binding, q: Posit, x: Binding)
    requires x in OnPosit(ctx, p, q, own)
    ensures Merge(own, x) == Some(x)
  {
    hide OnPosit;
    MergeIdempotent(own);
    ExtendOnPosit(ctx, p, q, own, own);
    ExtendMembers(own, OnPosit(ctx, p, q, own), x);
    var y :| y in OnPosit(ctx, p, q, own) && Merge(own, y) == Some(x);
    MergeTwice(own, y);
  }

  lemma RecallJoins(own: Binding, n: string, id: Thing, x: Binding)
    requires n !in own && Merge(own, x) == Some(x) && n in x && x[n].PositValue?
    ensures Merge(own[n := ThingValue(id)], x).Some? <==> x[n].id == id
  {
    AbsorbsBoth(own, x);
  }

  lemma AbsorbsBoth(own: Binding, x: Binding)
    requires Merge(own, x) == Some(x)
    ensures forall k :: k in own ==> k in x && Compatible(own[k], x[k])
  {
    forall k | k in own ensures k in x && Compatible(own[k], x[k]) {
      assert k in Merged(own, x);
    }
  }

  lemma RecallAbsorbs(own: Binding, n: string, id: Thing)
    requires n !in own
    ensures Absorbs(own[n := ThingValue(id)], own)
  {
    AbsorbsMeans(own[n := ThingValue(id)], own);
  }

  /** With the posit recalled, only that posit still has rows. */
  lemma OnlyRecalled(ctx: Context, p: PositPattern, own: Binding, n: string, id: Thing, q: Posit)
    requires NamesPosit(ctx, p, own, n) && n !in own
    ensures OnPosit(ctx, p, q, own[n := ThingValue(id)]) != [] <==> q.id == id && OnPosit(ctx, p, q, own) != []
  {
    hide OnPosit;
    hide Merge;
    var input := own[n := ThingValue(id)];
    var mine := OnPosit(ctx, p, q, own);
    RecallAbsorbs(own, n, id);
    ExtendOnPosit(ctx, p, q, input, own);
    ExtendNonempty(input, mine);
    forall x | x in mine ensures Merge(input, x).Some? <==> q.id == id {
      OwnRowsAbsorb(ctx, p, own, q, x);
      RecallJoins(own, n, id, x);
    }
    if mine != [] {
      assert mine[0] in mine;
    }
  }

  /** A latest scan has rows exactly when some candidate posit is not superseded. */
  lemma ScanNonempty(ctx: Context, p: PositPattern, posits: seq<Posit>, cut: Option<Time>, b: Binding, q: Posit)
    requires cut.Some? && p.latest && StructuralInput(p, b) == b
    requires q in Keep(posits, Within(cut)) && OnPosit(ctx, p, q, b) != []
    requires !Superseded(ctx, p, Keep(posits, Within(cut)), b, q)
    ensures ScanRelation(ctx, p, posits, cut, b) != []
  {
    hide OnPosit;
    hide Superseded;
    hide Merge;
    hide Reduced;
    var x := OnPosit(ctx, p, q, b)[0];
    var row := StructuralMatch(q, x);
    CandidateRowsByPosit(ctx, p, posits, cut, b);
    ReducedCandidates(ctx, p, posits, cut, b);
    assert row in SelectedRows(ctx, p, posits, cut, b);
    FlatMapMembers(SelectedRows(ctx, p, posits, cut, b), BindingOf, x);
    OwnRowsAbsorb(ctx, p, b, q, x);
    ExtendNonempty(b, FlatMap(SelectedRows(ctx, p, posits, cut, b), BindingOf));
  }

  lemma ScanMembers(ctx: Context, p: PositPattern, posits: seq<Posit>, cut: Option<Time>, b: Binding, z: Binding) returns (q: Posit)
    requires cut.Some? && p.latest && StructuralInput(p, b) == b
    requires z in ScanRelation(ctx, p, posits, cut, b)
    ensures q in Keep(posits, Within(cut)) && z in OnPosit(ctx, p, q, b)
    ensures !Superseded(ctx, p, Keep(posits, Within(cut)), b, q)
  {
    hide OnPosit;
    hide Superseded;
    hide Merge;
    hide Reduced;
    var kept := FlatMap(SelectedRows(ctx, p, posits, cut, b), BindingOf);
    CandidateRowsByPosit(ctx, p, posits, cut, b);
    ReducedCandidates(ctx, p, posits, cut, b);
    ExtendMembers(b, kept, z);
    var x :| x in kept && Merge(b, x) == Some(z);
    FlatMapMembers(SelectedRows(ctx, p, posits, cut, b), BindingOf, x);
    var row :| row in SelectedRows(ctx, p, posits, cut, b) && x in BindingOf(row);
    q := row.posit;
    OwnRowsAbsorb(ctx, p, b, q, x);
  }

  predicate DistinctIds(posits: seq<Posit>) {
    forall i, j :: 0 <= i < |posits| && 0 <= j < |posits| && posits[i].id == posits[j].id ==> posits[i] == posits[j]
  }

  lemma RecalledComesBack(ctx: Context, p: PositPattern, posits: seq<Posit>, cut: Option<Time>, own: Binding, n: string, q: Posit)
    requires cut.Some? && p.latest && DistinctIds(posits) && q in Keep(posits, Within(cut))
    requires NamesPosit(ctx, p, own, n) && n !in own && OnPosit(ctx, p, q, own) != []
    requires var input := own[n := ThingValue(q.id)]; StructuralInput(p, input) == input
    ensures ScanRelation(ctx, p, posits, cut, own[n := ThingValue(q.id)]) != []
  {
    hide OnPosit;
    var input := own[n := ThingValue(q.id)];
    var eligible := Keep(posits, Within(cut));
    OnlyRecalled(ctx, p, own, n, q.id, q);
    if Superseded(ctx, p, eligible, input, q) {
      var other :| other in eligible && other.appearances == q.appearances && OnPosit(ctx, p, other, input) != []
                   && DefinitelyBefore(q.time, other.time);
      OnlyRecalled(ctx, p, own, n, q.id, other);
      KeepMembers(posits, Within(cut), q);
      KeepMembers(posits, Within(cut), other);
      BeforeIrreflexive(q.time, q.time);
      assert false;
    }
    ScanNonempty(ctx, p, posits, cut, input, q);
  }

  lemma SamePosit(posits: seq<Posit>, q: Posit, other: Posit)
    requires DistinctIds(posits) && q in posits && other in posits && q.id == other.id
    ensures q == other
  {
  }

  lemma OwnRowLacks(ctx: Context, p: PositPattern, posits: seq<Posit>, cut: Option<Time>, own: Binding, n: string, q: Posit, z: Binding)
    requires cut.Some? && p.latest && DistinctIds(posits) && q in Keep(posits, Within(cut))
    requires NamesPosit(ctx, p, own, n) && n !in own && StructuralInput(p, own) == own
    requires Superseded(ctx, p, Keep(posits, Within(cut)), own, q) && z in ScanRelation(ctx, p, posits, cut, own)
    ensures Merge(own[n := ThingValue(q.id)], z).None?
  {
    hide OnPosit;
    hide Superseded;
    hide Merge;
    hide ScanRelation;
    hide DistinctIds;
    hide Keep;
    var other := ScanMembers(ctx, p, posits, cut, own, z);
    KeepMembers(posits, Within(cut), q);
    KeepMembers(posits, Within(cut), other);
    if other.id == q.id {
      SamePosit(posits, q, other);
      assert false;
    }
    OwnRowsAbsorb(ctx, p, own, other, z);
    RecallJoins(own, n, q.id, z);
  }

  lemma OwnScanLacks(ctx: Context, p: PositPattern, posits: seq<Posit>, cut: Option<Time>, own: Binding, n: string, q: Posit)
    requires cut.Some? && p.latest && DistinctIds(posits) && q in Keep(posits, Within(cut))
    requires NamesPosit(ctx, p, own, n) && n !in own && StructuralInput(p, own) == own
    requires Superseded(ctx, p, Keep(posits, Within(cut)), own, q)
    ensures Extend(own[n := ThingValue(q.id)], ScanRelation(ctx, p, posits, cut, own)) == []
  {
    hide OnPosit;
    hide Superseded;
    hide Merge;
    var input := own[n := ThingValue(q.id)];
    hide NamesPosit;
    hide ScanRelation;
    hide DistinctIds;
    forall z | z in ScanRelation(ctx, p, posits, cut, own) ensures Merge(input, z).None? {
      OwnRowLacks(ctx, p, posits, cut, own, n, q, z);
    }
    ExtendNonempty(input, ScanRelation(ctx, p, posits, cut, own));
  }

  lemma RecallStructure(p: PositPattern, own: Binding, n: string, id: Thing)
    requires own.Keys == Dependencies(p) && OwnInput(p, own) == own && Unapart(p, n)
    ensures var input := own[n := ThingValue(id)];
            OwnInput(p, input) == own && StructuralInput(p, input) == input && StructuralInput(p, own) == own
  {
  }

  /**
   The failing family: when the posit variable is also a Thing variable of the
   pattern and its reduction drops a row, an input recalling the dropped posit brings
   that row back.
   */
  lemma DroppedRowReturns(ctx: Context, p: PositPattern, posits: seq<Posit>, cut: Option<Time>, own: Binding) returns (input: Binding)
    requires cut.Some? && p.cutoff.Some? && p.latest && WellFormed(p.appearances) && DistinctIds(posits)
    requires own.Keys == Dependencies(p) && OwnInput(p, own) == own
    requires !StableScan(ctx, p, posits, cut, own)
    ensures OwnInput(p, input) == own
    ensures ScanRelation(ctx, p, posits, cut, input) != Extend(input, ScanRelation(ctx, p, posits, cut, own))
  {
    hide OnPosit;
    hide Superseded;
    hide NothingDropped;
    hide NamesPosit;
    hide StructuralInput;
    hide OwnInput;
    hide FieldsApart;
    hide ScanRelation;
    hide DistinctIds;
    hide Dependencies;
    var dropped := SomeDropped(ctx, p, posits, cut, own);
    var n := SomeUnapart(p);
    UnapartNamesPosit(ctx, p, own, n);
    RecallStructure(p, own, n, dropped.id);
    input := own[n := ThingValue(dropped.id)];
    RecalledComesBack(ctx, p, posits, cut, own, n, dropped);
    OwnScanLacks(ctx, p, posits, cut, own, n, dropped);
  }

  lemma SomeDropped(ctx: Context, p: PositPattern, posits: seq<Posit>, cut: Option<Time>, own: Binding) returns (q: Posit)
    requires !NothingDropped(ctx, p, posits, cut, own)
    ensures q in Keep(posits, Within(cut)) && OnPosit(ctx, p, q, own) != []
    ensures Superseded(ctx, p, Keep(posits, Within(cut)), own, q)
  {
    hide OnPosit;
    hide Superseded;
    hide NothingDropped;
    ReducedCandidates(ctx, p, posits, cut, own);
    CandidateRowsByPosit(ctx, p, posits, cut, own);
    var dropped :| dropped in CandidateRows(ctx, p, posits, cut, own)
                   && Superseded(ctx, p, Keep(posits, Within(cut)), own, dropped.posit);
    q := dropped.posit;
  }

  lemma SomeUnapart(p: PositPattern) returns (n: string)
    requires !FieldsApart(p)
    ensures Unapart(p, n)
  {
    n :| n in FieldNames(p) * StructuralNames(p.appearances) && n !in Dependencies(p);
  }

  /** For given dependencies, joining works for every input exactly when the pattern is stable at them. */
  lemma JoinsExactlyWhenStable(s: Snapshot, p: PositPattern, own: Binding)
    requires Closed(s) && WellFormed(p.appearances)
    requires own.Keys == Dependencies(p) && OwnInput(p, own) == own
    ensures (forall input :: OwnInput(p, input) == own ==> Relation(s, p, input) == Extend(input, Relation(s, p, own)))
            <==> StableAt(s, p, own)
  {
    if StableAt(s, p, own) {
      forall input | OwnInput(p, input) == own ensures Relation(s, p, input) == Extend(input, Relation(s, p, own)) {
        assert Dependencies(p) <= input.Keys by {
          assert forall n :: n in own ==> n in input;
        }
        RelationIsJoin(s, p, input);
      }
    } else {
      var cut := Some(ResolvedCutoff(p.cutoff.value, own).value);
      AllPositsDistinct(s);
      var input := DroppedRowReturns(Context(s.roleNames, own), p, AllPosits(s), cut, own);
      OwnInputRecalls(p, input, OneOfNames(p.appearances.members));
      ScanContext(s, p, AllPosits(s), cut, input, own, input);
      CutoffOfOwn(p, p.cutoff.value, input);
      assert Relation(s, p, input) != Extend(input, Relation(s, p, own));
    }
  }

  lemma AllPositsDistinct(s: Snapshot)
    requires Closed(s)
    ensures forall q :: q in AllPosits(s) <==> q.id in s.posits && s.posits[q.id] == q
    ensures DistinctIds(AllPosits(s))
  {
    var ids := SortedOf(s.posits.Keys);
    forall q ensures q in AllPosits(s) <==> q.id in s.posits && s.posits[q.id] == q {
      if q in AllPosits(s) {
        var i :| 0 <= i < |AllPosits(s)| && AllPosits(s)[i] == q;
        assert ids[i] in ids;
      }
      if q.id in s.posits && s.posits[q.id] == q {
        var i :| 0 <= i < |ids| && ids[i] == q.id;
        assert AllPosits(s)[i] == q;
      }
    }
  }
}
