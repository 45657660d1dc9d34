/**
 Candidate posits.  Bitmap access intersects the postings that a pattern's bound parts
 select; it is proved to leave out no posit that could contribute a row, so that a scan
 over the candidates equals the scan over every posit.
 */
module IndexAccess {
  import opened Prelude
  import opened Sequences
  import opened Times
  import opened Constructs
  import opened Effect
  import opened Bindings
  import opened Matching
  import opened Patterns
  import opened JoinOrder
  import opened LatestPatterns

  // ------------------------------------------------------- scans of part of the posits

  function IdIn(ids: set<Thing>): Posit -> bool {
    (q: Posit) => q.id in ids
  }

  /** Posits left out of `ids` contribute nothing: no rows, or for as-of patterns not even a structural match. */
  ghost predicate Covers(ctx: Context, p: PositPattern, posits: seq<Posit>, b: Binding, ids: set<Thing>) {
    forall q :: q in posits && q.id !in ids ==>
                  if p.cutoff.Some? && !p.latest then Structural(ctx, p, b)(q) == [] else Fielded(ctx, p, b)(q) == []
  }

  lemma KeepSwap<T(!new)>(xs: seq<T>, p: T -> bool, q: T -> bool)
    ensures Keep(Keep(xs, p), q) == Keep(Keep(xs, q), p)
  {
    KeepKeep(xs, p, q);
    KeepKeep(xs, q, p);
    KeepAgree(xs, Both(p, q), Both(q, p));
  }

  /** Scanning the covering posits selects the same rows in the same order. */
  lemma CoveringScan(ctx: Context, p: PositPattern, posits: seq<Posit>, cut: Option<Time>, b: Binding, ids: set<Thing>)
    requires Covers(ctx, p, posits, b, ids) && (cut.Some? <==> p.cutoff.Some?)
    ensures SelectedRows(ctx, p, Keep(posits, IdIn(ids)), cut, b) == SelectedRows(ctx, p, posits, cut, b)
  {
    var (all, part) := (Keep(posits, Within(cut)), Keep(Keep(posits, IdIn(ids)), Within(cut)));
    KeepSwap(posits, IdIn(ids), Within(cut));
    forall q | q in all ensures q in posits {
      KeepMembers(posits, Within(cut), q);
    }
    if cut.Some? && !p.latest {
      FlatMapKeep(all, IdIn(ids), Structural(ctx, p, b));
    } else {
      FlatMapKeep(all, IdIn(ids), Fielded(ctx, p, b));
      FieldRowsByPosit(ctx, p, all, b);
      FieldRowsByPosit(ctx, p, part, b);
    }
  }

  lemma PositsSnoc(s: Snapshot, ids: seq<Thing>, last: Thing)
    requires (forall id :: id in ids ==> id in s.posits) && last in s.posits
    ensures forall id :: id in ids + [last] ==> id in s.posits
    ensures PositsOf(s, ids + [last]) == PositsOf(s, ids) + [s.posits[last]]
  {
  }

  lemma {:induction false} PositsOfKept(s: Snapshot, ids: seq<Thing>, kept: set<Thing>)
    requires Closed(s) && forall id :: id in ids ==> id in s.posits
    ensures forall id :: id in Keep(ids, In(kept)) ==> id in s.posits
    ensures PositsOf(s, Keep(ids, In(kept))) == Keep(PositsOf(s, ids), IdIn(kept))
  {
    forall id | id in Keep(ids, In(kept)) ensures id in s.posits {
      KeepMembers(ids, In(kept), id);
    }
    if ids != [] {
      var front, last := ids[..|ids| - 1], ids[|ids| - 1];
      assert ids == front + [last];
      PositsOfKept(s, front, kept);
      PositsSnoc(s, front, last);
      KeepSnoc(front, last, In(kept));
      KeepSnoc(PositsOf(s, front), s.posits[last], IdIn(kept));
      if last in kept {
        PositsSnoc(s, Keep(front, In(kept)), last);
      }
    }
  }

  lemma {:induction false} KeepAscends(ids: seq<nat>, kept: set<nat>)
    requires Ascending(ids)
    ensures Ascending(Keep(ids, In(kept)))
  {
    if ids != [] {
      var front, last := ids[..|ids| - 1], ids[|ids| - 1];
      KeepAscends(front, kept);
      forall id | id in Keep(front, In(kept)) ensures id < last {
        KeepMembers(front, In(kept), id);
      }
      AppendAscends(Keep(front, In(kept)), last);
    }
  }

  lemma AppendAscends(front: seq<nat>, last: nat)
    requires Ascending(front) && forall id :: id in front ==> id < last
    ensures Ascending(front + [last])
  {
    assert forall i :: 0 <= i < |front| ==> front[i] in front;
  }

  /** The candidate posits in ascending order are the candidates among all posits in ascending order. */
  lemma CandidatesAmongAll(s: Snapshot, ids: set<Thing>)
    requires Closed(s) && ids <= s.posits.Keys
    ensures PositsOf(s, SortedOf(ids)) == Keep(AllPosits(s), IdIn(ids))
  {
    var all := SortedOf(s.posits.Keys);
    PositsOfKept(s, all, ids);
    SortedAscends(s.posits.Keys);
    SortedAscends(ids);
    KeepAscends(all, ids);
    forall id ensures id in SortedOf(ids) <==> id in Keep(all, In(ids)) {
      KeepMembers(all, In(ids), id);
    }
    AscendingUnique(SortedOf(ids), Keep(all, In(ids)));
  }

  // --------------------------------------------- what a match says about its posit

  /** Every member of a match sits on a stored appearance, and the match says all that member says there. */
  lemma MemberOfMatch(ctx: Context, pattern: SetPattern, stored: AppearanceSet, row: Binding, i: nat) returns (at: nat, own: Binding)
    requires !pattern.any && row in OwnMatches(ctx, pattern, stored) && i < |pattern.members|
    ensures at < |stored| && Contribution(ctx, pattern.members[i], stored[at]) == Some(own)
    ensures forall n :: n in own ==> n in row && Compatible(row[n], own[n])
  {
    hide FlatMap;
    hide Merge;
    hide Contribution;
    hide Matches;
    var rows := VisitedRows(ctx, pattern.members, stored);
    ExtendMembers(SetBinding(pattern, stored), rows, row);
    var m :| m in rows && Merge(SetBinding(pattern, stored), m) == Some(row);
    DistinctMembers(Matches(ctx, pattern.members, stored, 0, {}));
    var chosen := MatchIsInduced(ctx, pattern.members, stored, 0, {}, m);
    at := chosen[i];
    own := InducedSays(ctx, pattern.members, stored, 0, chosen, m, i);
    MergeSays(SetBinding(pattern, stored), m, row, own);
  }

  ghost predicate Says(row: Binding, own: Binding) {
    forall n :: n in own ==> n in row && Compatible(row[n], own[n])
  }

  lemma MergeSays(a: Binding, b: Binding, row: Binding, own: Binding)
    requires Merge(a, b) == Some(row)
    ensures Says(a, own) ==> Says(row, own)
    ensures Says(b, own) ==> Says(row, own)
    ensures Says(row, a) && Says(row, b)
  {
  }

  lemma {:induction false} InducedSays(ctx: Context, members: seq<Member>, stored: AppearanceSet, index: nat, chosen: seq<nat>, row: Binding, i: nat)
    returns (own: Binding)
    requires index <= |members| && |chosen| == |members| - index && forall k :: 0 <= k < |chosen| ==> chosen[k] < |stored|
    requires Induced(ctx, members, stored, index, chosen) == Some(row) && i < |chosen|
    ensures Contribution(ctx, members[index + i], stored[chosen[i]]) == Some(own) && Says(row, own)
    decreases |chosen|
  {
    hide Merge;
    hide Contribution;
    var first := Contribution(ctx, members[index], stored[chosen[0]]).value;
    var rest := Induced(ctx, members, stored, index + 1, chosen[1..]).value;
    if i == 0 {
      own := first;
      MergeSays(first, rest, row, own);
    } else {
      own := InducedSays(ctx, members, stored, index + 1, chosen[1..], rest, i - 1);
      MergeSays(first, rest, row, own);
    }
  }

  /** A row extending an input agrees with it on every name. */
  lemma MatchAgrees(ctx: Context, pattern: SetPattern, stored: AppearanceSet, b: Binding, x: Binding) returns (row: Binding)
    requires x in Extend(b, OwnMatches(ctx, pattern, stored))
    ensures row in OwnMatches(ctx, pattern, stored) && Merge(b, row) == Some(x)
    ensures forall n :: n in b && n in row ==> Compatible(b[n], row[n])
  {
    hide OwnMatches;
    hide FlatMap;
    ExtendMembers(b, OwnMatches(ctx, pattern, stored), x);
    row :| row in OwnMatches(ctx, pattern, stored) && Merge(b, row) == Some(x);
  }

  /** Every row of a pattern on a posit extends its input. */
  lemma OnPositExtends(ctx: Context, p: PositPattern, q: Posit, b: Binding, row: Binding)
    requires row in OnPosit(ctx, p, q, b)
    ensures forall n :: n in b ==> n in row && Compatible(row[n], b[n])
  {
    hide OwnMatches;
    hide FieldBinding;
    hide FlatMap;
    hide Merge;
    var f, xs := FieldBinding(p, q).value, Extend(b, OwnMatches(ctx, p.appearances, q.appearances));
    ExtendMembers(f, xs, row);
    var x :| x in xs && Merge(f, x) == Some(row);
    var m := MatchAgrees(ctx, p.appearances, q.appearances, b, x);
    MergeSays(b, m, x, b);
    MergeSays(f, x, row, x);
    SaysThrough(row, x, b);
  }

  lemma SaysThrough(row: Binding, x: Binding, b: Binding)
    requires Says(row, x) && forall n :: n in b ==> n in x
    requires forall n :: n in b ==> Compatible(x[n], b[n])
    ensures forall n :: n in b ==> n in row && Compatible(row[n], b[n])
  {
    forall n | n in b ensures n in row && Compatible(row[n], b[n]) {
      assert Compatible(row[n], x[n]) && Compatible(x[n], b[n]);
    }
  }

  /** A posit that matches structurally under an input. */
  ghost predicate MatchesStructurally(ctx: Context, p: PositPattern, b: Binding, q: Posit) {
    Extend(b, OwnMatches(ctx, p.appearances, q.appearances)) != []
  }

  lemma SetMatches(ctx: Context, p: PositPattern, b: Binding, q: Posit, name: string)
    requires MatchesStructurally(ctx, p, b, q) && WellFormed(p.appearances) && p.appearances.binding == Some(name)
    requires name in b && b[name].SetValue?
    ensures q.appearances == b[name].appearanceSet
  {
    hide OwnMatches;
    hide FlatMap;
    hide Merge;
    hide WellFormed;
    var x := Extend(b, OwnMatches(ctx, p.appearances, q.appearances))[0];
    var row := MatchAgrees(ctx, p.appearances, q.appearances, b, x);
    SetNamed(ctx, p.appearances, q.appearances, row);
  }

  lemma SetNamed(ctx: Context, pattern: SetPattern, stored: AppearanceSet, row: Binding)
    requires row in OwnMatches(ctx, pattern, stored) && pattern.binding.Some?
    ensures pattern.binding.value in row && row[pattern.binding.value] == SetValue(stored)
  {
    hide Matches;
    var own := SetBinding(pattern, stored);
    if !pattern.any {
      var rows := VisitedRows(ctx, pattern.members, stored);
      ExtendMembers(own, rows, row);
      var m :| m in rows && Merge(own, m) == Some(row);
      MergeSays(own, m, row, own);
    }
  }

  lemma MemberMatches(ctx: Context, p: PositPattern, b: Binding, q: Posit, i: nat) returns (a: Appearance, own: Binding)
    requires MatchesStructurally(ctx, p, b, q) && WellFormed(p.appearances) && i < |p.appearances.members|
    ensures a in q.appearances && Contribution(ctx, p.appearances.members[i], a) == Some(own)
    ensures forall n :: n in own && n in b ==> Compatible(b[n], own[n])
  {
    hide OwnMatches;
    hide FlatMap;
    hide Contribution;
    var x := Extend(b, OwnMatches(ctx, p.appearances, q.appearances))[0];
    var row := MatchAgrees(ctx, p.appearances, q.appearances, b, x);
    var at;
    at, own := MemberOfMatch(ctx, p.appearances, q.appearances, row, i);
    a := q.appearances[at];
    forall n | n in own && n in b ensures Compatible(b[n], own[n]) {
      assert Compatible(b[n], row[n]) && Compatible(row[n], own[n]);
      CompatibleThrough(ctx, p.appearances.members[i], a, own, n, b[n], row[n]);
    }
  }

  lemma CompatibleThrough(ctx: Context, member: Member, a: Appearance, own: Binding, n: string, x: BoundValue, y: BoundValue)
    requires Contribution(ctx, member, a) == Some(own) && n in own && Compatible(x, y) && Compatible(y, own[n])
    ensures Compatible(x, own[n])
  {
  }

  // ------------------------------------------------------------- the postings

  /** What a role slot pins down under an input: nothing, no kept role, or one role. */
  datatype RoleConstraint = Unconstrained | NoRole | OnlyRole(role: Thing)

  function RoleConstraintOf(s: Snapshot, slot: RoleSlot, b: Binding): RoleConstraint {
    match slot
    case AnyRole => Unconstrained
    case NamedRole(name) => if name in s.rolesByName then OnlyRole(s.rolesByName[name]) else NoRole
    case RoleVariable(name) => if name in b && b[name].RoleValue? then OnlyRole(b[name].role) else Unconstrained
  }

  function RecalledThings(names: seq<string>, b: Binding): set<Thing> {
    set i | 0 <= i < |names| && names[i] in b && b[names[i]].Identity?() :: b[names[i]].id
  }

  /** The Things a slot admits under an input, when the input pins any down. */
  function ThingConstraintOf(slot: ThingSlot, b: Binding): Option<set<Thing>> {
    match slot
    case AnyThing => None
    case ThingVariable(name) => if name in b && b[name].Identity?() then Some({b[name].id}) else None
    case OneOf(names) => Some(RecalledThings(names, b))
  }

  lemma RoleConstrains(s: Snapshot, p: PositPattern, b: Binding, recalled: Binding, q: Posit, i: nat)
    requires Indexed(s) && q.id in s.posits && s.posits[q.id] == q
    requires MatchesStructurally(Context(s.roleNames, recalled), p, b, q) && WellFormed(p.appearances) && i < |p.appearances.members|
    ensures var constraint := RoleConstraintOf(s, p.appearances.members[i].role, b);
            !constraint.NoRole? && (constraint.OnlyRole? ==> q.id in Posting(s.roleToPosits, constraint.role))
  {
    hide MatchesStructurally;
    hide ThingIndex;
    hide SetIndex;
    hide PositIndex;
    hide ReverseIndex;
    var ctx := Context(s.roleNames, recalled);
    var a, own := MemberMatches(ctx, p, b, q, i);
    RolesAgree(s, ctx, p.appearances.members[i], a, own, b);
    var at :| 0 <= at < |q.appearances| && q.appearances[at] == a;
    assert HasRole(q.appearances, a.role);
  }

  lemma RolesAgree(s: Snapshot, ctx: Context, member: Member, a: Appearance, own: Binding, b: Binding)
    requires RoleNameIndex(s) && ctx.roleNames == s.roleNames
    requires Contribution(ctx, member, a) == Some(own) && forall n :: n in own && n in b ==> Compatible(b[n], own[n])
    ensures var constraint := RoleConstraintOf(s, member.role, b);
            constraint.Unconstrained? || constraint == OnlyRole(a.role)
  {
    if member.role.RoleVariable? && member.role.name in b && b[member.role.name].RoleValue? {
      var n := member.role.name;
      assert n in own && own[n] == RoleValue(a.role);
    }
  }

  lemma ThingsAgree(ctx: Context, member: Member, a: Appearance, own: Binding, b: Binding)
    requires SameRecall(OneOfNames([member]), b, ctx.recalled)
    requires Contribution(ctx, member, a) == Some(own) && forall n :: n in own && n in b ==> Compatible(b[n], own[n])
    ensures var things := ThingConstraintOf(member.thing, b);
            things.Some? ==> a.thing in things.value
  {
    match member.thing {
      case AnyThing =>
      case ThingVariable(n) =>
        assert n in own && own[n] == ThingValue(a.thing);
      case OneOf(names) =>
        var i :| 0 <= i < |names| && names[i] in ctx.recalled && ctx.recalled[names[i]].Identity?() && ctx.recalled[names[i]].id == a.thing;
        assert [member][0] in [member];
        assert names[i] in OneOfNames([member]);
        assert names[i] in b && b[names[i]].id == a.thing;
    }
  }

  /** Posits whose set holds one of the Things, in the given role if any. */
  ghost function ThingPosting(s: Snapshot, things: set<Thing>, constraint: RoleConstraint): set<Thing> {
    set id | id in s.posits && exists i :: 0 <= i < |s.posits[id].appearances| && s.posits[id].appearances[i].thing in things
                                           && (constraint.OnlyRole? ==> s.posits[id].appearances[i].role == constraint.role)
  }

  lemma ThingConstrains(s: Snapshot, p: PositPattern, b: Binding, recalled: Binding, q: Posit, i: nat)
    requires Indexed(s) && q.id in s.posits && s.posits[q.id] == q && SameRecall(OneOfNames(p.appearances.members), b, recalled)
    requires MatchesStructurally(Context(s.roleNames, recalled), p, b, q) && WellFormed(p.appearances) && i < |p.appearances.members|
    ensures var member := p.appearances.members[i];
            var things := ThingConstraintOf(member.thing, b);
            things.Some? ==> q.id in ThingPosting(s, things.value, RoleConstraintOf(s, member.role, b))
  {
    hide MatchesStructurally;
    hide ThingIndex;
    hide SetIndex;
    hide PositIndex;
    hide ReverseIndex;
    hide RoleIndex;
    hide Contribution;
    hide SameRecall;
    var ctx := Context(s.roleNames, recalled);
    var a, own := MemberMatches(ctx, p, b, q, i);
    MemberRecall(p.appearances.members, i, b, recalled);
    ThingsAgree(ctx, p.appearances.members[i], a, own, b);
    RolesAgree(s, ctx, p.appearances.members[i], a, own, b);
    var at :| 0 <= at < |q.appearances| && q.appearances[at] == a;
  }

  lemma PositConstrains(ctx: Context, p: PositPattern, b: Binding, q: Posit, name: string)
    requires p.posit == Some(name) && name in b && b[name].Identity?() && OnPosit(ctx, p, q, b) != []
    ensures q.id == b[name].id
  {
    hide OwnMatches;
    hide FlatMap;
    hide FieldBinding;
    hide Merge;
    var f, xs := FieldBinding(p, q).value, Extend(b, OwnMatches(ctx, p.appearances, q.appearances));
    ExtendNonempty(f, xs);
    var x :| x in xs && Merge(f, x).Some?;
    var row := MatchAgrees(ctx, p.appearances, q.appearances, b, x);
    FieldNamesPosit(p, q, name);
    SaysIdentity(f, b, row, x, name);
  }

  lemma FieldNamesPosit(p: PositPattern, q: Posit, name: string)
    requires p.posit == Some(name) && FieldBinding(p, q).Some?
    ensures name in FieldBinding(p, q).value && FieldBinding(p, q).value[name] == PositValue(q.id)
  {
  }

  lemma SaysIdentity(f: Binding, b: Binding, row: Binding, x: Binding, name: string)
    requires Merge(b, row) == Some(x) && Merge(f, x).Some?
    requires name in f && f[name].PositValue? && name in b && b[name].Identity?()
    ensures f[name].id == b[name].id
  {
    assert name in x && Compatible(f[name], x[name]);
  }

  // ------------------------------------------------------------------- lookups

  function AppearancesOfThings(s: Snapshot, things: set<Thing>, constraint: RoleConstraint): (appearances: set<Appearance>) {
    set thing, a | thing in things && a in Posting(s.thingToAppearances, thing) && (constraint.OnlyRole? ==> a.role == constraint.role) :: a
  }

  function SetsHolding(s: Snapshot, appearances: set<Appearance>): (sets: set<AppearanceSet>)
    ensures forall appearanceSet :: appearanceSet in sets <==> exists a :: a in appearances && appearanceSet in Posting(s.appearanceToSets, a)
  {
    set a, appearanceSet | a in appearances && appearanceSet in Posting(s.appearanceToSets, a) :: appearanceSet
  }

  function PositsUnder(s: Snapshot, sets: set<AppearanceSet>): (posting: set<Thing>)
    ensures forall id :: id in posting <==> exists appearanceSet :: appearanceSet in sets && id in Posting(s.setToPosits, appearanceSet)
  {
    set appearanceSet, id | appearanceSet in sets && id in Posting(s.setToPosits, appearanceSet) :: id
  }

  lemma AppearancesFound(s: Snapshot, things: set<Thing>, constraint: RoleConstraint)
    requires Indexed(s)
    ensures forall a :: a in AppearancesOfThings(s, things, constraint) <==>
                          a.thing in things && a in s.appearances && (constraint.OnlyRole? ==> a.role == constraint.role)
  {
  }

  /** The posting of a set of Things: their appearances, the sets of those, and the posits of those. */
  method PositPostingForThings(s: Snapshot, things: set<Thing>, constraint: RoleConstraint) returns (posting: set<Thing>)
    requires Indexed(s)
    ensures posting == ThingPosting(s, things, constraint)
  {
    hide Indexed;
    var appearances := AppearancesOfThings(s, things, constraint);
    var sets := SetsHolding(s, appearances);
    posting := PositsUnder(s, sets);
    AppearancesFound(s, things, constraint);
    hide AppearancesOfThings;
    hide SetsHolding;
    hide PositsUnder;
    hide ThingPosting;
    forall id ensures id in posting <==> id in ThingPosting(s, things, constraint) {
      PostingHolds(s, things, constraint, appearances, sets, posting, id);
    }
  }

  lemma PostingHolds(s: Snapshot, things: set<Thing>, constraint: RoleConstraint, appearances: set<Appearance>,
                     sets: set<AppearanceSet>, posting: set<Thing>, id: Thing)
    requires Indexed(s)
    requires forall a :: a in appearances <==>
                           a.thing in things && a in s.appearances && (constraint.OnlyRole? ==> a.role == constraint.role)
    requires forall appearanceSet :: appearanceSet in sets <==> exists a :: a in appearances && appearanceSet in Posting(s.appearanceToSets, a)
    requires forall i :: i in posting <==> exists appearanceSet :: appearanceSet in sets && i in Posting(s.setToPosits, appearanceSet)
    ensures id in posting <==> id in ThingPosting(s, things, constraint)
  {
    hide Posting;
    hide RoleIndex;
    hide ReverseIndex;
    hide RoleNameIndex;
    if id in posting {
      var appearanceSet :| appearanceSet in sets && id in Posting(s.setToPosits, appearanceSet);
      var a :| a in appearances && appearanceSet in Posting(s.appearanceToSets, a);
      var i :| 0 <= i < |appearanceSet| && appearanceSet[i] == a;
      assert s.posits[id].appearances[i].thing in things;
    }
    if id in ThingPosting(s, things, constraint) {
      var appearanceSet := s.posits[id].appearances;
      var i :| 0 <= i < |appearanceSet| && appearanceSet[i].thing in things && (constraint.OnlyRole? ==> appearanceSet[i].role == constraint.role);
      assert appearanceSet[i] in appearanceSet && appearanceSet in s.sets;
      assert appearanceSet[i] in appearances;
      assert appearanceSet in sets;
    }
  }
}
