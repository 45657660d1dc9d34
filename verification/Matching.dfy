/**
 Backtracking match of an appearance-set pattern against a stored appearance set.
 The search threads a binding and an array of used appearances; it is proved to
 visit exactly the distinct bindings that injective assignments of pattern members
 to stored appearances induce.
 */
module Matching {
  import opened Prelude
  import opened Sequences
  import opened Constructs
  import opened Bindings

  datatype ThingSlot = AnyThing | ThingVariable(name: string) | OneOf(names: seq<string>)

  datatype RoleSlot = AnyRole | NamedRole(name: string) | RoleVariable(name: string)

  datatype Member = Member(thing: ThingSlot, role: RoleSlot)

  datatype SetPattern = SetPattern(binding: Option<string>, members: seq<Member>, open: bool, any: bool)

  /** What matching reads besides the pattern: role names, and the values that one-of slots recall. */
  datatype Context = Context(roleNames: map<Thing, string>, recalled: Binding)

  // ----------------------------------------------- what one member contributes

  predicate Recalls(names: seq<string>, recalled: Binding, thing: Thing) {
    exists i :: 0 <= i < |names| && names[i] in recalled && recalled[names[i]].Identity?() && recalled[names[i]].id == thing
  }

  function ThingBinding(slot: ThingSlot, thing: Thing, recalled: Binding): Option<Binding> {
    match slot
    case AnyThing => Some(map[])
    case ThingVariable(name) => Some(map[name := ThingValue(thing)])
    case OneOf(names) => if Recalls(names, recalled, thing) then Some(map[]) else None
  }

  function RoleBinding(slot: RoleSlot, role: Thing, roleNames: map<Thing, string>): Option<Binding> {
    match slot
    case AnyRole => Some(map[])
    case NamedRole(name) => if role in roleNames && roleNames[role] == name then Some(map[]) else None
    case RoleVariable(name) => Some(map[name := RoleValue(role)])
  }

  /** The binding a member itself induces on an appearance, before any outer binding joins it. */
  function Contribution(ctx: Context, member: Member, a: Appearance): Option<Binding> {
    Join(ThingBinding(member.thing, a.thing, ctx.recalled), RoleBinding(member.role, a.role, ctx.roleNames))
  }

  function SetBinding(pattern: SetPattern, stored: AppearanceSet): Binding {
    if pattern.binding.Some? then map[pattern.binding.value := SetValue(stored)] else map[]
  }

  // -------------------------------------------- the search, free of outer bindings

  ghost function Matches(ctx: Context, members: seq<Member>, stored: AppearanceSet, index: nat, used: set<nat>): seq<Binding>
    requires index <= |members|
    decreases |members| - index, |stored| + 1
  {
    if index == |members| then [map[]] else MatchesFrom(ctx, members, stored, index, used, 0)
  }

  ghost function MatchesFrom(ctx: Context, members: seq<Member>, stored: AppearanceSet, index: nat, used: set<nat>, from: nat): seq<Binding>
    requires index < |members| && from <= |stored|
    decreases |members| - index, |stored| - from
  {
    if from == |stored| then []
    else MatchesAt(ctx, members, stored, index, used, from) + MatchesFrom(ctx, members, stored, index, used, from + 1)
  }

  ghost function MatchesAt(ctx: Context, members: seq<Member>, stored: AppearanceSet, index: nat, used: set<nat>, at: nat): seq<Binding>
    requires index < |members| && at < |stored|
    decreases |members| - index, 0
  {
    if at in used then []
    else ExtendOption(Contribution(ctx, members[index], stored[at]), Matches(ctx, members, stored, index + 1, used + {at}))
  }

  // ------------------------------------------------------------- first occurrences

  ghost function Distinct(xs: seq<Binding>): (kept: seq<Binding>)
    ensures |kept| <= |xs|
  {
    if xs == [] then []
    else Distinct(xs[..|xs| - 1]) + if xs[|xs| - 1] in xs[..|xs| - 1] then [] else [xs[|xs| - 1]]
  }

  ghost predicate NoDuplicates(xs: seq<Binding>) {
    forall i, j :: 0 <= i < j < |xs| ==> xs[i] != xs[j]
  }

  lemma {:induction false} DistinctMembers(xs: seq<Binding>)
    ensures forall x :: x in Distinct(xs) <==> x in xs
    ensures NoDuplicates(Distinct(xs))
  {
    if xs != [] {
      DistinctMembers(xs[..|xs| - 1]);
      assert xs == xs[..|xs| - 1] + [xs[|xs| - 1]];
    }
  }

  lemma DistinctSnoc(xs: seq<Binding>, x: Binding)
    ensures Distinct(xs + [x]) == if x in xs then Distinct(xs) else Distinct(xs) + [x]
  {
    assert (xs + [x])[..|xs|] == xs;
  }

  /** Rows binding the same names, none of them as a posit: joining any binding keeps them apart. */
  ghost predicate Uniform(rows: seq<Binding>) {
    && (forall x, y :: x in rows && y in rows ==> x.Keys == y.Keys)
    && (forall x: Binding, n :: x in rows && n in x ==> !x[n].PositValue?)
  }

  lemma MergeInjective(b: Binding, x: Binding, y: Binding)
    requires x.Keys == y.Keys && forall n :: n in x ==> !x[n].PositValue? && !y[n].PositValue?
    requires Merge(b, x).Some? && Merge(b, x) == Merge(b, y)
    ensures x == y
  {
    forall n | n in x ensures x[n] == y[n] {
      assert n in Merged(b, x) && Merged(b, x)[n] == Merged(b, y)[n];
      assert n in b ==> Compatible(b[n], x[n]) && Compatible(b[n], y[n]);
    }
  }

  lemma {:induction false} DistinctExtend(b: Binding, rows: seq<Binding>)
    requires Uniform(rows)
    ensures Distinct(Extend(b, rows)) == Extend(b, Distinct(rows))
  {
    hide Uniform;
    hide Merge;
    hide FlatMap;
    if rows != [] {
      var front, last := rows[..|rows| - 1], rows[|rows| - 1];
      assert rows == front + [last];
      UniformPart(front, last);
      DistinctExtend(b, front);
      FlatMapSnoc(front, last, Extending(b));
      DistinctSnoc(front, last);
      FlatMapSnoc(Distinct(front), last, Extending(b));
      if Merge(b, last).Some? {
        DistinctSnoc(Extend(b, front), Merge(b, last).value);
        JoinedBefore(b, front, last);
      } else {
        assert Extend(b, front) + [] == Extend(b, front);
        assert Extend(b, Distinct(front)) + [] == Extend(b, Distinct(front));
      }
    } else {
      FlatMapNothing(Extending(b));
    }
  }

  lemma FlatMapNothing<S(!new), T(!new)>(f: S -> seq<T>)
    ensures FlatMap([], f) == []
  {
  }

  lemma UniformPart(front: seq<Binding>, last: Binding)
    requires Uniform(front + [last])
    ensures Uniform(front)
  {
    assert forall x :: x in front ==> x in front + [last];
  }

  /** Among uniform rows, a join repeats an earlier one exactly when its row does. */
  lemma JoinedBefore(b: Binding, front: seq<Binding>, last: Binding)
    requires Uniform(front + [last]) && Merge(b, last).Some?
    ensures Merge(b, last).value in Extend(b, front) <==> last in front
  {
    var y := Merge(b, last).value;
    ExtendMembers(b, front, y);
    if y in Extend(b, front) {
      var x :| x in front && Merge(b, x) == Some(y);
      assert x in front + [last] && last in front + [last];
      MergeInjective(b, x, last);
    }
  }

  function ThingNames(slot: ThingSlot): set<string> {
    if slot.ThingVariable? then {slot.name} else {}
  }

  function RoleSlotNames(slot: RoleSlot): set<string> {
    if slot.RoleVariable? then {slot.name} else {}
  }

  function MemberNames(members: seq<Member>, index: nat): set<string>
    requires index <= |members|
    decreases |members| - index
  {
    if index == |members| then {}
    else ThingNames(members[index].thing) + RoleSlotNames(members[index].role) + MemberNames(members, index + 1)
  }

  /** A row of a match: it binds the members' variables and nothing else, and nothing as a posit. */
  ghost predicate RowOver(names: set<string>, row: Binding) {
    row.Keys == names && forall n :: n in row ==> !row[n].PositValue?
  }

  lemma MergeRowOver(a: Binding, b: Binding, p: set<string>, q: set<string>)
    requires RowOver(p, a) && RowOver(q, b)
    ensures Merge(a, b).Some? ==> RowOver(p + q, Merge(a, b).value)
  {
  }

  lemma {:induction false} MatchesOver(ctx: Context, members: seq<Member>, stored: AppearanceSet, index: nat, used: set<nat>)
    requires index <= |members|
    ensures forall row :: row in Matches(ctx, members, stored, index, used) ==> RowOver(MemberNames(members, index), row)
    decreases |members| - index, |stored| + 1
  {
    if index < |members| {
      MatchesFromOver(ctx, members, stored, index, used, 0);
    }
  }

  lemma {:induction false} MatchesFromOver(ctx: Context, members: seq<Member>, stored: AppearanceSet, index: nat, used: set<nat>, from: nat)
    requires index < |members| && from <= |stored|
    ensures forall row :: row in MatchesFrom(ctx, members, stored, index, used, from) ==> RowOver(MemberNames(members, index), row)
    decreases |members| - index, |stored| - from
  {
    hide FlatMap;
    hide Merge;
    hide Contribution;
    hide Matches;
    hide RowOver;
    if from < |stored| {
      MatchesFromOver(ctx, members, stored, index, used, from + 1);
      if from !in used {
        MatchesOver(ctx, members, stored, index + 1, used + {from});
        var own := Contribution(ctx, members[index], stored[from]);
        if own.Some? {
          ContributionOver(ctx, members[index], stored[from]);
          var rest := Matches(ctx, members, stored, index + 1, used + {from});
          forall row | row in Extend(own.value, rest) ensures RowOver(MemberNames(members, index), row) {
            ExtendMembers(own.value, rest, row);
            var tail :| tail in rest && Merge(own.value, tail) == Some(row);
            MergeRowOver(own.value, tail, ThingNames(members[index].thing) + RoleSlotNames(members[index].role), MemberNames(members, index + 1));
          }
        }
      }
    }
  }

  lemma ContributionOver(ctx: Context, member: Member, a: Appearance)
    ensures Contribution(ctx, member, a).Some? ==>
              RowOver(ThingNames(member.thing) + RoleSlotNames(member.role), Contribution(ctx, member, a).value)
  {
  }

  lemma MatchesUniform(ctx: Context, members: seq<Member>, stored: AppearanceSet)
    ensures Uniform(Matches(ctx, members, stored, 0, {}))
  {
    MatchesOver(ctx, members, stored, 0, {});
    var rows := Matches(ctx, members, stored, 0, {});
    forall x, y | x in rows && y in rows ensures x.Keys == y.Keys {
      assert RowOver(MemberNames(members, 0), x) && RowOver(MemberNames(members, 0), y);
    }
    forall x: Binding, n | x in rows && n in x ensures !x[n].PositValue? {
      assert RowOver(MemberNames(members, 0), x);
    }
  }

  // ----------------------------------------------- the relation of a set pattern

  /** The bindings a set pattern itself induces on a stored set, in visiting order. */
  ghost function OwnMatches(ctx: Context, pattern: SetPattern, stored: AppearanceSet): seq<Binding> {
    if pattern.any then [SetBinding(pattern, stored)]
    else if (!pattern.open && |pattern.members| != |stored|) || |pattern.members| > |stored| then []
    else Extend(SetBinding(pattern, stored), VisitedRows(ctx, pattern.members, stored))
  }

  ghost function VisitedRows(ctx: Context, members: seq<Member>, stored: AppearanceSet): seq<Binding> {
    var rows := Matches(ctx, members, stored, 0, {});
    if |stored| > 1 then Distinct(rows) else rows
  }

  // ------------------------------------------------------------------- methods

  /** Where a one-of slot finds a name bound, it is to the identity the context recalls. */
  ghost predicate Agreeing(slot: ThingSlot, recalled: Binding, binding: Binding) {
    slot.OneOf? ==>
      forall i :: 0 <= i < |slot.names| && slot.names[i] in binding ==>
                    slot.names[i] in recalled && Compatible(binding[slot.names[i]], recalled[slot.names[i]])
  }

  ghost predicate AllBound(slot: ThingSlot, binding: Binding) {
    slot.OneOf? ==> forall i :: 0 <= i < |slot.names| ==> slot.names[i] in binding
  }

  /** Every one-of slot finds its names bound, to the identities the context recalls. */
  ghost predicate Recallable(members: seq<Member>, recalled: Binding, binding: Binding) {
    forall m :: m in members ==> Agreeing(m.thing, recalled, binding) && AllBound(m.thing, binding)
  }

  predicate TypedMember(m: Member, domains: map<string, Domain>) {
    && (m.thing.ThingVariable? ==> m.thing.name in domains && Fits(ThingValue(0), domains[m.thing.name]))
    && (m.thing.OneOf? ==> forall i :: 0 <= i < |m.thing.names| ==>
                             m.thing.names[i] in domains && Fits(ThingValue(0), domains[m.thing.names[i]]))
    && (m.role.RoleVariable? ==> m.role.name in domains && domains[m.role.name] == RoleDomain)
  }

  predicate TypedPattern(p: SetPattern, domains: map<string, Domain>) {
    && (p.binding.Some? ==> p.binding.value in domains && domains[p.binding.value] == SetDomain)
    && (forall m :: m in p.members ==> TypedMember(m, domains))
  }

  /** Accumulates what the search offers; with several stored appearances, only first occurrences. */
  class Visitor {
    const distinct: bool
    var seen: set<Binding>
    var visited: seq<Binding>
    ghost var offered: seq<Binding>

    ghost predicate Valid()
      reads this
    {
      && (forall b :: b in seen ==> b in offered)
      && (distinct ==> (forall b :: b in offered ==> b in seen) && visited == Distinct(offered))
      && (!distinct ==> visited == offered)
    }

    constructor (distinct: bool)
      ensures Valid() && offered == [] && this.distinct == distinct
    {
      this.distinct := distinct;
      seen, visited, offered := {}, [], [];
    }

    method Visit(b: Binding)
      requires Valid()
      modifies this
      ensures Valid() && offered == old(offered) + [b]
    {
      DistinctSnoc(offered, b);
      offered := offered + [b];
      if distinct {
        if b in seen {
          return;
        }
        seen := seen + {b};
      }
      visited := visited + [b];
    }
  }

  method MatchThing(recalled: Binding, slot: ThingSlot, thing: Thing, input: Binding, ghost domains: map<string, Domain>)
    returns (matched: Result<Option<Binding>, QueryError>)
    requires Agreeing(slot, recalled, input)
    ensures matched.Ok? ==> matched.value == Join(Some(input), ThingBinding(slot, thing, recalled))
    ensures Typed(input, domains) && TypedMember(Member(slot, AnyRole), domains) ==>
              && (AllBound(slot, input) ==> matched.Ok?)
              && (matched.Ok? && matched.value.Some? ==> Typed(matched.value.value, domains))
  {
    MergeEmpty(input);
    match slot {
      case AnyThing =>
        return Ok(Some(input));
      case ThingVariable(name) =>
        if name in domains && Typed(input, domains) && Fits(ThingValue(thing), domains[name]) {
          BindTyped(input, name, ThingValue(thing), domains);
        }
        matched := BindValue(input, name, ThingValue(thing));
      case OneOf(names) =>
        hide Typed;
        var found := false;
        for i := 0 to |names|
          invariant found <==> exists k :: 0 <= k < i && names[k] in recalled && recalled[names[k]].Identity?()
                                           && recalled[names[k]].id == thing
        {
          if names[i] !in input {
            return Err(InvalidRecall(names[i]));
          }
          if !input[names[i]].Identity?() {
            TypedIdentity(input, names[i], domains);
            return Err(VariableDomain(names[i]));
          }
          found := found || input[names[i]].id == thing;
        }
        return Ok(if found then Some(input) else None);
    }
  }

  lemma TypedIdentity(input: Binding, name: string, domains: map<string, Domain>)
    requires name in input
    ensures Typed(input, domains) && name in domains && Fits(ThingValue(0), domains[name]) ==> input[name].Identity?()
  {
  }

  method MatchAppearance(ctx: Context, member: Member, stored: Appearance, input: Binding, ghost domains: map<string, Domain>)
    returns (matched: Result<Option<Binding>, QueryError>)
    requires Agreeing(member.thing, ctx.recalled, input)
    ensures matched.Ok? ==> matched.value == Join(Some(input), Contribution(ctx, member, stored))
    ensures Typed(input, domains) && TypedMember(member, domains) && AllBound(member.thing, input) ==> matched.Ok?
    ensures Typed(input, domains) && TypedMember(member, domains) && matched.Ok? && matched.value.Some? ==>
              Typed(matched.value.value, domains)
  {
    hide Merge;
    JoinAssociates(Some(input), ThingBinding(member.thing, stored.thing, ctx.recalled),
                   RoleBinding(member.role, stored.role, ctx.roleNames));
    matched := MatchThing(ctx.recalled, member.thing, stored.thing, input, domains);
    if matched.Err? || matched.value.None? {
      return matched;
    }
    var binding := matched.value.value;
    MergeEmpty(binding);
    match member.role {
      case AnyRole =>
        return Ok(Some(binding));
      case NamedRole(name) =>
        return Ok(if stored.role in ctx.roleNames && ctx.roleNames[stored.role] == name then Some(binding) else None);
      case RoleVariable(name) =>
        if name in domains && Typed(binding, domains) && Fits(RoleValue(stored.role), domains[name]) {
          BindTyped(binding, name, RoleValue(stored.role), domains);
        }
        matched := BindValue(binding, name, RoleValue(stored.role));
    }
  }

  ghost function UsedBy(used: seq<bool>): set<nat> {
    set i: nat | i < |used| && used[i]
  }

  /**
   The recursive search.  It offers the visitor the join of `binding` with every match
   of the remaining members, and leaves the used array as it found it.
   */
  method MatchMembers(ctx: Context, members: seq<Member>, stored: AppearanceSet, index: nat, used: array<bool>,
                      binding: Binding, visitor: Visitor, ghost domains: map<string, Domain>)
    returns (failure: Option<QueryError>)
    requires index <= |members| && used.Length == |stored|
    requires visitor.Valid() && Recallable(members, ctx.recalled, binding)
    modifies used, visitor
    ensures visitor.Valid()
    ensures failure.None? ==> used[..] == old(used[..])
    ensures failure.None? ==>
              visitor.offered == old(visitor.offered) + Extend(binding, Matches(ctx, members, stored, index, UsedBy(old(used[..]))))
    ensures Typed(binding, domains) && (forall m :: m in members ==> TypedMember(m, domains)) ==> failure.None?
    decreases |members| - index
  {
    hide FlatMap;
    hide Merge;
    hide Contribution;
    hide Recallable;
    hide Typed;
    hide TypedMember;
    hide Distinct;
    hide MatchesFrom;
    hide MatchesAt;
    ghost var free := UsedBy(used[..]);
    if index == |members| {
      ExtendUnit(binding);
      visitor.Visit(binding);
      return None;
    }
    for at := 0 to |stored|
      invariant visitor.Valid() && used[..] == old(used[..])
      invariant visitor.offered + Extend(binding, MatchesFrom(ctx, members, stored, index, free, at))
                == old(visitor.offered) + Extend(binding, Matches(ctx, members, stored, index, free))
    {
      ExtendMatchesFrom(ctx, members, stored, index, free, at, binding);
      if !used[at] {
        RecallableOne(members, ctx.recalled, binding, index);
        var matched := MatchAppearance(ctx, members[index], stored[at], binding, domains);
        if matched.Err? {
          return Some(matched.error);
        }
        ExtendMatchesAt(ctx, members, stored, index, free, at, binding);
        if matched.value.Some? {
          used[at] := true;
          MarkUsed(old(used[..]), used[..], at);
          RecallableExtends(members, ctx.recalled, binding, matched.value.value, Contribution(ctx, members[index], stored[at]));
          failure := MatchMembers(ctx, members, stored, index + 1, used, matched.value.value, visitor, domains);
          if failure.Some? {
            return failure;
          }
          used[at] := false;
          assert used[..] == old(used[..]);
        }
      }
    }
    ExtendMatchesEnd(ctx, members, stored, index, free, binding);
    return None;
  }

  lemma MarkUsed(before: seq<bool>, after: seq<bool>, at: nat)
    requires at < |before| && after == before[at := true]
    ensures UsedBy(after) == UsedBy(before) + {at}
  {
  }

  lemma ExtendUnit(binding: Binding)
    ensures Extend(binding, [map[]]) == [binding]
  {
    MergeEmpty(binding);
    FlatMapEmit(Some(map[]), Extending(binding));
  }

  lemma ExtendMatchesEnd(ctx: Context, members: seq<Member>, stored: AppearanceSet, index: nat, used: set<nat>, binding: Binding)
    requires index < |members|
    ensures Extend(binding, MatchesFrom(ctx, members, stored, index, used, |stored|)) == []
  {
  }

  lemma ExtendMatchesFrom(ctx: Context, members: seq<Member>, stored: AppearanceSet, index: nat, used: set<nat>, at: nat, binding: Binding)
    requires index < |members| && at < |stored|
    ensures Extend(binding, MatchesFrom(ctx, members, stored, index, used, at))
            == (if at in used then [] else Extend(binding, MatchesAt(ctx, members, stored, index, used, at)))
               + Extend(binding, MatchesFrom(ctx, members, stored, index, used, at + 1))
  {
    FlatMapConcat(MatchesAt(ctx, members, stored, index, used, at), MatchesFrom(ctx, members, stored, index, used, at + 1), Extending(binding));
  }

  lemma ExtendMatchesAt(ctx: Context, members: seq<Member>, stored: AppearanceSet, index: nat, used: set<nat>, at: nat, binding: Binding)
    requires index < |members| && at < |stored| && at !in used
    ensures Extend(binding, MatchesAt(ctx, members, stored, index, used, at))
            == ExtendOption(Join(Some(binding), Contribution(ctx, members[index], stored[at])),
                            Matches(ctx, members, stored, index + 1, used + {at}))
  {
    var own := Contribution(ctx, members[index], stored[at]);
    if own.Some? {
      ExtendExtend(binding, own.value, Matches(ctx, members, stored, index + 1, used + {at}));
    }
  }

  lemma RecallableOne(members: seq<Member>, recalled: Binding, binding: Binding, index: nat)
    requires index < |members| && Recallable(members, recalled, binding)
    ensures Agreeing(members[index].thing, recalled, binding) && AllBound(members[index].thing, binding)
  {
    assert members[index] in members;
  }

  lemma RecallableExtends(members: seq<Member>, recalled: Binding, binding: Binding, next: Binding, own: Option<Binding>)
    requires Recallable(members, recalled, binding) && Join(Some(binding), own) == Some(next)
    ensures Recallable(members, recalled, next)
  {
    forall m | m in members ensures Agreeing(m.thing, recalled, next) && AllBound(m.thing, next) {
      assert Agreeing(m.thing, recalled, binding) && AllBound(m.thing, binding);
    }
  }

  /** Matches a whole set pattern: the outcome is the join of the input with the pattern's own matches. */
  method MatchAppearanceSet(ctx: Context, pattern: SetPattern, stored: AppearanceSet, input: Binding, ghost domains: map<string, Domain>)
    returns (matched: Result<seq<Binding>, QueryError>)
    requires Recallable(pattern.members, ctx.recalled, input)
    ensures matched.Ok? ==> matched.value == Extend(input, OwnMatches(ctx, pattern, stored))
    ensures Typed(input, domains) && TypedPattern(pattern, domains) ==> matched.Ok?
  {
    hide FlatMap;
    hide Merge;
    hide Recallable;
    hide Typed;
    hide Distinct;
    hide Matches;
    ghost var own := SetBinding(pattern, stored);
    var bound := BindSet(pattern, stored, input, domains);
    if bound.Err? {
      return Err(bound.error);
    }
    ExtendOwn(ctx, pattern, stored, input);
    if bound.value.None? {
      return Ok([]);
    }
    var binding := bound.value.value;
    if pattern.any {
      return Ok([binding]);
    }
    if (!pattern.open && |pattern.members| != |stored|) || |pattern.members| > |stored| {
      return Ok([]);
    }
    RecallableExtends(pattern.members, ctx.recalled, input, binding, Some(own));
    var used := new bool[|stored|](_ => false);
    assert UsedBy(used[..]) == {};
    var visitor := new Visitor(|stored| > 1);
    var failure := MatchMembers(ctx, pattern.members, stored, 0, used, binding, visitor, domains);
    if failure.Some? {
      return Err(failure.value);
    }
    assert visitor.offered == Extend(binding, Matches(ctx, pattern.members, stored, 0, {}));
    MatchesUniform(ctx, pattern.members, stored);
    DistinctExtend(binding, Matches(ctx, pattern.members, stored, 0, {}));
    return Ok(visitor.visited);
  }

  method BindSet(pattern: SetPattern, stored: AppearanceSet, input: Binding, ghost domains: map<string, Domain>)
    returns (bound: Result<Option<Binding>, QueryError>)
    ensures bound.Ok? ==> bound.value == Merge(input, SetBinding(pattern, stored))
    ensures Typed(input, domains) && TypedPattern(pattern, domains) ==> bound.Ok?
    ensures Typed(input, domains) && TypedPattern(pattern, domains) && bound.Ok? && bound.value.Some? ==> Typed(bound.value.value, domains)
  {
    if pattern.binding.None? {
      MergeEmpty(input);
      return Ok(Some(input));
    }
    var name := pattern.binding.value;
    if name in domains && Typed(input, domains) && domains[name] == SetDomain {
      BindTyped(input, name, SetValue(stored), domains);
    }
    bound := BindValue(input, name, SetValue(stored));
  }

  /** The join of an input with a pattern's own matches, case by case. */
  lemma ExtendOwn(ctx: Context, pattern: SetPattern, stored: AppearanceSet, input: Binding)
    ensures var bound := Merge(input, SetBinding(pattern, stored));
            Extend(input, OwnMatches(ctx, pattern, stored)) ==
            if pattern.any then Emit(bound)
            else if (!pattern.open && |pattern.members| != |stored|) || |pattern.members| > |stored| then []
            else ExtendOption(bound, VisitedRows(ctx, pattern.members, stored))
  {
    FlatMapEmit(Some(SetBinding(pattern, stored)), Extending(input));
    ExtendExtend(input, SetBinding(pattern, stored), VisitedRows(ctx, pattern.members, stored));
  }

  // ------------------------------------------- what the search visits, exactly

  /** A choice of a different stored appearance, outside `used`, for every member from `index` on. */
  ghost predicate Assignment(members: seq<Member>, stored: AppearanceSet, index: nat, used: set<nat>, chosen: seq<nat>) {
    && index <= |members| && |chosen| == |members| - index
    && (forall i :: 0 <= i < |chosen| ==> chosen[i] < |stored| && chosen[i] !in used)
    && (forall i, j :: 0 <= i < j < |chosen| ==> chosen[i] != chosen[j])
  }

  /** The binding an assignment induces: the join of its members' contributions. */
  function Induced(ctx: Context, members: seq<Member>, stored: AppearanceSet, index: nat, chosen: seq<nat>): Option<Binding>
    requires index <= |members| && |chosen| == |members| - index && forall i :: 0 <= i < |chosen| ==> chosen[i] < |stored|
    decreases |chosen|
  {
    if chosen == [] then Some(map[])
    else Join(Contribution(ctx, members[index], stored[chosen[0]]), Induced(ctx, members, stored, index + 1, chosen[1..]))
  }

  ghost predicate InducedBy(ctx: Context, members: seq<Member>, stored: AppearanceSet, index: nat, used: set<nat>, chosen: seq<nat>, row: Binding) {
    Assignment(members, stored, index, used, chosen) && Induced(ctx, members, stored, index, chosen) == Some(row)
  }

  lemma {:induction false} MatchIsInduced(ctx: Context, members: seq<Member>, stored: AppearanceSet, index: nat, used: set<nat>, row: Binding)
    returns (chosen: seq<nat>)
    requires index <= |members| && row in Matches(ctx, members, stored, index, used)
    ensures InducedBy(ctx, members, stored, index, used, chosen, row)
    decreases |members| - index
  {
    hide FlatMap;
    hide Merge;
    hide Contribution;
    hide MatchesFrom;
    if index == |members| {
      chosen := [];
    } else {
      var at := MatchHasStart(ctx, members, stored, index, used, row, 0);
      var own := Contribution(ctx, members[index], stored[at]).value;
      var rest := Matches(ctx, members, stored, index + 1, used + {at});
      ExtendMembers(own, rest, row);
      var tail :| tail in rest && Merge(own, tail) == Some(row);
      var others := MatchIsInduced(ctx, members, stored, index + 1, used + {at}, tail);
      chosen := [at] + others;
      assert chosen[1..] == others;
    }
  }

  lemma {:induction false} MatchHasStart(ctx: Context, members: seq<Member>, stored: AppearanceSet, index: nat, used: set<nat>, row: Binding, from: nat)
    returns (at: nat)
    requires index < |members| && from <= |stored| && row in MatchesFrom(ctx, members, stored, index, used, from)
    ensures at < |stored| && at !in used && row in MatchesAt(ctx, members, stored, index, used, at)
    ensures Contribution(ctx, members[index], stored[at]).Some?
    decreases |stored| - from
  {
    hide FlatMap;
    hide Merge;
    hide Contribution;
    hide Matches;
    if row in MatchesAt(ctx, members, stored, index, used, from) {
      at := from;
    } else {
      at := MatchHasStart(ctx, members, stored, index, used, row, from + 1);
    }
  }

  lemma {:induction false} InducedIsMatch(ctx: Context, members: seq<Member>, stored: AppearanceSet, index: nat, used: set<nat>, chosen: seq<nat>, row: Binding)
    requires InducedBy(ctx, members, stored, index, used, chosen, row)
    ensures row in Matches(ctx, members, stored, index, used)
    decreases |members| - index
  {
    hide FlatMap;
    hide Merge;
    hide Contribution;
    hide MatchesFrom;
    if index < |members| {
      var at := chosen[0];
      var own := Contribution(ctx, members[index], stored[at]).value;
      var tail := Induced(ctx, members, stored, index + 1, chosen[1..]).value;
      InducedIsMatch(ctx, members, stored, index + 1, used + {at}, chosen[1..], tail);
      var rest := Matches(ctx, members, stored, index + 1, used + {at});
      ExtendMembers(own, rest, row);
      MatchesFromHolds(ctx, members, stored, index, used, at, 0, row);
    }
  }

  lemma {:induction false} MatchesFromHolds(ctx: Context, members: seq<Member>, stored: AppearanceSet, index: nat, used: set<nat>, at: nat, from: nat, row: Binding)
    requires index < |members| && from <= at < |stored| && row in MatchesAt(ctx, members, stored, index, used, at)
    ensures row in MatchesFrom(ctx, members, stored, index, used, from)
    decreases at - from
  {
    hide MatchesAt;
    if from < at {
      MatchesFromHolds(ctx, members, stored, index, used, at, from + 1, row);
    }
  }

  lemma SingleMatch(ctx: Context, members: seq<Member>, stored: AppearanceSet)
    requires |members| <= |stored| <= 1
    ensures |Matches(ctx, members, stored, 0, {})| <= 1
  {
    if |members| == 1 {
      assert MatchesFrom(ctx, members, stored, 0, {}, 1) == [];
      var own, rest := Contribution(ctx, members[0], stored[0]), Matches(ctx, members, stored, 1, {} + {0});
      assert MatchesAt(ctx, members, stored, 0, {}, 0) == ExtendOption(own, rest) && rest == [map[]];
      assert MatchesFrom(ctx, members, stored, 0, {}, 0) == MatchesAt(ctx, members, stored, 0, {}, 0);
      if own.Some? {
        ExtendLength(own.value, rest);
      }
    }
  }

  lemma {:induction false} ExtendLength(b: Binding, rows: seq<Binding>)
    ensures |Extend(b, rows)| <= |rows|
  {
    if rows != [] {
      ExtendLength(b, rows[..|rows| - 1]);
    }
  }

  /**
   A set pattern visits every binding its injective assignments induce on the stored
   set, each once and nothing else; a closed pattern's assignments use every stored
   appearance.
   */
  lemma VisitsExactlyTheInducedBindings(ctx: Context, pattern: SetPattern, stored: AppearanceSet, row: Binding)
    requires !pattern.any && |pattern.members| <= |stored| && (pattern.open || |pattern.members| == |stored|)
    ensures NoDuplicates(VisitedRows(ctx, pattern.members, stored))
    ensures row in VisitedRows(ctx, pattern.members, stored) <==>
            exists chosen :: InducedBy(ctx, pattern.members, stored, 0, {}, chosen, row)
    ensures !pattern.open ==> forall chosen, at: nat :: Assignment(pattern.members, stored, 0, {}, chosen) && at < |stored| ==> at in chosen
  {
    var rows := Matches(ctx, pattern.members, stored, 0, {});
    DistinctMembers(rows);
    if |stored| <= 1 {
      SingleMatch(ctx, pattern.members, stored);
    }
    if row in rows {
      var chosen := MatchIsInduced(ctx, pattern.members, stored, 0, {}, row);
    }
    if exists chosen :: InducedBy(ctx, pattern.members, stored, 0, {}, chosen, row) {
      var chosen :| InducedBy(ctx, pattern.members, stored, 0, {}, chosen, row);
      InducedIsMatch(ctx, pattern.members, stored, 0, {}, chosen, row);
    }
    if !pattern.open {
      forall chosen, at: nat | Assignment(pattern.members, stored, 0, {}, chosen) && at < |stored| ensures at in chosen {
        InjectiveIsOnto(chosen, |stored|, at);
      }
    }
  }

  /** An injective choice of n indices below n leaves none out. */
  lemma {:induction false} InjectiveIsOnto(chosen: seq<nat>, n: nat, at: nat)
    requires |chosen| == n && at < n
    requires forall i :: 0 <= i < n ==> chosen[i] < n
    requires forall i, j :: 0 <= i < j < n ==> chosen[i] != chosen[j]
    ensures at in chosen
  {
    if at !in chosen {
      var values := set i | 0 <= i < n :: chosen[i];
      CountDistinct(chosen, n);
      CountBelow(n);
      SubsetSize(values, Below(n) - {at});
      assert false;
    }
  }

  ghost function Below(n: nat): set<nat> {
    if n == 0 then {} else Below(n - 1) + {n - 1}
  }

  lemma {:induction false} CountBelow(n: nat)
    ensures |Below(n)| == n
    ensures forall v: nat :: v in Below(n) <==> v < n
  {
    if n > 0 {
      CountBelow(n - 1);
    }
  }

  lemma {:induction false} CountDistinct(chosen: seq<nat>, n: nat)
    requires n <= |chosen| && forall i, j :: 0 <= i < j < |chosen| ==> chosen[i] != chosen[j]
    ensures |set i | 0 <= i < n :: chosen[i]| == n
  {
    if n > 0 {
      CountDistinct(chosen, n - 1);
      assert (set i | 0 <= i < n :: chosen[i]) == (set i | 0 <= i < n - 1 :: chosen[i]) + {chosen[n - 1]};
    }
  }
}
