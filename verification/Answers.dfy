/**
 What a pattern answers, said of the answer itself.  A row answers a pattern on a posit
 when some choice of stored appearances for the pattern's members makes it say what every
 slot asks for, and nothing more; and a pattern's relation holds exactly the rows that
 answer it on the posits its cut and its reduction leave.
 */
module Answers {
  import opened Prelude
  import opened Sequences
  import opened Times
  import opened Constructs
  import opened Effect
  import opened Bindings
  import opened Matching
  import opened Patterns
  import opened JoinOrder
  import opened LatestPatterns

  // ------------------------------------------------------------ what a row says

  /** The row has the value under the name, as a Thing or as a posit if it is an identity. */
  predicate Says(row: Binding, n: string, v: BoundValue) {
    n in row && (row[n] == v || (v.ThingValue? && row[n] == PositValue(v.id)) || (v.PositValue? && row[n] == ThingValue(v.id)))
  }

  predicate AsPosit(row: Binding, n: string) {
    n in row && row[n].PositValue?
  }

  /** A join says what both sides say and nothing else, with an identity as a posit where either side has it so. */
  lemma MergeMeans(a: Binding, b: Binding, row: Binding)
    ensures Merge(a, b) == Some(row) <==>
            && row.Keys == a.Keys + b.Keys
            && (forall n :: n in a ==> Says(row, n, a[n])) && (forall n :: n in b ==> Says(row, n, b[n]))
            && (forall n :: AsPosit(row, n) <==> AsPosit(a, n) || AsPosit(b, n))
  {
    if Merge(a, b) == Some(row) {
      forall n | n in row ensures (n in a ==> Says(row, n, a[n])) && (n in b ==> Says(row, n, b[n])) {
      }
    }
    if && row.Keys == a.Keys + b.Keys
       && (forall n :: n in a ==> Says(row, n, a[n])) && (forall n :: n in b ==> Says(row, n, b[n]))
       && (forall n :: AsPosit(row, n) <==> AsPosit(a, n) || AsPosit(b, n))
    {
      forall n | n in a && n in b ensures Compatible(a[n], b[n]) {
        assert Says(row, n, a[n]) && Says(row, n, b[n]);
      }
      forall n | n in row ensures Merged(a, b)[n] == row[n] {
        assert AsPosit(row, n) <==> AsPosit(a, n) || AsPosit(b, n);
      }
      assert Merged(a, b) == row;
    }
  }

  // ---------------------------------------------------------------- one member

  ghost predicate ThingSays(ctx: Context, slot: ThingSlot, thing: Thing, row: Binding) {
    match slot
    case AnyThing => true
    case ThingVariable(n) => Says(row, n, ThingValue(thing))
    case OneOf(names) => exists n :: n in names && Says(ctx.recalled, n, ThingValue(thing))
  }

  ghost predicate RoleSays(ctx: Context, slot: RoleSlot, role: Thing, row: Binding) {
    match slot
    case AnyRole => true
    case NamedRole(name) => role in ctx.roleNames && ctx.roleNames[role] == name
    case RoleVariable(n) => Says(row, n, RoleValue(role))
  }

  /** A member of a pattern as the row sees the appearance chosen for it. */
  ghost predicate MemberSays(ctx: Context, m: Member, a: Appearance, row: Binding) {
    ThingSays(ctx, m.thing, a.thing, row) && RoleSays(ctx, m.role, a.role, row)
  }

  function NamesOfMember(m: Member): set<string> {
    ThingNames(m.thing) + RoleSlotNames(m.role)
  }

  /** A row over these names and no others, none of them a posit. */
  ghost predicate Over(row: Binding, names: set<string>) {
    row.Keys == names && forall n :: !AsPosit(row, n)
  }

  /** The part of a row under some names. */
  function Part(row: Binding, names: set<string>): Binding {
    map n | n in row && n in names :: row[n]
  }

  /** The sides of a join without posits are its parts. */
  lemma PartsOfJoin(a: Binding, b: Binding, row: Binding, p: set<string>, q: set<string>)
    requires Over(a, p) && Over(b, q) && Merge(a, b) == Some(row)
    ensures Over(row, p + q) && a == Part(row, p) && b == Part(row, q)
  {
    MergeMeans(a, b, row);
    hide Merge;
    forall n | n in a ensures a[n] == row[n] {
      assert !AsPosit(a, n) && !AsPosit(b, n);
    }
    forall n | n in b ensures b[n] == row[n] {
      assert !AsPosit(a, n) && !AsPosit(b, n);
    }
  }

  lemma PartsJoin(row: Binding, p: set<string>, q: set<string>)
    requires Over(row, p + q)
    ensures Over(Part(row, p), p) && Over(Part(row, q), q) && Merge(Part(row, p), Part(row, q)) == Some(row)
  {
    var (a, b) := (Part(row, p), Part(row, q));
    assert forall n :: n in a ==> a[n] == row[n];
    assert forall n :: n in b ==> b[n] == row[n];
    forall n ensures !AsPosit(a, n) && !AsPosit(b, n) {
      assert !AsPosit(row, n);
    }
    MergeMeans(a, b, row);
  }

  lemma ThingBindingMeans(ctx: Context, slot: ThingSlot, thing: Thing, row: Binding)
    ensures ThingBinding(slot, thing, ctx.recalled) == Some(row) <==> Over(row, ThingNames(slot)) && ThingSays(ctx, slot, thing, row)
  {
    if slot.OneOf? {
      RecallsMeans(slot.names, ctx.recalled, thing);
    }
    hide Recalls;
    assert row.Keys == {} ==> row == map[];
    if slot.ThingVariable? && row.Keys == {slot.name} {
      assert row == map[slot.name := row[slot.name]];
      assert AsPosit(row, slot.name) <==> row[slot.name].PositValue?;
    }
  }

  lemma RoleBindingMeans(ctx: Context, slot: RoleSlot, role: Thing, row: Binding)
    ensures RoleBinding(slot, role, ctx.roleNames) == Some(row) <==> Over(row, RoleSlotNames(slot)) && RoleSays(ctx, slot, role, row)
  {
    assert row.Keys == {} ==> row == map[];
    if slot.RoleVariable? && row.Keys == {slot.name} {
      assert row == map[slot.name := row[slot.name]];
    }
  }

  lemma SlotsSayOfPart(ctx: Context, m: Member, a: Appearance, row: Binding, x: Binding, y: Binding)
    requires x == Part(row, ThingNames(m.thing)) && y == Part(row, RoleSlotNames(m.role))
    ensures ThingSays(ctx, m.thing, a.thing, row) <==> ThingSays(ctx, m.thing, a.thing, x)
    ensures RoleSays(ctx, m.role, a.role, row) <==> RoleSays(ctx, m.role, a.role, y)
  {
  }

  lemma ContributionMeans(ctx: Context, m: Member, a: Appearance, row: Binding)
    ensures Contribution(ctx, m, a) == Some(row) <==> Over(row, NamesOfMember(m)) && MemberSays(ctx, m, a, row)
  {
    hide Merge;
    hide Recalls;
    hide Over;
    hide Part;
    var (things, roles) := (ThingNames(m.thing), RoleSlotNames(m.role));
    var (thing, role) := (Part(row, things), Part(row, roles));
    if Contribution(ctx, m, a) == Some(row) {
      var (x, y) := (ThingBinding(m.thing, a.thing, ctx.recalled).value, RoleBinding(m.role, a.role, ctx.roleNames).value);
      ThingBindingMeans(ctx, m.thing, a.thing, x);
      RoleBindingMeans(ctx, m.role, a.role, y);
      PartsOfJoin(x, y, row, things, roles);
      SlotsSayOfPart(ctx, m, a, row, x, y);
    }
    if Over(row, things + roles) && ThingSays(ctx, m.thing, a.thing, row) && RoleSays(ctx, m.role, a.role, row) {
      PartsJoin(row, things, roles);
      SlotsSayOfPart(ctx, m, a, row, thing, role);
      ThingBindingMeans(ctx, m.thing, a.thing, thing);
      RoleBindingMeans(ctx, m.role, a.role, role);
    }
  }

  lemma RecallsMeans(names: seq<string>, recalled: Binding, thing: Thing)
    ensures Recalls(names, recalled, thing) <==> exists n :: n in names && Says(recalled, n, ThingValue(thing))
  {
    if Recalls(names, recalled, thing) {
      var i :| 0 <= i < |names| && names[i] in recalled && recalled[names[i]].Identity?() && recalled[names[i]].id == thing;
      assert Says(recalled, names[i], ThingValue(thing));
    }
    if n :| n in names && Says(recalled, n, ThingValue(thing)) {
      var i :| 0 <= i < |names| && names[i] == n;
    }
  }

  // ---------------------------------------------------------- an appearance set

  /** All members from one on, each on the appearance chosen for it. */
  ghost predicate MembersSay(ctx: Context, members: seq<Member>, stored: AppearanceSet, index: nat, chosen: seq<nat>, row: Binding)
    requires index <= |members| && |chosen| == |members| - index && forall i :: 0 <= i < |chosen| ==> chosen[i] < |stored|
  {
    forall i :: 0 <= i < |chosen| ==> MemberSays(ctx, members[index + i], stored[chosen[i]], row)
  }

  /** What a member says of a row it says of every part over its names. */
  lemma MemberSaysOfPart(ctx: Context, m: Member, a: Appearance, row: Binding, part: Binding, names: set<string>)
    requires part == Part(row, names) && NamesOfMember(m) <= names
    ensures MemberSays(ctx, m, a, row) <==> MemberSays(ctx, m, a, part)
  {
  }

  lemma {:induction false} InducedMeans(ctx: Context, members: seq<Member>, stored: AppearanceSet, index: nat, chosen: seq<nat>, row: Binding)
    requires index <= |members| && |chosen| == |members| - index && forall i :: 0 <= i < |chosen| ==> chosen[i] < |stored|
    ensures Induced(ctx, members, stored, index, chosen) == Some(row)
            <==> Over(row, MemberNames(members, index)) && MembersSay(ctx, members, stored, index, chosen, row)
    decreases |chosen|
  {
    hide MemberSays;
    hide Contribution;
    hide Merge;
    hide Part;
    if chosen == [] {
      assert Over(row, {}) <==> row == map[];
    } else {
      var (m, a, rest) := (members[index], stored[chosen[0]], chosen[1..]);
      var (mine, others) := (NamesOfMember(m), MemberNames(members, index + 1));
      var (front, back) := (Part(row, mine), Part(row, others));
      FirstMember(ctx, members, stored, index, chosen, row);
      if Induced(ctx, members, stored, index, chosen) == Some(row) {
        var (own, tail) := (Contribution(ctx, m, a).value, Induced(ctx, members, stored, index + 1, rest).value);
        ContributionMeans(ctx, m, a, own);
        InducedMeans(ctx, members, stored, index + 1, rest, tail);
        PartsOfJoin(own, tail, row, mine, others);
        assert MemberSays(ctx, m, a, row) by { MemberSaysOfPart(ctx, m, a, row, own, mine); }
        forall i | 0 <= i < |rest| ensures MemberSays(ctx, members[index + 1 + i], stored[rest[i]], row) {
          NamesAmong(members, index + 1, i);
          MemberSaysOfPart(ctx, members[index + 1 + i], stored[rest[i]], row, tail, others);
        }
      }
      if Over(row, MemberNames(members, index)) && MembersSay(ctx, members, stored, index, chosen, row) {
        PartsJoin(row, mine, others);
        MemberSaysOfPart(ctx, m, a, row, front, mine);
        ContributionMeans(ctx, m, a, front);
        forall i | 0 <= i < |rest| ensures MemberSays(ctx, members[index + 1 + i], stored[rest[i]], back) {
          NamesAmong(members, index + 1, i);
          MemberSaysOfPart(ctx, members[index + 1 + i], stored[rest[i]], row, back, others);
        }
        InducedMeans(ctx, members, stored, index + 1, rest, back);
      }
    }
  }

  lemma FirstMember(ctx: Context, members: seq<Member>, stored: AppearanceSet, index: nat, chosen: seq<nat>, row: Binding)
    requires index < |members| && |chosen| == |members| - index && forall i :: 0 <= i < |chosen| ==> chosen[i] < |stored|
    ensures MembersSay(ctx, members, stored, index, chosen, row)
            <==> MemberSays(ctx, members[index], stored[chosen[0]], row) && MembersSay(ctx, members, stored, index + 1, chosen[1..], row)
    ensures MemberNames(members, index) == NamesOfMember(members[index]) + MemberNames(members, index + 1)
  {
    hide MemberSays;
    if MembersSay(ctx, members, stored, index, chosen, row) {
      forall i | 0 <= i < |chosen| - 1 ensures MemberSays(ctx, members[index + 1 + i], stored[chosen[1..][i]], row) {
        assert MemberSays(ctx, members[index + (i + 1)], stored[chosen[i + 1]], row);
      }
    }
    if MemberSays(ctx, members[index], stored[chosen[0]], row) && MembersSay(ctx, members, stored, index + 1, chosen[1..], row) {
      forall i | 0 <= i < |chosen| ensures MemberSays(ctx, members[index + i], stored[chosen[i]], row) {
        if i > 0 {
          assert MemberSays(ctx, members[index + 1 + (i - 1)], stored[chosen[1..][i - 1]], row);
        }
      }
    }
  }

  lemma {:induction false} NamesAmong(members: seq<Member>, index: nat, i: nat)
    requires index + i < |members|
    ensures NamesOfMember(members[index + i]) <= MemberNames(members, index)
    decreases i
  {
    if i > 0 {
      NamesAmong(members, index + 1, i - 1);
    }
  }


  /** A choice of a different stored appearance for every member, and of all of them unless the pattern is open. */
  predicate Chooses(pattern: SetPattern, stored: AppearanceSet, chosen: seq<nat>) {
    && |chosen| == |pattern.members| && (forall i :: 0 <= i < |chosen| ==> chosen[i] < |stored|)
    && (forall i, j :: 0 <= i < j < |chosen| ==> chosen[i] != chosen[j])
    && (pattern.open || pattern.any || |chosen| == |stored|)
  }

  ghost predicate SetSays(ctx: Context, pattern: SetPattern, stored: AppearanceSet, chosen: seq<nat>, row: Binding)
    requires Chooses(pattern, stored, chosen)
  {
    && MembersSay(ctx, pattern.members, stored, 0, chosen, row)
    && (pattern.binding.Some? ==> Says(row, pattern.binding.value, SetValue(stored)))
  }

  lemma VisitedMeans(ctx: Context, pattern: SetPattern, stored: AppearanceSet, row: Binding)
    requires !pattern.any && |pattern.members| <= |stored| && (pattern.open || |pattern.members| == |stored|)
    ensures row in VisitedRows(ctx, pattern.members, stored) <==>
            Over(row, MemberNames(pattern.members, 0))
            && exists chosen :: Chooses(pattern, stored, chosen) && MembersSay(ctx, pattern.members, stored, 0, chosen, row)
  {
    hide MembersSay;
    hide Over;
    hide VisitedRows;
    hide Induced;
    VisitsExactlyTheInducedBindings(ctx, pattern, stored, row);
    if row in VisitedRows(ctx, pattern.members, stored) {
      var chosen :| InducedBy(ctx, pattern.members, stored, 0, {}, chosen, row);
      InducedMeans(ctx, pattern.members, stored, 0, chosen, row);
      assert Chooses(pattern, stored, chosen);
    }
    if Over(row, MemberNames(pattern.members, 0)) {
      if chosen :| Chooses(pattern, stored, chosen) && MembersSay(ctx, pattern.members, stored, 0, chosen, row) {
        InducedMeans(ctx, pattern.members, stored, 0, chosen, row);
        assert InducedBy(ctx, pattern.members, stored, 0, {}, chosen, row);
      }
    }
  }

  /** A pattern matches a stored set with exactly the rows that say of some choice what its members ask, and the set itself. */
  lemma MatchMeans(ctx: Context, pattern: SetPattern, stored: AppearanceSet, row: Binding)
    requires pattern.any ==> pattern.members == []
    ensures row in OwnMatches(ctx, pattern, stored) <==>
            Over(row, StructuralNames(pattern)) && exists chosen :: Chooses(pattern, stored, chosen) && SetSays(ctx, pattern, stored, chosen, row)
  {
    hide VisitedRows;
    hide Merge;
    hide MembersSay;
    if pattern.any {
      AnyMeans(ctx, pattern, stored, row);
    } else if |pattern.members| > |stored| || (!pattern.open && |pattern.members| != |stored|) {
      forall chosen ensures !Chooses(pattern, stored, chosen) {
        TooManyMembers(pattern, stored, chosen);
      }
    } else {
      BoundMatchMeans(ctx, pattern, stored, row);
    }
  }

  lemma AnyMeans(ctx: Context, pattern: SetPattern, stored: AppearanceSet, row: Binding)
    requires pattern.any && pattern.members == []
    ensures row == SetBinding(pattern, stored) <==>
            Over(row, StructuralNames(pattern)) && exists chosen :: Chooses(pattern, stored, chosen) && SetSays(ctx, pattern, stored, chosen, row)
  {
    assert Chooses(pattern, stored, []);
    if row == SetBinding(pattern, stored) {
      assert SetSays(ctx, pattern, stored, [], row);
    }
    if Over(row, StructuralNames(pattern)) {
      if chosen :| Chooses(pattern, stored, chosen) && SetSays(ctx, pattern, stored, chosen, row) {
        assert row == SetBinding(pattern, stored);
      }
    }
  }

  lemma TooManyMembers(pattern: SetPattern, stored: AppearanceSet, chosen: seq<nat>)
    requires |pattern.members| > |stored| || (!pattern.open && !pattern.any && |pattern.members| != |stored|)
    ensures !Chooses(pattern, stored, chosen)
  {
    if Chooses(pattern, stored, chosen) {
      CountDistinct(chosen, |chosen|);
      CountBelow(|stored|);
      SubsetSize(set i | 0 <= i < |chosen| :: chosen[i], Below(|stored|));
    }
  }

  lemma SetBindingMeans(pattern: SetPattern, stored: AppearanceSet, row: Binding, members: set<string>)
    ensures Over(SetBinding(pattern, stored), NamesOf(pattern.binding))
    ensures Over(row, NamesOf(pattern.binding) + members) && (pattern.binding.Some? ==> Says(row, pattern.binding.value, SetValue(stored)))
            ==> Part(row, NamesOf(pattern.binding)) == SetBinding(pattern, stored)
    ensures Part(row, NamesOf(pattern.binding)) == SetBinding(pattern, stored) && pattern.binding.Some? ==>
              Says(row, pattern.binding.value, SetValue(stored))
  {
  }

  lemma BoundMatchMeans(ctx: Context, pattern: SetPattern, stored: AppearanceSet, row: Binding)
    requires !pattern.any && |pattern.members| <= |stored| && (pattern.open || |pattern.members| == |stored|)
    ensures row in Extend(SetBinding(pattern, stored), VisitedRows(ctx, pattern.members, stored)) <==>
            Over(row, StructuralNames(pattern)) && exists chosen :: Chooses(pattern, stored, chosen) && SetSays(ctx, pattern, stored, chosen, row)
  {
    hide VisitedRows;
    hide Merge;
    hide MembersSay;
    hide Over;
    hide Part;
    hide SetBinding;
    hide MemberNames;
    hide NamesOf;
    var (own, rows) := (SetBinding(pattern, stored), VisitedRows(ctx, pattern.members, stored));
    var (mine, others) := (NamesOf(pattern.binding), MemberNames(pattern.members, 0));
    ExtendMembers(own, rows, row);
    SetBindingMeans(pattern, stored, row, others);
    if row in Extend(own, rows) {
      var tail :| tail in rows && Merge(own, tail) == Some(row);
      VisitedMeans(ctx, pattern, stored, tail);
      PartsOfJoin(own, tail, row, mine, others);
      var chosen :| Chooses(pattern, stored, chosen) && MembersSay(ctx, pattern.members, stored, 0, chosen, tail);
      MembersSayOfPart(ctx, pattern.members, stored, chosen, row, tail);
      assert SetSays(ctx, pattern, stored, chosen, row);
    }
    if Over(row, mine + others) {
      if chosen :| Chooses(pattern, stored, chosen) && SetSays(ctx, pattern, stored, chosen, row) {
        PartsJoin(row, mine, others);
        var tail := Part(row, others);
        MembersSayOfPart(ctx, pattern.members, stored, chosen, row, tail);
        VisitedMeans(ctx, pattern, stored, tail);
        assert tail in rows && Merge(own, tail) == Some(row);
      }
    }
  }

  lemma MembersSayOfPart(ctx: Context, members: seq<Member>, stored: AppearanceSet, chosen: seq<nat>, row: Binding, part: Binding)
    requires |chosen| == |members| && (forall i :: 0 <= i < |chosen| ==> chosen[i] < |stored|) && part == Part(row, MemberNames(members, 0))
    ensures MembersSay(ctx, members, stored, 0, chosen, row) <==> MembersSay(ctx, members, stored, 0, chosen, part)
  {
    hide MemberSays;
    forall i | 0 <= i < |chosen| ensures MemberSays(ctx, members[0 + i], stored[chosen[i]], row) <==> MemberSays(ctx, members[0 + i], stored[chosen[i]], part) {
      NamesAmong(members, 0, i);
      MemberSaysOfPart(ctx, members[0 + i], stored[chosen[i]], row, part, MemberNames(members, 0));
    }
  }

  // ------------------------------------------------------------ a whole pattern

  /** Equal in meaning: numbers with numbers, and otherwise within one family; times as they are spelled. */
  predicate SameValue(a: Literal, b: Literal) {
    if a.family == TimeFamily && b.family == TimeFamily then a.token == b.token
    else (a.family == b.family || {a.family, b.family} == {IntegerFamily, DecimalFamily}) && a.meaning == b.meaning
  }

  lemma NominalMeans(a: Literal, b: Literal)
    ensures Nominal(a, b) == Ok(true) <==> SameValue(a, b)
    ensures Nominal(a, b).Ok? <==> a.family == b.family || {a.family, b.family} == {IntegerFamily, DecimalFamily}
    ensures Nominal(a, b) == Ok(false) <==> Nominal(a, b).Ok? && !SameValue(a, b)
  {
    assert {a.family, b.family} == {IntegerFamily, DecimalFamily}
           <==> (a.family == IntegerFamily && b.family == DecimalFamily) || (a.family == DecimalFamily && b.family == IntegerFamily);
  }

  ghost predicate ValueSays(slot: ValueSlot, value: Literal, row: Binding) {
    match slot
    case AnyValue => true
    case ValueVariable(n) => Says(row, n, LiteralValue(value.token))
    case ValueLiteral(literal) => SameValue(value, literal)
  }

  ghost predicate TimeSays(slot: TimeSlot, time: Time, row: Binding) {
    match slot
    case AnyTime => true
    case TimeVariable(n) => Says(row, n, TimeValue(time))
    case TimeLiteral(literal) => time == literal
  }

  /** The posit, value and time slots of a pattern as the row sees the posit. */
  ghost predicate FieldsSay(p: PositPattern, q: Posit, row: Binding) {
    (p.posit.Some? ==> Says(row, p.posit.value, PositValue(q.id))) && ValueSays(p.value, q.value, row) && TimeSays(p.time, q.time, row)
  }

  /** A row under some names, with its identities as posits under some of them and as Things elsewhere. */
  function Seen(row: Binding, names: set<string>, posits: set<string>): Binding {
    map n | n in row && n in names ::
      if row[n].Identity?() then (if n in posits then PositValue(row[n].id) else ThingValue(row[n].id)) else row[n]
  }

  lemma SeenSays(row: Binding, names: set<string>, posits: set<string>, n: string, v: BoundValue)
    requires n in names
    ensures Says(Seen(row, names, posits), n, v) <==> Says(row, n, v)
    ensures AsPosit(Seen(row, names, posits), n) <==> n in posits && n in row && row[n].Identity?()
  {
  }

  lemma SaysThrough(row: Binding, part: Binding, n: string, v: BoundValue)
    requires Says(part, n, v) && Says(row, n, part[n])
    ensures Says(row, n, v)
  {
  }

  /** Two views of one row join to the view under both names. */
  lemma SeenJoin(row: Binding, a: set<string>, x: set<string>, b: set<string>, y: set<string>)
    requires a + b <= row.Keys && x <= a && y <= b
    requires forall n :: n in x + y ==> row[n].Identity?()
    ensures Merge(Seen(row, a, x), Seen(row, b, y)) == Some(Seen(row, a + b, x + y))
  {
    var (l, r, both) := (Seen(row, a, x), Seen(row, b, y), Seen(row, a + b, x + y));
    forall n | n in l ensures Says(both, n, l[n]) {
    }
    forall n | n in r ensures Says(both, n, r[n]) {
    }
    forall n ensures AsPosit(both, n) <==> AsPosit(l, n) || AsPosit(r, n) {
    }
    MergeMeans(l, r, both);
  }

  /** The view under all names, with the identities it has as posits, is the row. */
  lemma SeenWhole(row: Binding, names: set<string>, posits: set<string>)
    requires row.Keys == names && forall n :: AsPosit(row, n) <==> n in posits
    ensures Seen(row, names, posits) == row
  {
    forall n | n in row ensures Seen(row, names, posits)[n] == row[n] {
      assert AsPosit(row, n) <==> n in posits;
    }
  }

  lemma PositBindingMeans(name: Option<string>, id: Thing, row: Binding)
    ensures PositBinding(name, id) == Some(row) <==>
            row.Keys == NamesOf(name) && (name.Some? ==> Says(row, name.value, PositValue(id))) && forall n :: n in row ==> row[n].PositValue?
  {
    if name.Some? && row.Keys == {name.value} {
      assert row == map[name.value := row[name.value]];
    } else if row.Keys == {} {
      assert row == map[];
    }
  }

  lemma ValueBindingMeans(slot: ValueSlot, value: Literal, row: Binding)
    ensures ValueBinding(slot, value) == Some(row) <==> Over(row, ValueNames(slot)) && ValueSays(slot, value, row)
  {
    if slot.ValueLiteral? {
      NominalMeans(value, slot.literal);
    }
    hide SameValue;
    hide Nominal;
    assert row.Keys == {} ==> row == map[];
    if slot.ValueVariable? && row.Keys == {slot.name} {
      assert row == map[slot.name := row[slot.name]];
    }
  }

  lemma TimeBindingMeans(slot: TimeSlot, time: Time, row: Binding)
    ensures TimeBinding(slot, time) == Some(row) <==> Over(row, TimeNames(slot)) && TimeSays(slot, time, row)
  {
    assert row.Keys == {} ==> row == map[];
    if slot.TimeVariable? && row.Keys == {slot.name} {
      assert row == map[slot.name := row[slot.name]];
    }
  }

  lemma ValueSaysThrough(slot: ValueSlot, value: Literal, row: Binding, part: Binding)
    requires forall n :: n in part ==> Says(row, n, part[n])
    ensures ValueSays(slot, value, part) ==> ValueSays(slot, value, row)
  {
    hide SameValue;
  }

  lemma TimeSaysThrough(slot: TimeSlot, time: Time, row: Binding, part: Binding)
    requires forall n :: n in part ==> Says(row, n, part[n])
    ensures TimeSays(slot, time, part) ==> TimeSays(slot, time, row)
  {
  }

  lemma FieldMeans(p: PositPattern, q: Posit, row: Binding)
    ensures FieldBinding(p, q) == Some(row)
            <==> row.Keys == FieldNames(p) && FieldsSay(p, q, row) && forall n :: AsPosit(row, n) <==> p.posit == Some(n)
  {
    if FieldBinding(p, q) == Some(row) {
      FieldsThen(p, q, row);
    }
    if row.Keys == FieldNames(p) && FieldsSay(p, q, row) && forall n :: AsPosit(row, n) <==> p.posit == Some(n) {
      ThenFields(p, q, row);
    }
  }

  lemma FieldsThen(p: PositPattern, q: Posit, row: Binding)
    requires FieldBinding(p, q) == Some(row)
    ensures row.Keys == FieldNames(p) && FieldsSay(p, q, row) && forall n :: AsPosit(row, n) <==> p.posit == Some(n)
  {
    var (x, y, z) := (PositBinding(p.posit, q.id).value, ValueBinding(p.value, q.value).value, TimeBinding(p.time, q.time).value);
    PositBindingMeans(p.posit, q.id, x);
    ValueBindingMeans(p.value, q.value, y);
    TimeBindingMeans(p.time, q.time, z);
    hide PositBinding;
    hide ValueBinding;
    hide TimeBinding;
    var both := Merge(x, y).value;
    MergeMeans(x, y, both);
    MergeMeans(both, z, row);
    hide Merge;
    forall n | n in x ensures Says(row, n, x[n]) {
      SaysThrough(row, both, n, x[n]);
    }
    forall n | n in y ensures Says(row, n, y[n]) {
      SaysThrough(row, both, n, y[n]);
    }
    ValueSaysThrough(p.value, q.value, row, y);
    TimeSaysThrough(p.time, q.time, row, z);
    hide ValueSays;
    hide TimeSays;
    assert forall n :: AsPosit(y, n) ==> false;
    assert forall n :: AsPosit(z, n) ==> false;
  }

  lemma ThenFields(p: PositPattern, q: Posit, row: Binding)
    requires row.Keys == FieldNames(p) && FieldsSay(p, q, row) && forall n :: AsPosit(row, n) <==> p.posit == Some(n)
    ensures FieldBinding(p, q) == Some(row)
  {
    var (posit, value, time) := (NamesOf(p.posit), ValueNames(p.value), TimeNames(p.time));
    var (x, y, z) := (Seen(row, posit, posit), Seen(row, value, {}), Seen(row, time, {}));
    assert forall n :: n in posit ==> row[n].Identity?();
    forall n ensures n in posit <==> AsPosit(row, n) {
    }
    SeenJoin(row, posit, posit, value, {});
    SeenJoin(row, posit + value, posit, time, {});
    assert posit + {} == posit;
    SeenWhole(row, posit + value + time, posit);
    hide Merge;
    if p.posit.Some? {
      SeenSays(row, posit, posit, p.posit.value, PositValue(q.id));
    }
    PositBindingMeans(p.posit, q.id, x);
    ValueOfSeen(p.value, q.value, row);
    ValueBindingMeans(p.value, q.value, y);
    TimeOfSeen(p.time, q.time, row);
    TimeBindingMeans(p.time, q.time, z);
    hide Seen;
    hide Merge;
    hide PositBinding;
    hide ValueBinding;
    hide TimeBinding;
  }

  lemma ValueOfSeen(slot: ValueSlot, value: Literal, row: Binding)
    requires ValueSays(slot, value, row) && ValueNames(slot) <= row.Keys
    ensures var part := Seen(row, ValueNames(slot), {}); Over(part, ValueNames(slot)) && ValueSays(slot, value, part)
  {
    hide SameValue;
  }

  lemma TimeOfSeen(slot: TimeSlot, time: Time, row: Binding)
    requires TimeSays(slot, time, row) && TimeNames(slot) <= row.Keys
    ensures var part := Seen(row, TimeNames(slot), {}); Over(part, TimeNames(slot)) && TimeSays(slot, time, part)
  {
  }

  /** A row answers a pattern on a posit, from an input, by a choice of stored appearances. */
  ghost predicate AnswersBy(ctx: Context, p: PositPattern, q: Posit, input: Binding, chosen: seq<nat>, row: Binding) {
    && Chooses(p.appearances, q.appearances, chosen)
    && row.Keys == input.Keys + StructuralNames(p.appearances) + FieldNames(p)
    && (forall n :: n in input ==> Says(row, n, input[n]))
    && SetSays(ctx, p.appearances, q.appearances, chosen, row) && FieldsSay(p, q, row)
    && (forall n :: AsPosit(row, n) <==> AsPosit(input, n) || p.posit == Some(n))
  }

  ghost predicate Answers(ctx: Context, p: PositPattern, q: Posit, input: Binding, row: Binding) {
    exists chosen :: AnswersBy(ctx, p, q, input, chosen, row)
  }

  lemma SetSaysThrough(ctx: Context, pattern: SetPattern, stored: AppearanceSet, chosen: seq<nat>, row: Binding, part: Binding)
    requires Chooses(pattern, stored, chosen) && SetSays(ctx, pattern, stored, chosen, part) && forall n :: n in part ==> Says(row, n, part[n])
    ensures SetSays(ctx, pattern, stored, chosen, row)
  {
    forall i | 0 <= i < |chosen| ensures MemberSays(ctx, pattern.members[0 + i], stored[chosen[i]], row) {
      assert MemberSays(ctx, pattern.members[0 + i], stored[chosen[i]], part);
    }
  }

  lemma SetSaysOfSeen(ctx: Context, pattern: SetPattern, stored: AppearanceSet, chosen: seq<nat>, row: Binding)
    requires Chooses(pattern, stored, chosen) && SetSays(ctx, pattern, stored, chosen, row) && StructuralNames(pattern) <= row.Keys
    ensures var part := Seen(row, StructuralNames(pattern), {}); Over(part, StructuralNames(pattern)) && SetSays(ctx, pattern, stored, chosen, part)
  {
    var part := Seen(row, StructuralNames(pattern), {});
    forall i | 0 <= i < |chosen| ensures MemberSays(ctx, pattern.members[0 + i], stored[chosen[i]], part) {
      assert MemberSays(ctx, pattern.members[0 + i], stored[chosen[i]], row);
      NamesAmong(pattern.members, 0, i);
    }
    hide MemberSays;
    hide MemberNames;
  }

  lemma FieldsSayThrough(p: PositPattern, q: Posit, row: Binding, part: Binding)
    requires FieldsSay(p, q, part) && forall n :: n in part ==> Says(row, n, part[n])
    ensures FieldsSay(p, q, row)
  {
    ValueSaysThrough(p.value, q.value, row, part);
    TimeSaysThrough(p.time, q.time, row, part);
    hide ValueSays;
    hide TimeSays;
  }

  lemma FieldsSayOfSeen(p: PositPattern, q: Posit, row: Binding)
    requires FieldsSay(p, q, row) && FieldNames(p) <= row.Keys
    ensures var part := Seen(row, FieldNames(p), NamesOf(p.posit));
            && part.Keys == FieldNames(p) && FieldsSay(p, q, part) && forall n :: AsPosit(part, n) <==> p.posit == Some(n)
  {
    hide SameValue;
  }

  /** One pattern on one posit yields exactly the rows that answer it there. */
  lemma OnPositMeans(ctx: Context, p: PositPattern, q: Posit, input: Binding, row: Binding)
    requires p.appearances.any ==> p.appearances.members == []
    ensures row in OnPosit(ctx, p, q, input) <==> Answers(ctx, p, q, input, row)
  {
    if row in OnPosit(ctx, p, q, input) {
      var chosen := OnPositThen(ctx, p, q, input, row);
    }
    if chosen :| AnswersBy(ctx, p, q, input, chosen, row) {
      ThenOnPosit(ctx, p, q, input, chosen, row);
    }
  }

  lemma OnPositThen(ctx: Context, p: PositPattern, q: Posit, input: Binding, row: Binding) returns (chosen: seq<nat>)
    requires row in OnPosit(ctx, p, q, input) && (p.appearances.any ==> p.appearances.members == [])
    ensures AnswersBy(ctx, p, q, input, chosen, row)
  {
    hide OwnMatches;
    hide FieldBinding;
    hide FlatMap;
    hide Merge;
    hide AnswersBy;
    var matches := OwnMatches(ctx, p.appearances, q.appearances);
    var f := FieldBinding(p, q).value;
    ExtendMembers(f, Extend(input, matches), row);
    var y :| y in Extend(input, matches) && Merge(f, y) == Some(row);
    ExtendMembers(input, matches, y);
    var m :| m in matches && Merge(input, m) == Some(y);
    MatchMeans(ctx, p.appearances, q.appearances, m);
    chosen :| Chooses(p.appearances, q.appearances, chosen) && SetSays(ctx, p.appearances, q.appearances, chosen, m);
    JoinedAnswers(ctx, p, q, input, chosen, m, y, f, row);
  }

  lemma JoinedAnswers(ctx: Context, p: PositPattern, q: Posit, input: Binding, chosen: seq<nat>, m: Binding, y: Binding, f: Binding, row: Binding)
    requires Over(m, StructuralNames(p.appearances)) && Chooses(p.appearances, q.appearances, chosen) && SetSays(ctx, p.appearances, q.appearances, chosen, m)
    requires Merge(input, m) == Some(y) && FieldBinding(p, q) == Some(f) && Merge(f, y) == Some(row)
    ensures AnswersBy(ctx, p, q, input, chosen, row)
  {
    hide FieldBinding;
    hide SetSays;
    hide FieldsSay;
    hide Chooses;
    hide StructuralNames;
    hide FieldNames;
    MergeMeans(f, y, row);
    MergeMeans(input, m, y);
    hide Merge;
    FieldMeans(p, q, f);
    forall n | n in input ensures Says(row, n, input[n]) {
      SaysThrough(row, y, n, input[n]);
    }
    forall n | n in m ensures Says(row, n, m[n]) {
      SaysThrough(row, y, n, m[n]);
    }
    SetSaysThrough(ctx, p.appearances, q.appearances, chosen, row, m);
    FieldsSayThrough(p, q, row, f);
    hide Says;
    forall n ensures AsPosit(row, n) <==> AsPosit(input, n) || p.posit == Some(n) {
      assert !AsPosit(m, n);
    }
  }

  lemma ThenOnPosit(ctx: Context, p: PositPattern, q: Posit, input: Binding, chosen: seq<nat>, row: Binding)
    requires AnswersBy(ctx, p, q, input, chosen, row) && (p.appearances.any ==> p.appearances.members == [])
    ensures row in OnPosit(ctx, p, q, input)
  {
    hide OwnMatches;
    hide FieldBinding;
    hide FlatMap;
    var (structural, fields) := (StructuralNames(p.appearances), FieldNames(p));
    var posits := set n | n in input && input[n].PositValue?;
    var (m, y, f) := (Seen(row, structural, {}), Seen(row, input.Keys + structural, posits), Seen(row, fields, NamesOf(p.posit)));
    SetSaysOfSeen(ctx, p.appearances, q.appearances, chosen, row);
    MatchMeans(ctx, p.appearances, q.appearances, m);
    FieldsSayOfSeen(p, q, row);
    FieldMeans(p, q, f);
    hide SetSays;
    hide FieldsSay;
    hide StructuralNames;
    InputIsSeen(input, row, structural, m, y, posits);
    SeenFields(p, q, input, row, structural, f, y, posits);
    hide Merge;
    var matches := OwnMatches(ctx, p.appearances, q.appearances);
    ExtendMembers(input, matches, y);
    ExtendMembers(f, Extend(input, matches), row);
  }

  lemma InputIsSeen(input: Binding, row: Binding, structural: set<string>, m: Binding, y: Binding, posits: set<string>)
    requires input.Keys + structural <= row.Keys && (forall n :: n in input ==> Says(row, n, input[n]))
    requires posits == set n | n in input && input[n].PositValue?
    requires m == Seen(row, structural, {}) && y == Seen(row, input.Keys + structural, posits)
    ensures Merge(input, m) == Some(y)
  {
    forall n | n in input ensures Says(y, n, input[n]) {
      SeenSays(row, input.Keys + structural, posits, n, input[n]);
    }
    forall n | n in m ensures Says(y, n, m[n]) {
    }
    forall n ensures AsPosit(y, n) <==> AsPosit(input, n) || AsPosit(m, n) {
      assert n in posits <==> AsPosit(input, n);
      assert n in posits ==> Says(row, n, input[n]);
    }
    MergeMeans(input, m, y);
  }

  lemma SeenFields(p: PositPattern, q: Posit, input: Binding, row: Binding, structural: set<string>, f: Binding, y: Binding, posits: set<string>)
    requires row.Keys == input.Keys + structural + FieldNames(p)
    requires posits == set n | n in input && input[n].PositValue?
    requires f == Seen(row, FieldNames(p), NamesOf(p.posit)) && y == Seen(row, input.Keys + structural, posits)
    requires (forall n :: n in input ==> Says(row, n, input[n])) && (p.posit.Some? ==> Says(row, p.posit.value, PositValue(q.id)))
    requires forall n :: AsPosit(row, n) <==> AsPosit(input, n) || p.posit == Some(n)
    ensures Merge(f, y) == Some(row)
  {
    forall n | n in posits ensures row[n].Identity?() {
      assert Says(row, n, input[n]);
    }
    SeenJoin(row, FieldNames(p), NamesOf(p.posit), input.Keys + structural, posits);
    SeenWhole(row, FieldNames(p) + (input.Keys + structural), NamesOf(p.posit) + posits);
  }

  // ------------------------------------------------------------------ relations

  predicate WellMade(p: PositPattern) {
    p.appearances.any ==> p.appearances.members == []
  }

  /** The pattern without its posit, value and time slots. */
  function Bare(p: PositPattern): PositPattern {
    p.(posit := None, value := AnyValue, time := AnyTime)
  }

  /** What counts against an earlier posit: all that answers the pattern, or without `latest` its appearance set alone. */
  ghost predicate Counts(ctx: Context, p: PositPattern, own: Binding, other: Posit, z: Binding) {
    Answers(ctx, if p.latest then p else Bare(p), other, own, z)
  }

  /** A posit of the cut's snapshot: over by the cut, and nothing that counts against it is definitely after it. */
  ghost predicate InSnapshot(ctx: Context, p: PositPattern, posits: seq<Posit>, cut: Time, own: Binding, q: Posit) {
    && q in posits && OverBy(q.time, cut)
    && forall other, z ::
         other in posits && OverBy(other.time, cut) && other.appearances == q.appearances && Counts(ctx, p, own, other, z) ==>
           !DefinitelyBefore(q.time, other.time)
  }

  ghost predicate Selects(ctx: Context, p: PositPattern, posits: seq<Posit>, cut: Option<Time>, own: Binding, q: Posit) {
    if cut.None? then q in posits else InSnapshot(ctx, p, posits, cut.value, own, q)
  }

  lemma WithinMeans(posits: seq<Posit>, cut: Option<Time>, q: Posit)
    ensures q in Keep(posits, Within(cut)) <==> q in posits && (cut.Some? ==> OverBy(q.time, cut.value))
  {
    KeepMembers(posits, Within(cut), q);
    if cut.Some? {
      AtOrBeforeMeans(q.time, cut.value);
    }
  }

  /** A posit is not superseded when nothing of its set that the cut lets in and the pattern answers is after it. */
  lemma SupersededMeans(ctx: Context, p: PositPattern, posits: seq<Posit>, cut: Time, own: Binding, q: Posit)
    requires WellMade(p)
    ensures Superseded(ctx, p, Keep(posits, Within(Some(cut))), own, q)
            <==> exists other, z :: other in posits && OverBy(other.time, cut) && other.appearances == q.appearances
                                    && Answers(ctx, p, other, own, z) && DefinitelyBefore(q.time, other.time)
  {
    hide OnPosit;
    hide Answers;
    hide OverBy;
    hide Keep;
    hide DefinitelyBefore;
    var eligible := Keep(posits, Within(Some(cut)));
    if Superseded(ctx, p, eligible, own, q) {
      var other :| other in eligible && other.appearances == q.appearances && OnPosit(ctx, p, other, own) != [] && DefinitelyBefore(q.time, other.time);
      var z := OnPosit(ctx, p, other, own)[0];
      WithinMeans(posits, Some(cut), other);
      OnPositMeans(ctx, p, other, own, z);
    }
    if other, z :| other in posits && OverBy(other.time, cut) && other.appearances == q.appearances
                   && Answers(ctx, p, other, own, z) && DefinitelyBefore(q.time, other.time) {
      WithinMeans(posits, Some(cut), other);
      OnPositMeans(ctx, p, other, own, z);
    }
  }

  lemma BareRows(ctx: Context, p: PositPattern, posits: seq<Posit>, cut: Option<Time>, own: Binding)
    ensures CandidateRows(ctx, Bare(p), posits, cut, own) == StructuralRows(ctx, p, posits, cut, own)
  {
    hide Merge;
    hide Structural;
    var rows := StructuralRows(ctx, p, posits, cut, own);
    BareFields(p);
    SameStructure(ctx, p, posits, cut, own);
    FieldsOfNothing(p, rows);
  }

  lemma SameStructure(ctx: Context, p: PositPattern, posits: seq<Posit>, cut: Option<Time>, own: Binding)
    ensures StructuralRows(ctx, Bare(p), posits, cut, own) == StructuralRows(ctx, p, posits, cut, own)
  {
    FlatMapAgree(Keep(posits, Within(cut)), Structural(ctx, Bare(p), own), Structural(ctx, p, own));
  }

  lemma BareFields(p: PositPattern)
    ensures forall q :: FieldBinding(Bare(p), q) == Some(map[])
  {
    MergeEmpty(map[]);
  }

  lemma {:induction false} FieldsOfNothing(p: PositPattern, rows: seq<StructuralMatch>)
    ensures FieldRows(Bare(p), rows) == rows
  {
    hide FieldBinding;
    hide Merge;
    if rows != [] {
      var (front, last) := (rows[..|rows| - 1], rows[|rows| - 1]);
      FieldsOfNothing(p, front);
      BareFields(p);
      MergeEmpty(last.binding);
      FlatMapSnoc(front, last, Fielding(Bare(p)));
      assert rows == front + [last];
    }
  }

  lemma SnapshotMeans(ctx: Context, p: PositPattern, posits: seq<Posit>, cut: Time, own: Binding, q: Posit)
    requires WellMade(p)
    ensures InSnapshot(ctx, p, posits, cut, own, q)
            <==> q in posits && OverBy(q.time, cut)
                 && !Superseded(ctx, if p.latest then p else Bare(p), Keep(posits, Within(Some(cut))), own, q)
  {
    var counting := if p.latest then p else Bare(p);
    SupersededMeans(ctx, counting, posits, cut, own, q);
    hide Superseded;
    hide Answers;
    hide OverBy;
    hide DefinitelyBefore;
    forall other, z ensures Counts(ctx, p, own, other, z) <==> Answers(ctx, counting, other, own, z) {
    }
  }

  /** The selected rows are those that answer the pattern on the posits it selects. */
  lemma SelectedMeans(ctx: Context, p: PositPattern, posits: seq<Posit>, cut: Option<Time>, own: Binding, row: StructuralMatch)
    requires WellMade(p)
    ensures row in SelectedRows(ctx, p, posits, cut, own)
            <==> Selects(ctx, p, posits, cut, own, row.posit) && Answers(ctx, p, row.posit, own, row.binding)
  {
    hide OnPosit;
    hide Answers;
    hide OverBy;
    hide Keep;
    hide FlatMap;
    hide DefinitelyBefore;
    hide Reduced;
    OnPositMeans(ctx, p, row.posit, own, row.binding);
    CandidateRowsByPosit(ctx, p, posits, cut, own);
    WithinMeans(posits, cut, row.posit);
    hide Superseded;
    if cut.Some? {
      SnapshotMeans(ctx, p, posits, cut.value, own, row.posit);
      hide InSnapshot;
      if p.latest {
        ReducedCandidates(ctx, p, posits, cut, own);
      } else {
        EarlyReduction(ctx, p, posits, cut, own, row);
      }
    }
  }

  /** Before any reduction, a pattern's structural rows are its set's matches on the posits that are over by the cut. */
  lemma StructuralMeans(ctx: Context, p: PositPattern, posits: seq<Posit>, cut: Option<Time>, own: Binding, row: StructuralMatch)
    ensures row in StructuralRows(ctx, p, posits, cut, own)
            <==> row.posit in posits && (cut.Some? ==> OverBy(row.posit.time, cut.value))
                 && row.binding in Extend(own, OwnMatches(ctx, p.appearances, row.posit.appearances))
  {
    hide OwnMatches;
    hide Keep;
    hide OverBy;
    hide FlatMap;
    WithinMeans(posits, cut, row.posit);
    FlatMapMembers(Keep(posits, Within(cut)), Structural(ctx, p, own), row);
    forall q ensures row in Structural(ctx, p, own)(q) <==> q == row.posit && row.binding in Extend(own, OwnMatches(ctx, p.appearances, q.appearances)) {
      FlatMapMembers(Extend(own, OwnMatches(ctx, p.appearances, q.appearances)), Tagging(q), row);
    }
    hide Structural;
  }

  /** Reducing before the fields: what a posit's fields say has no part in it. */
  lemma EarlyReduction(ctx: Context, p: PositPattern, posits: seq<Posit>, cut: Option<Time>, own: Binding, row: StructuralMatch)
    ensures row in FieldRows(p, Reduced(StructuralRows(ctx, p, posits, cut, own)))
            <==> row in FieldRows(p, StructuralRows(ctx, p, posits, cut, own))
                 && !Superseded(ctx, Bare(p), Keep(posits, Within(cut)), own, row.posit)
  {
    hide OnPosit;
    hide Keep;
    hide FlatMap;
    hide Reduced;
    hide Superseded;
    hide FieldBinding;
    var rows := StructuralRows(ctx, p, posits, cut, own);
    BareRows(ctx, p, posits, cut, own);
    ReducedCandidates(ctx, Bare(p), posits, cut, own);
    hide StructuralRows;
    hide CandidateRows;
    FlatMapMembers(Reduced(rows), Fielding(p), row);
    FlatMapMembers(rows, Fielding(p), row);
    forall m | row in Fielding(p)(m) ensures m.posit == row.posit {
    }
    hide Fielding;
  }

  /** A scan's bindings: the input joined with a row that answers the pattern on a selected posit. */
  lemma ScanMeans(ctx: Context, p: PositPattern, posits: seq<Posit>, cut: Option<Time>, input: Binding, row: Binding)
    requires WellMade(p)
    ensures var own := StructuralInput(p, input);
            row in ScanRelation(ctx, p, posits, cut, input)
            <==> exists q, x :: Selects(ctx, p, posits, cut, own, q) && Answers(ctx, p, q, own, x) && Merge(input, x) == Some(row)
  {
    hide Selects;
    hide Answers;
    hide Merge;
    hide FlatMap;
    hide SelectedRows;
    hide StructuralInput;
    var own := StructuralInput(p, input);
    var rows := SelectedRows(ctx, p, posits, cut, own);
    ExtendMembers(input, FlatMap(rows, BindingOf), row);
    if row in ScanRelation(ctx, p, posits, cut, input) {
      var x :| x in FlatMap(rows, BindingOf) && Merge(input, x) == Some(row);
      FlatMapMembers(rows, BindingOf, x);
      var m :| m in rows && x in BindingOf(m);
      SelectedMeans(ctx, p, posits, cut, own, m);
    }
    if q, x :| Selects(ctx, p, posits, cut, own, q) && Answers(ctx, p, q, own, x) && Merge(input, x) == Some(row) {
      var m := StructuralMatch(q, x);
      SelectedMeans(ctx, p, posits, cut, own, m);
      FlatMapMembers(rows, BindingOf, x);
      assert x in BindingOf(m);
    }
  }

  lemma AllPositsMeans(s: Snapshot, q: Posit)
    requires Closed(s)
    ensures q in AllPosits(s) <==> q.id in s.posits && s.posits[q.id] == q
  {
    var ids := SortedOf(s.posits.Keys);
    if q.id in s.posits && s.posits[q.id] == q {
      var i :| 0 <= i < |ids| && ids[i] == q.id;
      assert AllPosits(s)[i] == q;
    }
  }

  /** A plain pattern's relation holds the rows that answer it on some kept posit. */
  lemma PlainAnswers(s: Snapshot, p: PositPattern, input: Binding, row: Binding)
    requires Closed(s) && WellMade(p) && p.effect.None? && p.cutoff.None?
    ensures row in Relation(s, p, input)
            <==> exists q: Posit :: q.id in s.posits && s.posits[q.id] == q && Answers(Context(s.roleNames, input), p, q, input, row)
  {
    hide Answers;
    hide AllPosits;
    hide ScanRelation;
    hide Merge;
    hide Closed;
    var ctx := Context(s.roleNames, input);
    assert StructuralInput(p, input) == input;
    assert Relation(s, p, input) == ScanRelation(ctx, p, AllPosits(s), None, input);
    ScanMeans(ctx, p, AllPosits(s), None, input, row);
    forall q, x | Answers(ctx, p, q, input, x) ensures Merge(input, x) == Some(x) {
      OnPositMeans(ctx, p, q, input, x);
      OwnRowsAbsorb(ctx, p, input, q, x);
    }
    forall q ensures q in AllPosits(s) <==> q.id in s.posits && s.posits[q.id] == q {
      AllPositsMeans(s, q);
    }
    assert forall q :: Selects(ctx, p, AllPosits(s), None, input, q) <==> q in AllPosits(s);
    hide Selects;
    if row in Relation(s, p, input) {
      var q, x :| Selects(ctx, p, AllPosits(s), None, input, q) && Answers(ctx, p, q, input, x) && Merge(input, x) == Some(row);
      assert x == row && q in AllPosits(s);
      assert q.id in s.posits && s.posits[q.id] == q && Answers(ctx, p, q, input, row);
    }
    if q: Posit :| q.id in s.posits && s.posits[q.id] == q && Answers(ctx, p, q, input, row) {
      assert Selects(ctx, p, AllPosits(s), None, input, q) && Answers(ctx, p, q, input, row) && Merge(input, row) == Some(row);
      assert row in ScanRelation(ctx, p, AllPosits(s), None, input);
    }
  }

  /** The cutoff of a pattern, as an input settles it. */
  predicate CutIs(c: Cutoff, input: Binding, cut: Time) {
    c == CutoffAt(cut) || (c.CutoffVariable? && c.name in input && input[c.name] == TimeValue(cut))
  }

  /** A pattern with a cutoff does not see what the input says of its own fields, unless it recalls or matches them. */
  lemma SeenBeforeFields(p: PositPattern, input: Binding, n: string)
    ensures n in StructuralInput(p, input)
            <==> n in input && (p.cutoff.None? || n !in FieldNames(p) || n in Dependencies(p) || n in StructuralNames(p.appearances))
    ensures n in StructuralInput(p, input) ==> StructuralInput(p, input)[n] == input[n]
  {
    hide Dependencies;
    hide FieldNames;
    hide StructuralNames;
  }

  /** With a cutoff, the input joined with a row that answers the pattern on a posit of its snapshot. */
  lemma SnapshotAnswers(s: Snapshot, p: PositPattern, input: Binding, cut: Time, row: Binding)
    requires Closed(s) && WellMade(p) && p.effect.None? && p.cutoff.Some? && CutIs(p.cutoff.value, input, cut)
    ensures var (ctx, own) := (Context(s.roleNames, input), StructuralInput(p, input));
            row in Relation(s, p, input)
            <==> exists q, x :: InSnapshot(ctx, p, AllPosits(s), cut, own, q) && Answers(ctx, p, q, own, x) && Merge(input, x) == Some(row)
  {
    hide Answers;
    hide AllPosits;
    hide ScanRelation;
    hide Merge;
    hide InSnapshot;
    hide StructuralInput;
    var (ctx, own) := (Context(s.roleNames, input), StructuralInput(p, input));
    assert ResolvedCutoff(p.cutoff.value, input) == Ok(cut);
    ScanMeans(ctx, p, AllPosits(s), Some(cut), input, row);
    assert forall q :: Selects(ctx, p, AllPosits(s), Some(cut), own, q) <==> InSnapshot(ctx, p, AllPosits(s), cut, own, q);
    hide Selects;
  }

  /** A row answers an in-effect pattern on evidence: on its target, and then on its assertion for a `via` pattern. */
  ghost predicate AnswersOn(ctx: Context, p: PositPattern, via: Option<PositPattern>, e: Evidence, input: Binding, row: Binding) {
    match via
    case None => Answers(ctx, p, e.target, input, row)
    case Some(v) => exists y :: Answers(ctx, p, e.target, input, y) && Answers(ctx, v, e.assertion, y, row)
  }

  lemma OnEvidenceMeans(ctx: Context, p: PositPattern, via: Option<PositPattern>, e: Evidence, input: Binding, row: Binding)
    requires WellMade(p) && (via.Some? ==> WellMade(via.value))
    ensures row in OnEvidence(ctx, p, via, input)(e) <==> AnswersOn(ctx, p, via, e, input, row)
  {
    hide OnPosit;
    hide Answers;
    hide FlatMap;
    if via.None? {
      OnPositMeans(ctx, p, e.target, input, row);
    } else {
      FlatMapMembers(OnPosit(ctx, p, e.target, input), ViaRows(ctx, via.value, e.assertion), row);
      forall y ensures y in OnPosit(ctx, p, e.target, input) <==> Answers(ctx, p, e.target, input, y) {
        OnPositMeans(ctx, p, e.target, input, y);
      }
      forall y ensures row in ViaRows(ctx, via.value, e.assertion)(y) <==> Answers(ctx, via.value, e.assertion, y, row) {
        OnPositMeans(ctx, via.value, e.assertion, y, row);
      }
    }
  }

  /** An in-effect pattern's relation holds the rows that answer it on the information in effect at its cuts. */
  lemma EffectAnswers(s: Snapshot, p: PositPattern, e: EffectPattern, input: Binding, cut: Cut, row: Binding)
    requires Indexed(s) && WellMade(p) && p.effect == Some(e) && (e.via.Some? ==> WellMade(e.via.value))
    requires CutIs(e.assertionCutoff, input, cut.assertion) && CutIs(e.appearanceCutoff, input, cut.appearance)
    requires EligibleRows(s.posits, cut, SortedOf(CandidateIdentities(s))).Ok?
    ensures row in Relation(s, p, input)
            <==> exists evidence :: EffectiveAt(s, cut, evidence) && AnswersOn(Context(s.roleNames, input), p, e.via, evidence, input, row)
  {
    hide AnswersOn;
    hide EffectiveAt;
    hide EffectiveRows;
    hide EligibleRows;
    hide FlatMap;
    hide Indexed;
    var ctx := Context(s.roleNames, input);
    var rows := SliceAt(s, cut);
    FlatMapMembers(rows, OnEvidence(ctx, p, e.via, input), row);
    forall x: Evidence ensures x in rows <==> EffectiveAt(s, cut, x) {
      EffectMeans(s, cut, x);
    }
    forall x: Evidence ensures row in OnEvidence(ctx, p, e.via, input)(x) <==> AnswersOn(ctx, p, e.via, x, input, row) {
      OnEvidenceMeans(ctx, p, e.via, x, input, row);
    }
    hide OnEvidence;
  }
}
