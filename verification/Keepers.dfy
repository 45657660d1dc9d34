/**
 The keepers and their derived indexes as one value, and what keeping one more construct
 does to them.  A construct equal to a kept one is never kept twice.
 */
module Keepers {
  import opened Times
  import opened Constructs
  import opened Payload
  import opened Replay

  datatype Kept = Kept(
    rolesByName: map<string, Role>,
    roles: map<Thing, Role>,
    appearances: set<Appearance>,
    sets: set<AppearanceSet>,
    propositions: map<Proposition, Thing>,
    posits: map<Thing, Posit>,
    thingToAppearances: map<Thing, set<Appearance>>,
    roleToAppearances: map<Thing, set<Appearance>>,
    appearanceToSets: map<Appearance, set<AppearanceSet>>,
    setToPosits: map<AppearanceSet, set<Thing>>,
    roleToPosits: map<Thing, set<Thing>>,
    positToSet: map<Thing, AppearanceSet>,
    positTime: map<Thing, Time>)

  const EMPTY := Kept(map[], map[], {}, {}, map[], map[], map[], map[], map[], map[], map[], map[], map[])

  /** What a query reads. */
  function View(k: Kept): Snapshot {
    Snapshot(
      map id | id in k.roles :: k.roles[id].name,
      map name | name in k.rolesByName :: k.rolesByName[name].id,
      k.appearances, k.sets, k.posits, k.thingToAppearances, k.appearanceToSets, k.setToPosits, k.roleToPosits, k.positToSet, k.positTime)
  }

  // -------------------------------------------------------------------- keeping

  function InsertPosting<K, V>(index: map<K, set<V>>, key: K, value: V): map<K, set<V>> {
    index[key := Posting(index, key) + {value}]
  }

  function IndexSet(index: map<Appearance, set<AppearanceSet>>, members: seq<Appearance>, appearanceSet: AppearanceSet): map<Appearance, set<AppearanceSet>> {
    if members == [] then index else InsertPosting(IndexSet(index, members[..|members| - 1], appearanceSet), members[|members| - 1], appearanceSet)
  }

  function IndexRoles(index: map<Thing, set<Thing>>, members: seq<Appearance>, id: Thing): map<Thing, set<Thing>> {
    if members == [] then index else InsertPosting(IndexRoles(index, members[..|members| - 1], id), members[|members| - 1].role, id)
  }

  function KeepRole(k: Kept, role: Role): Kept {
    if role.name in k.rolesByName then k
    else k.(rolesByName := k.rolesByName[role.name := role], roles := k.roles[role.id := role])
  }

  function KeepAppearance(k: Kept, a: Appearance): Kept {
    if a in k.appearances then k
    else k.(appearances := k.appearances + {a}, thingToAppearances := InsertPosting(k.thingToAppearances, a.thing, a),
            roleToAppearances := if IsReserved(k.roles, a.role) then InsertPosting(k.roleToAppearances, a.role, a) else k.roleToAppearances)
  }

  function KeepSet(k: Kept, appearanceSet: AppearanceSet): Kept {
    if appearanceSet in k.sets then k
    else k.(sets := k.sets + {appearanceSet}, appearanceToSets := IndexSet(k.appearanceToSets, appearanceSet, appearanceSet))
  }

  function KeepPosit(k: Kept, p: Posit): Kept {
    if PropositionOf(p) in k.propositions then k
    else k.(propositions := k.propositions[PropositionOf(p) := p.id], posits := k.posits[p.id := p],
            setToPosits := InsertPosting(k.setToPosits, p.appearances, p.id),
            positToSet := k.positToSet[p.id := p.appearances], positTime := k.positTime[p.id := p.time],
            roleToPosits := IndexRoles(k.roleToPosits, p.appearances, p.id))
  }

  // ------------------------------------------------------------------ the invariant

  predicate Holds(roles: map<Thing, Role>, role: Role) {
    role.id in roles && roles[role.id] == role
  }

  predicate IsReserved(roles: map<Thing, Role>, role: Thing) {
    role in roles && roles[role].reserved
  }

  ghost predicate RolesUnique(k: Kept) {
    && (forall id :: id in k.roles ==> k.roles[id].id == id && k.roles[id].name in k.rolesByName && k.rolesByName[k.roles[id].name] == k.roles[id])
    && (forall name :: name in k.rolesByName ==> k.rolesByName[name].name == name && Holds(k.roles, k.rolesByName[name]))
  }

  ghost predicate PropositionsUnique(k: Kept) {
    && (forall x :: x in k.propositions ==> k.propositions[x] in k.posits && PropositionOf(k.posits[k.propositions[x]]) == x)
    && (forall id :: id in k.posits ==> PropositionOf(k.posits[id]) in k.propositions && k.propositions[PropositionOf(k.posits[id])] == id)
  }

  /** Only reserved roles have their appearances indexed. */
  ghost predicate ReservedIndex(k: Kept) {
    forall role, a :: a in Posting(k.roleToAppearances, role) <==> IsReservedUse(k, role, a)
  }

  predicate IsReservedUse(k: Kept, role: Thing, a: Appearance) {
    a in k.appearances && a.role == role && role in k.roles && k.roles[role].reserved
  }

  ghost predicate Sound(k: Kept) {
    Indexed(View(k)) && RolesUnique(k) && PropositionsUnique(k) && ReservedIndex(k)
  }

  lemma EmptyIsSound()
    ensures Sound(EMPTY)
  {
  }

  lemma InsertedPosting<K, V>(index: map<K, set<V>>, key: K, value: V, other: K)
    ensures Posting(InsertPosting(index, key, value), other) == (if other == key then Posting(index, key) + {value} else Posting(index, other))
  {
  }

  lemma {:induction false} IndexedSet(index: map<Appearance, set<AppearanceSet>>, members: seq<Appearance>, appearanceSet: AppearanceSet, a: Appearance)
    ensures Posting(IndexSet(index, members, appearanceSet), a) == Posting(index, a) + (if a in members then {appearanceSet} else {})
  {
    if members != [] {
      var (init, last) := (members[..|members| - 1], members[|members| - 1]);
      IndexedSet(index, init, appearanceSet, a);
      InsertedPosting(IndexSet(index, init, appearanceSet), last, appearanceSet, a);
      assert members == init + [last];
    }
  }

  lemma HasRoleSnoc(init: seq<Appearance>, last: Appearance, role: Thing)
    ensures HasRole(init + [last], role) <==> HasRole(init, role) || last.role == role
  {
    var members := init + [last];
    if HasRole(init, role) {
      var i :| 0 <= i < |init| && init[i].role == role;
      assert members[i].role == role;
    }
    assert members[|init|] == last;
  }

  lemma {:induction false} IndexedRoles(index: map<Thing, set<Thing>>, members: seq<Appearance>, id: Thing, role: Thing)
    ensures Posting(IndexRoles(index, members, id), role) == Posting(index, role) + (if HasRole(members, role) then {id} else {})
  {
    hide HasRole;
    if members == [] {
      NoRole(role);
    } else {
      var (init, last) := (members[..|members| - 1], members[|members| - 1]);
      IndexedRoles(index, init, id, role);
      InsertedPosting(IndexRoles(index, init, id), last.role, id, role);
      assert members == init + [last];
      HasRoleSnoc(init, last, role);
    }
  }

  lemma NoRole(role: Thing)
    ensures !HasRole([], role)
  {
  }

  // ----------------------------------------------------- each operation keeps it sound

  // What an index says depends only on its own field and the constructs it indexes.

  lemma SameThingIndex(k: Kept, t: Kept)
    requires ThingIndex(View(k)) && t.thingToAppearances == k.thingToAppearances && t.appearances == k.appearances
    ensures ThingIndex(View(t))
  {
  }

  lemma SameSetIndex(k: Kept, t: Kept)
    requires SetIndex(View(k)) && t.appearanceToSets == k.appearanceToSets && t.sets == k.sets
    ensures SetIndex(View(t))
  {
  }

  lemma SamePositIndexes(k: Kept, t: Kept)
    requires PositIndex(View(k)) && RoleIndex(View(k)) && ReverseIndex(View(k)) && t.posits == k.posits && t.setToPosits == k.setToPosits
    requires t.roleToPosits == k.roleToPosits && t.positToSet == k.positToSet && t.positTime == k.positTime
    ensures PositIndex(View(t)) && RoleIndex(View(t)) && ReverseIndex(View(t))
  {
  }

  lemma SameRoleNames(k: Kept, t: Kept)
    requires RoleNameIndex(View(k)) && t.roles == k.roles && t.rolesByName == k.rolesByName
    ensures RoleNameIndex(View(t))
  {
    assert View(t).roleNames == View(k).roleNames && View(t).rolesByName == View(k).rolesByName;
  }

  lemma RoleKeepsSound(k: Kept, role: Role)
    requires Sound(k) && role.id !in k.roles
    ensures Sound(KeepRole(k, role))
  {
    hide Closed;
    hide RoleNameIndex;
    hide ThingIndex;
    hide SetIndex;
    hide PositIndex;
    hide RoleIndex;
    hide ReverseIndex;
    hide RolesUnique;
    hide PropositionsUnique;
    hide ReservedIndex;
    if role.name !in k.rolesByName {
      var t := KeepRole(k, role);
      RoleNamesStay(k, role);
      ReservedStays(k, role);
      SamePropositions(k, t);
      ClosedStays(k, role);
      SameThingIndex(k, t);
      SameSetIndex(k, t);
      SamePositIndexes(k, t);
    }
  }

  lemma RoleNamesStay(k: Kept, role: Role)
    requires RolesUnique(k) && role.id !in k.roles && role.name !in k.rolesByName
    ensures RolesUnique(KeepRole(k, role)) && RoleNameIndex(View(KeepRole(k, role)))
  {
    RolesUniqueOneMore(k, role);
    UniqueNames(KeepRole(k, role));
  }

  lemma RolesUniqueOneMore(k: Kept, role: Role)
    requires RolesUnique(k) && role.id !in k.roles && role.name !in k.rolesByName
    ensures RolesUnique(KeepRole(k, role))
  {
  }

  lemma UniqueNames(k: Kept)
    requires RolesUnique(k)
    ensures RoleNameIndex(View(k))
  {
  }

  lemma ReservedStays(k: Kept, role: Role)
    requires ReservedIndex(k) && Closed(View(k)) && role.id !in k.roles
    ensures ReservedIndex(KeepRole(k, role))
  {
    AppearancesHaveRoles(k);
    hide View;
    hide Closed;
    hide Posting;
    var t := KeepRole(k, role);
    assert t.roleToAppearances == k.roleToAppearances;
    forall r, a ensures IsReservedUse(t, r, a) <==> IsReservedUse(k, r, a) {
      ReservedUseStays(k, role, r, a);
    }
    hide KeepRole;
    hide IsReservedUse;
    forall r, a ensures a in Posting(t.roleToAppearances, r) <==> IsReservedUse(t, r, a) {
      assert a in Posting(k.roleToAppearances, r) <==> IsReservedUse(k, r, a);
    }
  }

  lemma ReservedUseStays(k: Kept, role: Role, r: Thing, a: Appearance)
    requires role.id !in k.roles && forall b :: b in k.appearances ==> b.role in k.roles
    ensures IsReservedUse(KeepRole(k, role), r, a) <==> IsReservedUse(k, r, a)
  {
  }

  lemma AppearancesHaveRoles(k: Kept)
    requires Closed(View(k))
    ensures forall a :: a in k.appearances ==> a.role in k.roles
  {
    forall a | a in k.appearances ensures a.role in k.roles {
      assert a.role in View(k).roleNames;
    }
  }

  lemma ClosedStays(k: Kept, role: Role)
    requires Closed(View(k)) && role.id !in k.roles
    ensures Closed(View(KeepRole(k, role)))
  {
  }

  lemma AppearanceKeepsSound(k: Kept, a: Appearance)
    requires Sound(k) && a.role in k.roles
    ensures Sound(KeepAppearance(k, a))
  {
    hide Closed;
    hide RoleNameIndex;
    hide ThingIndex;
    hide SetIndex;
    hide PositIndex;
    hide RoleIndex;
    hide ReverseIndex;
    hide RolesUnique;
    hide PropositionsUnique;
    hide ReservedIndex;
    if a !in k.appearances {
      var t := KeepAppearance(k, a);
      SameRoles(k, t);
      SamePropositions(k, t);
      AppearanceIndexed(k, a);
      ReservedIndexed(k, a);
      AppearanceClosed(k, a);
      SameRoleNames(k, t);
      SameSetIndex(k, t);
      SamePositIndexes(k, t);
    }
  }

  lemma AppearanceClosed(k: Kept, a: Appearance)
    requires Closed(View(k)) && a.role in k.roles
    ensures Closed(View(KeepAppearance(k, a)))
  {
    var t := KeepAppearance(k, a);
    assert View(t).roleNames == View(k).roleNames;
  }

  lemma AppearanceIndexed(k: Kept, a: Appearance)
    requires ThingIndex(View(k)) && a !in k.appearances
    ensures ThingIndex(View(KeepAppearance(k, a)))
  {
    var t := KeepAppearance(k, a);
    forall thing, b ensures b in Posting(t.thingToAppearances, thing) <==> b in t.appearances && b.thing == thing {
      InsertedPosting(k.thingToAppearances, a.thing, a, thing);
      assert b in Posting(View(k).thingToAppearances, thing) <==> b in View(k).appearances && b.thing == thing;
    }
  }

  lemma ReservedIndexed(k: Kept, a: Appearance)
    requires ReservedIndex(k) && a !in k.appearances
    ensures ReservedIndex(KeepAppearance(k, a))
  {
    var t := KeepAppearance(k, a);
    forall role, b ensures b in Posting(t.roleToAppearances, role) <==> IsReservedUse(t, role, b) {
      InsertedPosting(k.roleToAppearances, a.role, a, role);
      assert b in Posting(k.roleToAppearances, role) <==> IsReservedUse(k, role, b);
    }
  }

  lemma SetKeepsSound(k: Kept, appearanceSet: AppearanceSet)
    requires Sound(k) && Canonical(appearanceSet) && forall a :: a in appearanceSet ==> a in k.appearances
    ensures Sound(KeepSet(k, appearanceSet))
  {
    hide Closed;
    hide RoleNameIndex;
    hide ThingIndex;
    hide SetIndex;
    hide PositIndex;
    hide RoleIndex;
    hide ReverseIndex;
    hide RolesUnique;
    hide PropositionsUnique;
    hide ReservedIndex;
    if appearanceSet !in k.sets {
      var t := KeepSet(k, appearanceSet);
      SameReserved(k, t);
      SamePropositions(k, t);
      SameRoles(k, t);
      SetIndexed(k, appearanceSet);
      SetClosed(k, appearanceSet);
      SameRoleNames(k, t);
      SameThingIndex(k, t);
      SamePositIndexes(k, t);
    }
  }

  lemma SetClosed(k: Kept, appearanceSet: AppearanceSet)
    requires Closed(View(k)) && Canonical(appearanceSet) && forall a :: a in appearanceSet ==> a in k.appearances
    ensures Closed(View(KeepSet(k, appearanceSet)))
  {
    hide IndexSet;
    var t := KeepSet(k, appearanceSet);
    assert View(t).roleNames == View(k).roleNames;
  }

  lemma SetIndexed(k: Kept, appearanceSet: AppearanceSet)
    requires SetIndex(View(k)) && appearanceSet !in k.sets
    ensures SetIndex(View(KeepSet(k, appearanceSet)))
  {
    var t := KeepSet(k, appearanceSet);
    forall a, s ensures s in Posting(t.appearanceToSets, a) <==> s in t.sets && a in s {
      IndexedSet(k.appearanceToSets, appearanceSet, appearanceSet, a);
      assert s in Posting(View(k).appearanceToSets, a) <==> s in View(k).sets && a in s;
    }
  }

  lemma SameReserved(k: Kept, t: Kept)
    requires ReservedIndex(k) && t.roleToAppearances == k.roleToAppearances && t.appearances == k.appearances && t.roles == k.roles
    ensures ReservedIndex(t)
  {
  }

  lemma SamePropositions(k: Kept, t: Kept)
    requires PropositionsUnique(k) && t.propositions == k.propositions && t.posits == k.posits
    ensures PropositionsUnique(t)
  {
  }

  lemma SameRoles(k: Kept, t: Kept)
    requires RolesUnique(k) && t.rolesByName == k.rolesByName && t.roles == k.roles
    ensures RolesUnique(t)
  {
  }

  lemma PositKeepsSound(k: Kept, p: Posit)
    requires Sound(k) && p.appearances in k.sets && p.id !in k.posits
    ensures Sound(KeepPosit(k, p))
  {
    hide Closed;
    hide RoleNameIndex;
    hide ThingIndex;
    hide SetIndex;
    hide PositIndex;
    hide RoleIndex;
    hide ReverseIndex;
    hide RolesUnique;
    hide PropositionsUnique;
    hide ReservedIndex;
    if PropositionOf(p) !in k.propositions {
      var t := KeepPosit(k, p);
      PropositionKept(k, p);
      SameReserved(k, t);
      SameRoles(k, t);
      SameRoleNames(k, t);
      SameThingIndex(k, t);
      SameSetIndex(k, t);
      PositIndexesKept(k, p);
      PositClosed(k, p);
      PositReversed(k, p);
    }
  }

  lemma PositClosed(k: Kept, p: Posit)
    requires Closed(View(k)) && p.appearances in k.sets && PropositionOf(p) !in k.propositions
    ensures Closed(View(KeepPosit(k, p)))
  {
    hide IndexRoles;
    var t := KeepPosit(k, p);
    assert View(t).roleNames == View(k).roleNames;
  }

  lemma PositReversed(k: Kept, p: Posit)
    requires ReverseIndex(View(k)) && PropositionOf(p) !in k.propositions
    ensures ReverseIndex(View(KeepPosit(k, p)))
  {
    hide IndexRoles;
  }

  lemma PropositionKept(k: Kept, p: Posit)
    requires PropositionsUnique(k) && p.id !in k.posits && PropositionOf(p) !in k.propositions
    ensures PropositionsUnique(KeepPosit(k, p))
  {
    hide IndexRoles;
  }

  lemma PositIndexesKept(k: Kept, p: Posit)
    requires PositIndex(View(k)) && RoleIndex(View(k)) && p.id !in k.posits && PropositionOf(p) !in k.propositions
    ensures PositIndex(View(KeepPosit(k, p))) && RoleIndex(View(KeepPosit(k, p)))
  {
    var t := KeepPosit(k, p);
    forall appearanceSet, id ensures id in Posting(t.setToPosits, appearanceSet) <==> id in t.posits && t.posits[id].appearances == appearanceSet {
      InsertedPosting(k.setToPosits, p.appearances, p.id, appearanceSet);
      assert id in Posting(k.setToPosits, appearanceSet) <==> id in k.posits && k.posits[id].appearances == appearanceSet by {
        assert PositIndex(View(k));
      }
    }
    forall role, id ensures id in Posting(t.roleToPosits, role) <==> id in t.posits && HasRole(t.posits[id].appearances, role) {
      IndexedRoles(k.roleToPosits, p.appearances, p.id, role);
      assert id in Posting(k.roleToPosits, role) <==> id in k.posits && HasRole(k.posits[id].appearances, role) by {
        assert RoleIndex(View(k));
      }
    }
  }
}
