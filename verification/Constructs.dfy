/** The constructs a database keeps: roles, appearances, literals and posits. */
module Constructs {
  import opened Times

  type Thing = nat

  const GENESIS: Thing := 0
  const POSIT_ROLE: Thing := 1
  const ASCERTAINS_ROLE: Thing := 2

  datatype Family = StringFamily | IntegerFamily | DecimalFamily | CertaintyFamily | JsonFamily | TimeFamily

  /**
   A literal keeps its token exactly.  `meaning` stands for what the token parses
   to in its family: a number, a percentage, a decoded text or a JSON value.  Literals
   are the same when their tokens are: neither the family nor the meaning takes part.
   */
  datatype Literal = Literal(token: string, family: Family, meaning: int)

  datatype Appearance = Appearance(thing: Thing, role: Thing)

  /** Appearances in ascending role order, at most one Thing for each role. */
  type AppearanceSet = seq<Appearance>

  predicate Canonical(appearanceSet: AppearanceSet) {
    forall i, j :: 0 <= i < j < |appearanceSet| ==> appearanceSet[i].role < appearanceSet[j].role
  }

  datatype Posit = Posit(id: Thing, appearances: AppearanceSet, value: Literal, time: Time)

  /** Every Thing of a posit's set had its identity before the posit got its own. */
  predicate Younger(q: Posit) {
    forall a :: a in q.appearances ==> a.thing < q.id
  }

  ghost predicate HasRole(appearanceSet: AppearanceSet, role: Thing) {
    exists i :: 0 <= i < |appearanceSet| && appearanceSet[i].role == role
  }

  function Posting<K, V>(index: map<K, set<V>>, key: K): set<V> {
    if key in index then index[key] else {}
  }

  /** The keepers and the derived indexes, as one command reads them. */
  datatype Snapshot = Snapshot(
    roleNames: map<Thing, string>,
    rolesByName: map<string, Thing>,
    appearances: set<Appearance>,
    sets: set<AppearanceSet>,
    posits: map<Thing, Posit>,
    thingToAppearances: map<Thing, set<Appearance>>,
    appearanceToSets: map<Appearance, set<AppearanceSet>>,
    setToPosits: map<AppearanceSet, set<Thing>>,
    roleToPosits: map<Thing, set<Thing>>,
    positToSet: map<Thing, AppearanceSet>,
    positTime: map<Thing, Time>)

  /** The kept constructs refer only to kept constructs. */
  ghost predicate Closed(s: Snapshot) {
    && (forall appearanceSet :: appearanceSet in s.sets ==> Canonical(appearanceSet))
    && (forall appearanceSet, a :: appearanceSet in s.sets && a in appearanceSet ==> a in s.appearances)
    && (forall a :: a in s.appearances ==> a.role in s.roleNames)
    && (forall id :: id in s.posits ==> s.posits[id].id == id && s.posits[id].appearances in s.sets)
  }

  ghost predicate ThingIndex(s: Snapshot) {
    forall thing, a :: a in Posting(s.thingToAppearances, thing) <==> a in s.appearances && a.thing == thing
  }

  ghost predicate SetIndex(s: Snapshot) {
    forall a, appearanceSet :: appearanceSet in Posting(s.appearanceToSets, a) <==> appearanceSet in s.sets && a in appearanceSet
  }

  ghost predicate PositIndex(s: Snapshot) {
    forall appearanceSet, id :: id in Posting(s.setToPosits, appearanceSet) <==> id in s.posits && s.posits[id].appearances == appearanceSet
  }

  ghost predicate RoleIndex(s: Snapshot) {
    forall role, id :: id in Posting(s.roleToPosits, role) <==> id in s.posits && HasRole(s.posits[id].appearances, role)
  }

  ghost predicate ReverseIndex(s: Snapshot) {
    && s.positToSet.Keys == s.positTime.Keys == s.posits.Keys
    && (forall id :: id in s.posits ==> s.positToSet[id] == s.posits[id].appearances && s.positTime[id] == s.posits[id].time)
  }

  /** Role names are unique, and the two role maps are inverse. */
  ghost predicate RoleNameIndex(s: Snapshot) {
    && (forall name :: name in s.rolesByName ==> s.rolesByName[name] in s.roleNames && s.roleNames[s.rolesByName[name]] == name)
    && (forall role :: role in s.roleNames ==> s.roleNames[role] in s.rolesByName && s.rolesByName[s.roleNames[role]] == role)
  }

  /** Every index equals the relation derived from the kept constructs. */
  ghost predicate Indexed(s: Snapshot) {
    Closed(s) && RoleNameIndex(s) && ThingIndex(s) && SetIndex(s) && PositIndex(s) && RoleIndex(s) && ReverseIndex(s)
  }
}
