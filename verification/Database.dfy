/**
 The database: identity generator, hash-consing keepers with their derived indexes, and
 the commands that stage constructs, append one durable batch and only then keep them.
 Whether an append succeeds is the caller's to say: it is the store's answer.
 */
module Databases {
  import opened Prelude
  import opened Encoding
  import opened Frames
  import opened Times
  import opened Constructs
  import opened Payload
  import opened PositCodec
  import opened Replay
  import Keepers
  import opened Logging

  datatype CommandError = Execution | InvalidAppearanceSet | Invariant | Persistence | DataCorruption

  /** Identities only grow; releasing one never makes it available again. */
  class ThingGenerator {
    var lowerBound: Thing
    var retained: set<Thing>

    ghost predicate Valid()
      reads this
    {
      forall t :: t in retained ==> t <= lowerBound
    }

    constructor ()
      ensures Valid() && lowerBound == GENESIS && retained == {}
    {
      lowerBound := GENESIS;
      retained := {};
    }

    method Retain(t: Thing)
      requires Valid()
      modifies this
      ensures Valid() && retained == old(retained) + {t}
      ensures lowerBound == if t > old(lowerBound) then t else old(lowerBound)
    {
      retained := retained + {t};
      if t > lowerBound {
        lowerBound := t;
      }
    }

    method Release(t: Thing)
      requires Valid()
      modifies this
      ensures Valid() && retained == old(retained) - {t} && lowerBound == old(lowerBound)
    {
      retained := retained - {t};
    }

    /** A new identity, until the 64-bit identities run out and start over at the genesis identity. */
    method Generate() returns (t: Thing)
      requires Valid()
      modifies this
      ensures t == lowerBound && retained == old(retained) + {t}
      ensures old(lowerBound) + 1 < U64 ==> Valid() && t == old(lowerBound) + 1 && t !in old(retained)
      ensures old(lowerBound) + 1 == U64 ==> t == GENESIS
    {
      lowerBound := (lowerBound + 1) % U64;
      retained := retained + {lowerBound};
      t := lowerBound;
    }
  }

  // ------------------------------------------------------------------ what is promised

  /** Replaying the appended batches rebuilds what is kept. */
  ghost predicate Recorded(k: Keepers.Kept, batches: seq<seq<PendingRecord>>, normal: Normalizer, parse: Parser) {
    Faithful(ApplyBatches(NOTHING, batches, normal, parse), k)
  }

  /** Keepers and indexes agree, identities are within the bound, and the log says the same. */
  ghost predicate InOrder(k: Keepers.Kept, bound: Thing, log: Option<seq<seq<PendingRecord>>>, normal: Normalizer, parse: Parser) {
    && Keepers.Sound(k) && Bounded(k, bound) && Apart(k) && HasBuiltins(k) && AllParse(k, parse)
    && (log.Some? ==> Recorded(k, log.value, normal, parse))
  }

  /** The log after a command has appended its batch, if there is a log and anything to append. */
  function Appended(log: Option<seq<seq<PendingRecord>>>, batch: seq<PendingRecord>): Option<seq<seq<PendingRecord>>> {
    if log.Some? && batch != [] then Some(log.value + [batch]) else log
  }

  /** Every kept literal is one of its family, with the meaning it parses to. */
  ghost predicate AllParse(k: Keepers.Kept, parse: Parser) {
    forall id :: id in k.posits ==> parse(k.posits[id].value.token, k.posits[id].value.family) == Some(k.posits[id].value.meaning)
  }

  ghost predicate HasBuiltins(k: Keepers.Kept) {
    forall r :: r in BUILTIN_ROLES ==> Keepers.Holds(k.roles, r)
  }

  /** A canonical name is empty, or the command asks for it both reserved and not. */
  ghost predicate RolesRefused(k: Keepers.Kept, requests: seq<(string, bool)>, normal: Normalizer) {
    exists i :: 0 <= i < |requests| && RoleRefused(k, requests, normal, i)
  }

  ghost predicate RoleRefused(k: Keepers.Kept, requests: seq<(string, bool)>, normal: Normalizer, i: nat)
    requires i < |requests|
  {
    var name := normal(requests[i].0);
    name == "" || (name !in k.rolesByName && exists j :: 0 <= j < i && normal(requests[j].0) == name && requests[j].1 != requests[i].1)
  }

  ghost predicate RoleGranted(k: Keepers.Kept, t: Keepers.Kept, bound: Thing, request: (string, bool), name: string, granted: (Role, bool)) {
    && granted.0.name == name && name in t.rolesByName && t.rolesByName[name] == granted.0
    && (granted.1 <==> name in k.rolesByName)
    && (!granted.1 ==> granted.0.id > bound && granted.0.reserved == request.1)
  }

  datatype PositRequest = PositRequest(appearances: AppearanceSet, value: Literal, time: Time)

  datatype AssertionSpec = AssertionSpec(targetIndex: nat, positor: Thing, certainty: Literal, time: Time)

  function RequestedProposition(r: PositRequest): Proposition {
    Proposition(r.appearances, r.value.token, r.time)
  }

  /** A request over a kept set, within the machine's widths, with a literal of its family. */
  predicate Ready(k: Keepers.Kept, r: PositRequest, parse: Parser) {
    && r.appearances in k.sets && |r.appearances| < U64 && (forall a :: a in r.appearances ==> a.role < U64 && a.thing < U64)
    && ReadyLiteral(r.value, parse)
  }

  predicate ReadyLiteral(value: Literal, parse: Parser) {
    parse(value.token, value.family) == Some(value.meaning) && |LiteralBytes(value)| < U64
  }

  /** The posit a request is answered with: the kept one if its proposition is known, else a new one. */
  ghost predicate PositGranted(k: Keepers.Kept, t: Keepers.Kept, bound: Thing, request: PositRequest, p: Posit) {
    && p.id in t.posits && t.posits[p.id] == p && PropositionOf(p) == RequestedProposition(request)
    && (if PropositionOf(p) in k.propositions then p.id in k.posits && k.posits[p.id] == p else p.id > bound)
  }

  function AssertionSet(target: Thing, positor: Thing): AppearanceSet {
    [Appearance(target, POSIT_ROLE), Appearance(positor, ASCERTAINS_ROLE)]
  }

  /** A posit that says of a target that a positor ascertains it, and nothing else. */
  ghost predicate Ascertains(p: Posit, target: Thing, positor: Thing, certainty: string, time: Time) {
    SaysAscertained(p.appearances, target, positor) && p.value.token == certainty && p.time == time
  }

  ghost predicate SaysAscertained(appearanceSet: AppearanceSet, target: Thing, positor: Thing) {
    |appearanceSet| == 2 && Appearance(target, POSIT_ROLE) in appearanceSet && Appearance(positor, ASCERTAINS_ROLE) in appearanceSet
  }

  /** Each assertion is answered with a posit that makes it, about the target it was answered with. */
  ghost predicate Asserted(assertions: seq<AssertionSpec>, targets: seq<Posit>, made: seq<Posit>) {
    |made| == |assertions| && forall i :: 0 <= i < |assertions| ==>
      && assertions[i].targetIndex < |targets|
      && Ascertains(made[i], targets[assertions[i].targetIndex].id, assertions[i].positor, assertions[i].certainty.token, assertions[i].time)
  }

  function AssertionRequest(spec: AssertionSpec, target: Posit): PositRequest {
    PositRequest(AssertionSet(target.id, spec.positor), spec.certainty, spec.time)
  }

  /** The sets and appearances of requests are kept beside those that were. */
  ghost predicate SidesKept(k: Keepers.Kept, t: Keepers.Kept, requests: seq<PositRequest>) {
    && t.sets == k.sets + (set r | r in requests :: r.appearances)
    && t.appearances == k.appearances + (set r, a | r in requests && a in r.appearances :: a)
  }

  lemma OneMoreSide(k: Keepers.Kept, t: Keepers.Kept, u: Keepers.Kept, requests: seq<PositRequest>, r: PositRequest)
    requires SidesKept(k, t, requests)
    requires u.sets == t.sets + {r.appearances} && u.appearances == t.appearances + (set a | a in r.appearances)
    ensures SidesKept(k, u, requests + [r])
  {
    assert forall q :: q in requests + [r] <==> q in requests || q == r;
  }

  /** Roles, posits and every posit index are as they were. */
  ghost predicate PositSideUnchanged(k: Keepers.Kept, t: Keepers.Kept) {
    t == k.(appearances := t.appearances, sets := t.sets, thingToAppearances := t.thingToAppearances,
            roleToAppearances := t.roleToAppearances, appearanceToSets := t.appearanceToSets)
  }

  // ----------------------------------------------------------------------- staging

  datatype RoleSource = ExistingRole(role: Role) | NewRole(index: nat)

  ghost predicate RoleSourceFor(k: Keepers.Kept, prepared: seq<Role>, request: (string, bool), name: string, source: RoleSource) {
    match source
    case ExistingRole(role) => name in k.rolesByName && k.rolesByName[name] == role
    case NewRole(index) => name !in k.rolesByName && index < |prepared| && prepared[index].name == name && prepared[index].reserved == request.1
  }

  method FindRole(prepared: seq<Role>, name: string) returns (found: Option<nat>)
    ensures match found {
              case Some(index) => index < |prepared| && prepared[index].name == name
              case None => forall r :: r in prepared ==> r.name != name
            }
  {
    for i := 0 to |prepared|
      invariant forall r :: r in prepared[..i] ==> r.name != name
    {
      if prepared[i].name == name {
        return Some(i);
      }
      assert prepared[..i + 1] == prepared[..i] + [prepared[i]];
    }
    assert prepared[..|prepared|] == prepared;
    return None;
  }

  datatype PositSource = ExistingPosit(posit: Posit) | NewPosit(index: nat)

  ghost predicate PositSourceFor(k: Keepers.Kept, prepared: seq<Posit>, request: PositRequest, source: PositSource) {
    match source
    case ExistingPosit(p) => RequestedProposition(request) in k.propositions && p.id in k.posits && k.posits[p.id] == p && PropositionOf(p) == RequestedProposition(request)
    case NewPosit(index) => RequestedProposition(request) !in k.propositions && index < |prepared| && PropositionOf(prepared[index]) == RequestedProposition(request)
  }

  method FindPosit(prepared: seq<Posit>, candidate: Posit) returns (found: Option<nat>)
    ensures match found {
              case Some(index) => index < |prepared| && PropositionOf(prepared[index]) == PropositionOf(candidate)
              case None => forall p :: p in prepared ==> PropositionOf(p) != PropositionOf(candidate)
            }
  {
    for i := 0 to |prepared|
      invariant forall p :: p in prepared[..i] ==> PropositionOf(p) != PropositionOf(candidate)
    {
      if PropositionOf(prepared[i]) == PropositionOf(candidate) {
        return Some(i);
      }
      assert prepared[..i + 1] == prepared[..i] + [prepared[i]];
    }
    assert prepared[..|prepared|] == prepared;
    return None;
  }

  ghost predicate SourcesFor(k: Keepers.Kept, prepared: seq<Posit>, requests: seq<PositRequest>, sources: seq<PositSource>) {
    |sources| == |requests| && forall i :: 0 <= i < |requests| ==> PositSourceFor(k, prepared, requests[i], sources[i])
  }

  /** Request i is the first for its proposition; the posit is what it asks for, under the identity drawn for it. */
  ghost predicate FirstAsked(requests: seq<PositRequest>, bound: Thing, i: nat, p: Posit) {
    && i < |requests| && p.id == bound + i + 1 && requests[i] == PositRequest(p.appearances, p.value, p.time)
    && forall j :: 0 <= j < i ==> RequestedProposition(requests[j]) != PropositionOf(p)
  }

  /** Every prepared posit is what the first request for its proposition asks for, under an identity past the bound. */
  ghost predicate Asked(prepared: seq<Posit>, requests: seq<PositRequest>, bound: Thing, upTo: Thing) {
    forall p :: p in prepared ==> bound < p.id <= upTo && exists i: nat :: FirstAsked(requests, bound, i, p)
  }

  /** Every proposition asked for so far is kept or prepared. */
  ghost predicate Met(k: Keepers.Kept, prepared: seq<Posit>, asked: seq<PositRequest>) {
    forall r :: r in asked ==> IsMet(k, prepared, r)
  }

  ghost predicate IsMet(k: Keepers.Kept, prepared: seq<Posit>, r: PositRequest) {
    RequestedProposition(r) in k.propositions || exists p :: p in prepared && PropositionOf(p) == RequestedProposition(r)
  }

  /** The requested sets only hold Things up to a bound. */
  predicate ThingsWithin(requests: seq<PositRequest>, bound: Thing) {
    forall r, a :: r in requests && a in r.appearances ==> a.thing <= bound
  }

  predicate PositorsWithin(assertions: seq<AssertionSpec>, bound: Thing) {
    forall s :: s in assertions ==> s.positor <= bound
  }

  predicate AllYounger(prepared: seq<Posit>) {
    forall p :: p in prepared ==> Younger(p)
  }

  lemma FreshOneMore(k: Keepers.Kept, prepared: seq<Posit>, p: Posit, parse: Parser)
    requires Fresh(k, prepared, parse) && Encodable(p, parse) && p.appearances in k.sets && p.id !in k.roles && p.id !in k.posits
    requires PropositionOf(p) !in k.propositions && forall q :: q in prepared ==> q.id != p.id && PropositionOf(q) != PropositionOf(p)
    ensures Fresh(k, prepared + [p], parse)
  {
    hide Encodable;
    hide PropositionOf;
    var more := prepared + [p];
    forall i, j | 0 <= i < j < |more| ensures more[i].id != more[j].id && PropositionOf(more[i]) != PropositionOf(more[j]) {
      assert more[i] in prepared;
    }
  }

  lemma FreshRolesOneMore(k: Keepers.Kept, prepared: seq<Role>, r: Role, normal: Normalizer)
    requires FreshRoles(k, prepared, normal) && ValidRole(r, normal) && r.id !in k.roles && r.id !in k.posits && r.name !in k.rolesByName
    requires forall q :: q in prepared ==> q.id != r.id && q.name != r.name
    ensures FreshRoles(k, prepared + [r], normal)
  {
    hide ValidRole;
    var more := prepared + [r];
    forall i, j | 0 <= i < j < |more| ensures more[i].id != more[j].id && more[i].name != more[j].name {
      assert more[i] in prepared;
    }
  }

  /** The posits of sources, from the ones prepared or kept. */
  function Resolved(sources: seq<PositSource>, prepared: seq<Posit>): (posits: seq<Posit>)
    requires forall s :: s in sources ==> s.NewPosit? ==> s.index < |prepared|
    ensures |posits| == |sources|
  {
    seq(|sources|, i requires 0 <= i < |sources| =>
      assert sources[i] in sources;
      match sources[i] case ExistingPosit(p) => p case NewPosit(index) => prepared[index])
  }

  class Database {
    const normal: Normalizer
    const parse: Parser
    const persistent: bool
    const generator: ThingGenerator

    var rolesByName: map<string, Role>
    var roles: map<Thing, Role>
    var appearances: set<Appearance>
    var sets: set<AppearanceSet>
    var propositions: map<Proposition, Thing>
    var posits: map<Thing, Posit>
    var thingToAppearances: map<Thing, set<Appearance>>
    var roleToAppearances: map<Thing, set<Appearance>>
    var appearanceToSets: map<Appearance, set<AppearanceSet>>
    var setToPosits: map<AppearanceSet, set<Thing>>
    var roleToPosits: map<Thing, set<Thing>>
    var positToSet: map<Thing, AppearanceSet>
    var positTime: map<Thing, Time>
    var batches: seq<seq<PendingRecord>>

    function State(): Keepers.Kept
      reads this
    {
      Keepers.Kept(rolesByName, roles, appearances, sets, propositions, posits, thingToAppearances, roleToAppearances,
        appearanceToSets, setToPosits, roleToPosits, positToSet, positTime)
    }

    ghost predicate Valid()
      reads this, generator
    {
      generator.Valid() && Stable(normal) && InOrder(State(), generator.lowerBound, Logged(), normal, parse)
    }

    /** The durable batches, of a database that has a store. */
    function Logged(): Option<seq<seq<PendingRecord>>>
      reads this
    {
      if persistent then Some(batches) else None
    }

    constructor Blank(normal: Normalizer, parse: Parser, persistent: bool)
      ensures State() == Keepers.EMPTY && batches == [] && fresh(generator) && generator.Valid() && generator.lowerBound == GENESIS
      ensures this.normal == normal && this.parse == parse && this.persistent == persistent
    {
      this.normal, this.parse, this.persistent := normal, parse, persistent;
      generator := new ThingGenerator();
      rolesByName, roles, appearances, sets, propositions, posits := map[], map[], {}, {}, map[], map[];
      thingToAppearances, roleToAppearances, appearanceToSets := map[], map[], map[];
      setToPosits, roleToPosits, positToSet, positTime := map[], map[], map[], map[];
      batches := [];
    }

    // ------------------------------------------------------------------- the keepers

    method KeepRole(role: Role) returns (kept: Role, existed: bool)
      modifies this
      ensures State() == Keepers.KeepRole(old(State()), role) && batches == old(batches)
      ensures role.name in rolesByName && kept == rolesByName[role.name] && (existed <==> role.name in old(rolesByName))
    {
      existed := role.name in rolesByName;
      if !existed {
        rolesByName := rolesByName[role.name := role];
        roles := roles[role.id := role];
      }
      kept := rolesByName[role.name];
    }

    method KeepAppearance(a: Appearance) returns (existed: bool)
      modifies this
      ensures State() == Keepers.KeepAppearance(old(State()), a) && batches == old(batches)
      ensures existed <==> a in old(appearances)
    {
      existed := a in appearances;
      if !existed {
        appearances := appearances + {a};
        thingToAppearances := Keepers.InsertPosting(thingToAppearances, a.thing, a);
        if Keepers.IsReserved(roles, a.role) {
          roleToAppearances := Keepers.InsertPosting(roleToAppearances, a.role, a);
        }
      }
    }

    method KeepAppearanceSet(appearanceSet: AppearanceSet) returns (existed: bool)
      modifies this
      ensures State() == Keepers.KeepSet(old(State()), appearanceSet) && batches == old(batches)
      ensures existed <==> appearanceSet in old(sets)
    {
      existed := appearanceSet in sets;
      if !existed {
        sets := sets + {appearanceSet};
        for i := 0 to |appearanceSet|
          invariant appearanceToSets == Keepers.IndexSet(old(appearanceToSets), appearanceSet[..i], appearanceSet)
          invariant State() == old(State()).(sets := old(sets) + {appearanceSet}, appearanceToSets := appearanceToSets) && batches == old(batches)
        {
          assert appearanceSet[..i + 1][..i] == appearanceSet[..i];
          appearanceToSets := Keepers.InsertPosting(appearanceToSets, appearanceSet[i], appearanceSet);
        }
        assert appearanceSet[..|appearanceSet|] == appearanceSet;
      }
    }

    /** Sorts the members; a role may occur once only. */
    method CreateAppearanceSet(members: seq<Appearance>) returns (created: Result<AppearanceSet, CommandError>)
      modifies this
      ensures batches == old(batches)
      ensures created == if RepeatsRole(Sorted(members)) then Err(InvalidAppearanceSet) else Ok(Sorted(members))
      ensures State() == if created.Ok? then Keepers.KeepSet(old(State()), created.value) else old(State())
    {
      var sorted := Sorted(members);
      if RepeatsRole(sorted) {
        return Err(InvalidAppearanceSet);
      }
      var _ := KeepAppearanceSet(sorted);
      return Ok(sorted);
    }

    static method IndexByRoles(index: map<Thing, set<Thing>>, members: AppearanceSet, id: Thing) returns (indexed: map<Thing, set<Thing>>)
      ensures indexed == Keepers.IndexRoles(index, members, id)
    {
      indexed := index;
      for i := 0 to |members|
        invariant indexed == Keepers.IndexRoles(index, members[..i], id)
      {
        assert members[..i + 1][..i] == members[..i];
        indexed := Keepers.InsertPosting(indexed, members[i].role, id);
      }
      assert members[..|members|] == members;
    }

    /** A proposition not kept before, and its entry in each index but the one by role. */
    method InsertPosit(p: Posit)
      modifies this`propositions, this`posits, this`setToPosits, this`positToSet, this`positTime
      ensures State() == old(State()).(propositions := old(propositions)[PropositionOf(p) := p.id], posits := old(posits)[p.id := p],
                setToPosits := Keepers.InsertPosting(old(setToPosits), p.appearances, p.id),
                positToSet := old(positToSet)[p.id := p.appearances], positTime := old(positTime)[p.id := p.time])
    {
      hide PropositionOf;
      hide Keepers.InsertPosting;
      propositions := propositions[PropositionOf(p) := p.id];
      posits := posits[p.id := p];
      setToPosits := Keepers.InsertPosting(setToPosits, p.appearances, p.id);
      positToSet := positToSet[p.id := p.appearances];
      positTime := positTime[p.id := p.time];
    }

    method KeepPosit(p: Posit) returns (kept: Posit, existed: bool)
      requires Keepers.PropositionsUnique(State())
      modifies this
      ensures State() == Keepers.KeepPosit(old(State()), p) && batches == old(batches)
      ensures existed <==> PropositionOf(p) in old(propositions)
      ensures PropositionOf(p) in propositions && propositions[PropositionOf(p)] in posits && kept == posits[propositions[PropositionOf(p)]]
    {
      KnownProposition(State(), PropositionOf(p));
      hide Keepers.PropositionsUnique;
      hide PropositionOf;
      hide Keepers.IndexRoles;
      hide Keepers.InsertPosting;
      existed := PropositionOf(p) in propositions;
      if !existed {
        InsertPosit(p);
        roleToPosits := IndexByRoles(roleToPosits, p.appearances, p.id);
      }
      kept := posits[propositions[PropositionOf(p)]];
    }

    // ------------------------------------------------------------------- create roles

    method StageRoles(requests: seq<(string, bool)>) returns (staged: Result<(seq<Role>, seq<RoleSource>), CommandError>)
      requires Stable(normal) && generator.Valid() && Bounded(State(), generator.lowerBound)
      requires generator.lowerBound + |requests| < U64 && forall q :: q in requests ==> ShortText(normal(q.0))
      modifies generator
      ensures generator.Valid() && old(generator.lowerBound) <= generator.lowerBound < U64
      ensures staged.Err? ==> staged.error == Execution && RolesRefused(State(), requests, normal)
      ensures staged.Ok? ==> RoleStage(State(), requests, normal, |requests|, staged.value.0, staged.value.1, old(generator.lowerBound), generator.lowerBound)
    {
      hide Stable;
      hide ShortText;
      hide RoleStage;
      hide RolesRefused;
      hide Bounded;
      ghost var (k, bound) := (State(), generator.lowerBound);
      var prepared: seq<Role> := [];
      var sources: seq<RoleSource> := [];
      NoRolesStaged(k, requests, normal, bound);
      for i := 0 to |requests|
        invariant generator.Valid() && bound <= generator.lowerBound <= bound + i
        invariant RoleStage(k, requests, normal, i, prepared, sources, bound, generator.lowerBound)
      {
        assert requests[i] in requests;
        var one := StageRole(generator, normal, rolesByName, requests, i, prepared, k, sources, bound);
        if one.Err? {
          return Err(one.error);
        }
        prepared := WithNew(prepared, one.value.0);
        sources := sources + [one.value.1];
      }
      return Ok((prepared, sources));
    }

    method KeepAllRoles(prepared: seq<Role>)
      modifies this
      ensures State() == KeepRoles(old(State()), prepared) && batches == old(batches)
    {
      hide Keepers.KeepRole;
      ghost var k := State();
      for i := 0 to |prepared|
        invariant State() == KeepRoles(k, prepared[..i]) && batches == old(batches)
      {
        assert prepared[..i + 1][..i] == prepared[..i];
        var _, _ := KeepRole(prepared[i]);
      }
      assert prepared[..|prepared|] == prepared;
    }

    /** Appends what was prepared, then keeps it; a failed append keeps nothing. */
    method CommitRoles(prepared: seq<Role>, durable: bool) returns (committed: bool)
      modifies this
      ensures committed <==> prepared == [] || !persistent || durable
      ensures State() == (if committed then KeepRoles(old(State()), prepared) else old(State()))
      ensures Logged() == (if committed then Appended(old(Logged()), RoleBatch(prepared)) else old(Logged()))
    {
      hide RoleRecord;
      hide KeepRoles;
      if prepared != [] && persistent {
        if !durable {
          return false;
        }
        batches := batches + [RoleBatch(prepared)];
      }
      KeepAllRoles(prepared);
      return true;
    }

    /**
     Creates the roles that do not exist yet, in one batch, or none of them.  Each request is
     answered with the role of its canonical name and whether it existed before.
     */
    method CreateRoles(requests: seq<(string, bool)>, durable: bool) returns (created: Result<seq<(Role, bool)>, CommandError>, ghost added: seq<Role>)
      requires Valid() && generator.lowerBound + |requests| < U64 && forall q :: q in requests ==> ShortText(normal(q.0))
      modifies this, generator
      ensures Valid()
      ensures created == Err(Execution) <==> RolesRefused(old(State()), requests, normal)
      ensures created == Err(CommandError.Persistence) <==>
                !RolesRefused(old(State()), requests, normal) && persistent && !durable && SomeUnknown(old(State()), requests, normal)
      ensures created.Err? ==> created.error == Execution || created.error == CommandError.Persistence
      ensures created.Err? ==> State() == old(State()) && Logged() == old(Logged())
      ensures created.Ok? ==> RolesAdded(old(State()), State(), added) && Logged() == Appended(old(Logged()), RoleBatch(added))
      ensures created.Ok? ==> RolesFollow(added, old(generator.lowerBound)) && generator.lowerBound == old(generator.lowerBound) + |added|
      ensures created.Ok? ==> RolesAnswered(old(State()), State(), old(generator.lowerBound), requests, normal, created.value)
    {
      hide Stable;
      hide InOrder;
      hide Bounded;
      hide RoleStage;
      hide RolesRefused;
      hide RolesAdded;
      hide RolesAnswered;
      hide RolesFollow;
      hide SomeUnknown;
      hide RoleBatch;
      hide ShortText;
      ghost var (k, log, bound) := (State(), Logged(), generator.lowerBound);
      added := [];
      IdentitiesBounded(k, bound, log, normal, parse);
      var staged := StageRoles(requests);
      StaysConsistent(k, bound, generator.lowerBound, log, normal, parse);
      if staged.Err? {
        return Err(staged.error), added;
      }
      var (prepared, sources) := staged.value;
      NotRefused(k, requests, normal, prepared, sources, bound, generator.lowerBound);
      StagedFollow(k, requests, normal, prepared, sources, bound, generator.lowerBound);
      var committed := CommitRoles(prepared, durable);
      if !committed {
        return Err(CommandError.Persistence), added;
      }
      RolesStayConsistent(k, requests, normal, parse, prepared, sources, bound, generator.lowerBound, log);
      RolesAreAnswered(k, requests, normal, parse, prepared, sources, bound, generator.lowerBound, log);
      added := prepared;
      var answers := AnswerRoles(prepared, sources);
      return Ok(answers), added;
    }

    // ------------------------------------------------------------------ create posits

    method StagePosits(requests: seq<PositRequest>, prepared: seq<Posit>, ghost asked: seq<PositRequest>, ghost bound: Thing)
      returns (staged: seq<Posit>, sources: seq<PositSource>)
      requires Keepers.Sound(State()) && Bounded(State(), bound) && generator.Valid() && bound <= generator.lowerBound
      requires generator.lowerBound + |requests| < U64 && forall r :: r in requests ==> Ready(State(), r, parse)
      requires PositStage(State(), asked, prepared, bound, generator.lowerBound, parse)
      modifies generator
      ensures generator.Valid() && generator.lowerBound == old(generator.lowerBound) + |requests|
      ensures prepared <= staged && PositStage(State(), asked + requests, staged, bound, generator.lowerBound, parse)
      ensures SourcesFor(State(), staged, requests, sources)
      ensures AllYounger(prepared) && ThingsWithin(requests, old(generator.lowerBound)) ==> AllYounger(staged)
    {
      hide Keepers.Sound;
      hide Ready;
      hide PositStage;
      hide SourcesFor;
      hide Bounded;
      ghost var k := State();
      ghost var before := generator.lowerBound;
      staged := prepared;
      sources := [];
      NoSources(k, staged, []);
      assert asked + requests[..0] == asked;
      for i := 0 to |requests|
        invariant generator.Valid() && generator.lowerBound == before + i
        invariant prepared <= staged && PositStage(k, asked + requests[..i], staged, bound, generator.lowerBound, parse)
        invariant SourcesFor(k, staged, requests[..i], sources)
        invariant AllYounger(prepared) && ThingsWithin(requests, before) ==> AllYounger(staged)
      {
        assert requests[i] in requests;
        assert asked + requests[..i] + [requests[i]] == asked + requests[..i + 1];
        assert requests[..i] + [requests[i]] == requests[..i + 1];
        var more, source := StagePosit(generator, propositions, posits, requests[i], staged, parse, k, asked + requests[..i], requests[..i], sources, bound);
        staged := WithNew(staged, more);
        sources := sources + [source];
      }
      assert requests[..|requests|] == requests;
    }

    method KeepAllPosits(prepared: seq<Posit>)
      requires Keepers.Sound(State()) && Fresh(State(), prepared, parse)
      modifies this
      ensures State() == KeepPosits(old(State()), prepared) && batches == old(batches)
    {
      hide Keepers.KeepPosit;
      hide PropositionOf;
      hide Encodable;
      hide Keepers.Sound;
      ghost var k := State();
      for i := 0 to |prepared|
        invariant State() == KeepPosits(k, prepared[..i]) && batches == old(batches)
      {
        assert prepared[..i + 1][..i] == prepared[..i];
        KeptSoFar(k, prepared, i, parse);
        var _, _ := KeepPosit(prepared[i]);
      }
      assert prepared[..|prepared|] == prepared;
    }

    /** Appends what was prepared, then keeps it; a failed append keeps nothing. */
    method CommitPosits(prepared: seq<Posit>, durable: bool) returns (committed: bool)
      requires Keepers.Sound(State()) && Fresh(State(), prepared, parse)
      modifies this
      ensures committed <==> prepared == [] || !persistent || durable
      ensures State() == (if committed then KeepPosits(old(State()), prepared) else old(State()))
      ensures Logged() == (if committed then Appended(old(Logged()), PositBatch(prepared)) else old(Logged()))
    {
      hide PositRecordOf;
      hide Keepers.Sound;
      hide Fresh;
      hide KeepPosits;
      if prepared != [] && persistent {
        if !durable {
          return false;
        }
        batches := batches + [PositBatch(prepared)];
      }
      KeepAllPosits(prepared);
      return true;
    }

    /** The appearances and the set of one assertion about a target. */
    method KeepAssertion(target: Thing, positor: Thing) returns (created: Result<AppearanceSet, CommandError>)
      requires Keepers.Sound(State()) && HasBuiltins(State())
      modifies this
      ensures created == Ok(AssertionSet(target, positor)) && SaysAscertained(created.value, target, positor)
      ensures KeptAndSided(old(State()), State(), created.value) && Logged() == old(Logged())
    {
      ghost var k := State();
      KeptAssertion(k, target, positor);
      AssertionSorts(target, positor);
      AssertionSays(target, positor);
      hide SaysAscertained;
      hide KeptAndSided;
      hide Keepers.Sound;
      hide Sorted;
      hide RepeatsRole;
      hide Canonical;
      hide HasBuiltins;
      hide PositSideUnchanged;
      hide Keepers.KeepAppearance;
      hide Keepers.KeepSet;
      var (about, author) := (Appearance(target, POSIT_ROLE), Appearance(positor, ASCERTAINS_ROLE));
      var _ := KeepAppearance(about);
      var _ := KeepAppearance(author);
      created := CreateAppearanceSet([about, author]);
    }

    /** The sets every assertion is about, in order, once targets have identities. */
    method PrepareAssertions(assertions: seq<AssertionSpec>, targets: seq<Posit>) returns (requests: seq<PositRequest>)
      requires Keepers.Sound(State()) && HasBuiltins(State()) && forall s :: s in assertions ==> s.targetIndex < |targets|
      modifies this
      ensures Keepers.Sound(State()) && PositSideUnchanged(old(State()), State()) && Logged() == old(Logged())
      ensures requests == AssertionRequests(assertions, targets) && SidesKept(old(State()), State(), requests)
    {
      hide Keepers.Sound;
      hide HasBuiltins;
      ghost var (k, log) := (State(), Logged());
      requests := [];
      for i := 0 to |assertions|
        invariant Keepers.Sound(State()) && PositSideUnchanged(k, State()) && Logged() == log
        invariant |requests| == i && forall n :: 0 <= n < i ==> requests[n] == AssertionRequests(assertions, targets)[n]
        invariant SidesKept(k, State(), requests)
      {
        ghost var before := State();
        var spec := assertions[i];
        assert spec in assertions;
        SameBuiltins(k, State());
        var appearanceSet := KeepAssertion(targets[spec.targetIndex].id, spec.positor);
        OneMoreSide(k, before, State(), requests, PositRequest(appearanceSet.value, spec.certainty, spec.time));
        requests := requests + [PositRequest(appearanceSet.value, spec.certainty, spec.time)];
      }
    }

    /**
     Creates target posits and assertions about them in one durable batch, or none of them.
     A known proposition is answered with its kept posit; anything else gets a new identity.
     */
    method CreateLiteralPositsWithAssertions(targets: seq<PositRequest>, assertions: seq<AssertionSpec>, durable: bool)
      returns (created: Result<(seq<Posit>, seq<Posit>), CommandError>, ghost added: seq<Posit>)
      requires Valid() && generator.lowerBound + |targets| + |assertions| < U64
      requires forall r :: r in targets ==> Ready(State(), r, parse)
      requires forall s :: s in assertions ==> s.positor < U64 && ReadyLiteral(s.certainty, parse)
      modifies this, generator
      ensures Valid()
      ensures created == Err(CommandError.Invariant) <==> exists s :: s in assertions && s.targetIndex >= |targets|
      ensures created == Err(Execution) <==>
                (forall s :: s in assertions ==> s.targetIndex < |targets|) && exists s :: s in assertions && s.certainty.family != CertaintyFamily
      ensures created == Err(CommandError.Persistence) <==>
                && (forall s :: s in assertions ==> s.targetIndex < |targets| && s.certainty.family == CertaintyFamily)
                && persistent && !durable && (SomeNewTarget(old(State()), targets) || SomeNewAssertion(old(State()), targets, assertions))
      ensures created.Err? ==> created.error in {Execution, CommandError.Invariant, CommandError.Persistence}
      ensures generator.lowerBound == old(generator.lowerBound) + (if created.Err? && created.error != CommandError.Persistence then 0 else |targets| + |assertions|)
      ensures created.Err? ==> PositSideUnchanged(old(State()), State()) && Logged() == old(Logged())
      ensures created.Ok? ==>
                && PositsKept(old(State()), State(), added) && Logged() == Appended(old(Logged()), PositBatch(added))
                && PositsAnswered(old(State()), State(), old(generator.lowerBound), targets, created.value.0)
                && (forall s :: s in assertions ==> s.targetIndex < |created.value.0|)
                && PositsAnswered(old(State()), State(), old(generator.lowerBound), AssertionRequests(assertions, created.value.0), created.value.1)
                && SidesKept(old(State()), State(), AssertionRequests(assertions, created.value.0)) && Asserted(assertions, created.value.0, created.value.1)
                && Asked(added, targets + AssertionRequests(assertions, created.value.0), old(generator.lowerBound), generator.lowerBound)
                && (ThingsWithin(targets, old(generator.lowerBound)) && PositorsWithin(assertions, old(generator.lowerBound)) ==> AllYounger(added))
    {
      added := [];
      var valid := ValidateAssertions(assertions, |targets|);
      if valid.Err? {
        return Err(valid.error), added;
      }
      created, added := CreateValidated(targets, assertions, durable);
      if created.Ok? {
        AnsweredIsAsserted(old(State()), State(), old(generator.lowerBound), assertions, created.value.0, created.value.1);
      }
    }

    /** Stages targets, then the assertions about them; appearances and sets are kept at once. */
    method StageAll(targets: seq<PositRequest>, assertions: seq<AssertionSpec>)
      returns (prepared: seq<Posit>, targetSources: seq<PositSource>, requests: seq<PositRequest>, assertionSources: seq<PositSource>)
      requires Valid() && generator.lowerBound + |targets| + |assertions| < U64
      requires forall r :: r in targets ==> Ready(State(), r, parse)
      requires forall s :: s in assertions ==> s.positor < U64 && ReadyLiteral(s.certainty, parse)
      requires forall s :: s in assertions ==> s.targetIndex < |targets|
      modifies this, generator
      ensures Valid() && PositSideUnchanged(old(State()), State()) && Logged() == old(Logged())
      ensures generator.lowerBound == old(generator.lowerBound) + |targets| + |assertions|
      ensures PositStage(State(), targets + requests, prepared, old(generator.lowerBound), generator.lowerBound, parse)
      ensures SourcesFor(State(), prepared, targets, targetSources) && SourcesFor(State(), prepared, requests, assertionSources)
      ensures |targetSources| == |targets| && forall s :: s in targetSources ==> s.NewPosit? ==> s.index < |prepared|
      ensures requests == AssertionRequests(assertions, Resolved(targetSources, prepared)) && SidesKept(old(State()), State(), requests)
      ensures ThingsWithin(targets, old(generator.lowerBound)) && PositorsWithin(assertions, old(generator.lowerBound)) ==> AllYounger(prepared)
    {
      hide Stable;
      hide InOrder;
      hide Keepers.Sound;
      hide Bounded;
      hide HasBuiltins;
      hide Ready;
      hide ReadyLiteral;
      hide PositStage;
      hide SourcesFor;
      hide PositSideUnchanged;
      hide ThingsWithin;
      hide PositorsWithin;
      ghost var (k, log, bound) := (State(), Logged(), generator.lowerBound);
      OrderParts(k, bound, log, normal, parse);
      NothingPrepared(k, bound, parse);
      assert [] + targets == targets;
      var first;
      first, targetSources := StagePosits(targets, [], [], bound);
      StaysConsistent(k, bound, generator.lowerBound, log, normal, parse);
      SourcesInRange(k, first, targets, targetSources);
      var staged := ResolveSources(targetSources, first);
      requests := PrepareAssertions(assertions, staged);
      ghost var (k2, middle) := (State(), generator.lowerBound);
      SideInOrder(k, k2, middle, log, normal, parse);
      StagedOverMore(k, k2, targets, first, bound, middle, parse);
      AssertionsReady(k, k2, assertions, staged, requests, targets, first, targetSources, bound, middle, parse);
      AssertionThings(k, assertions, staged, requests, targets, first, targetSources, bound, middle, parse);
      prepared, assertionSources := StagePosits(requests, first, targets, bound);
      StaysConsistent(k2, middle, generator.lowerBound, log, normal, parse);
      MoreSources(k, k2, first, prepared, targets, targetSources);
      ResolvedAlike(targetSources, first, prepared);
    }

    method CreateValidated(targets: seq<PositRequest>, assertions: seq<AssertionSpec>, durable: bool)
      returns (created: Result<(seq<Posit>, seq<Posit>), CommandError>, ghost added: seq<Posit>)
      requires Valid() && generator.lowerBound + |targets| + |assertions| < U64
      requires forall r :: r in targets ==> Ready(State(), r, parse)
      requires forall s :: s in assertions ==> s.positor < U64 && ReadyLiteral(s.certainty, parse)
      requires forall s :: s in assertions ==> s.targetIndex < |targets|
      modifies this, generator
      ensures Valid()
      ensures created.Err? <==> persistent && !durable && (SomeNewTarget(old(State()), targets) || SomeNewAssertion(old(State()), targets, assertions))
      ensures created.Err? ==> created.error == CommandError.Persistence
      ensures generator.lowerBound == old(generator.lowerBound) + |targets| + |assertions|
      ensures created.Err? ==> PositSideUnchanged(old(State()), State()) && Logged() == old(Logged())
      ensures created.Ok? ==>
                && PositsKept(old(State()), State(), added) && Logged() == Appended(old(Logged()), PositBatch(added))
                && PositsAnswered(old(State()), State(), old(generator.lowerBound), targets, created.value.0)
                && |created.value.0| == |targets|
                && PositsAnswered(old(State()), State(), old(generator.lowerBound), AssertionRequests(assertions, created.value.0), created.value.1)
                && SidesKept(old(State()), State(), AssertionRequests(assertions, created.value.0))
                && Asked(added, targets + AssertionRequests(assertions, created.value.0), old(generator.lowerBound), generator.lowerBound)
                && (ThingsWithin(targets, old(generator.lowerBound)) && PositorsWithin(assertions, old(generator.lowerBound)) ==> AllYounger(added))
    {
      hide Stable;
      hide InOrder;
      hide Keepers.Sound;
      hide Ready;
      hide ReadyLiteral;
      hide PositStage;
      hide SourcesFor;
      hide PositSideUnchanged;
      hide PositsKept;
      hide SidesKept;
      hide PositsAnswered;
      hide Asked;
      hide SomeNewTarget;
      hide SomeNewAssertion;
      hide Fresh;
      hide PositBatch;
      hide ThingsWithin;
      hide PositorsWithin;
      hide AllYounger;
      ghost var (k, log, bound) := (State(), Logged(), generator.lowerBound);
      OrderParts(k, bound, log, normal, parse);
      added := [];
      var prepared, targetSources, requests, assertionSources := StageAll(targets, assertions);
      ghost var (k2, upTo) := (State(), generator.lowerBound);
      OrderParts(k2, upTo, log, normal, parse);
      PreparedIsFresh(k2, targets + requests, prepared, bound, upTo, parse);
      SomethingNew(k, k2, targets, assertions, requests, targetSources, assertionSources, prepared, bound, upTo, parse);
      var committed := CommitPosits(prepared, durable);
      if !committed {
        return Err(CommandError.Persistence), added;
      }
      PositsStayInOrder(k, k2, targets + requests, prepared, bound, upTo, log, normal, parse);
      SourcesInRange(k2, prepared, requests, assertionSources);
      PositsAreAnswered(k, k2, targets + requests, prepared, targets, targetSources, bound, upTo, parse);
      PositsAreAnswered(k, k2, targets + requests, prepared, requests, assertionSources, bound, upTo, parse);
      added := prepared;
      var answers := ResolveSources(targetSources, prepared);
      var made := ResolveSources(assertionSources, prepared);
      return Ok((answers, made)), added;
    }
  }

  method ResolveSources(sources: seq<PositSource>, prepared: seq<Posit>) returns (posits: seq<Posit>)
    requires forall s :: s in sources ==> s.NewPosit? ==> s.index < |prepared|
    ensures posits == Resolved(sources, prepared)
  {
    posits := [];
    for i := 0 to |sources|
      invariant |posits| == i && forall n :: 0 <= n < i ==> posits[n] == Resolved(sources, prepared)[n]
    {
      assert sources[i] in sources;
      match sources[i] {
        case ExistingPosit(p) => posits := posits + [p];
        case NewPosit(index) => posits := posits + [prepared[index]];
      }
    }
  }

  /** Every assertion names a target and carries a certainty; the first kind of fault is reported first. */
  method ValidateAssertions(assertions: seq<AssertionSpec>, count: nat) returns (valid: Result<(), CommandError>)
    ensures valid == Err(CommandError.Invariant) <==> exists s :: s in assertions && s.targetIndex >= count
    ensures valid == Err(Execution) <==>
              (forall s :: s in assertions ==> s.targetIndex < count) && exists s :: s in assertions && s.certainty.family != CertaintyFamily
    ensures valid.Err? ==> valid.error in {Execution, CommandError.Invariant}
  {
    for i := 0 to |assertions|
      invariant forall n :: 0 <= n < i ==> assertions[n].targetIndex < count
    {
      if assertions[i].targetIndex >= count {
        assert assertions[i] in assertions;
        return Err(CommandError.Invariant);
      }
    }
    for i := 0 to |assertions|
      invariant forall n :: 0 <= n < i ==> assertions[n].certainty.family == CertaintyFamily
    {
      if assertions[i].certainty.family != CertaintyFamily {
        assert assertions[i] in assertions;
        return Err(Execution);
      }
    }
    return Ok(());
  }

  function AssertionRequests(assertions: seq<AssertionSpec>, targets: seq<Posit>): (requests: seq<PositRequest>)
    requires forall s :: s in assertions ==> s.targetIndex < |targets|
    ensures |requests| == |assertions|
  {
    seq(|assertions|, i requires 0 <= i < |assertions| =>
      assert assertions[i] in assertions;
      AssertionRequest(assertions[i], targets[assertions[i].targetIndex]))
  }

  lemma AnsweredIsAsserted(k: Keepers.Kept, t: Keepers.Kept, bound: Thing, assertions: seq<AssertionSpec>, targets: seq<Posit>, made: seq<Posit>)
    requires forall s :: s in assertions ==> s.targetIndex < |targets|
    requires PositsAnswered(k, t, bound, AssertionRequests(assertions, targets), made)
    ensures Asserted(assertions, targets, made)
  {
    forall i | 0 <= i < |assertions|
      ensures assertions[i].targetIndex < |targets|
      ensures Ascertains(made[i], targets[assertions[i].targetIndex].id, assertions[i].positor, assertions[i].certainty.token, assertions[i].time)
    {
      assert assertions[i] in assertions;
      assert PositGranted(k, t, bound, AssertionRequests(assertions, targets)[i], made[i]);
    }
  }

  ghost predicate PositsAnswered(k: Keepers.Kept, t: Keepers.Kept, bound: Thing, requests: seq<PositRequest>, posits: seq<Posit>) {
    |posits| == |requests| && forall i :: 0 <= i < |requests| ==> PositGranted(k, t, bound, requests[i], posits[i])
  }

  /** The kept posit a target is answered with, if its proposition is known. */
  ghost function KeptTarget(k: Keepers.Kept, target: PositRequest): Option<Posit> {
    var x := RequestedProposition(target);
    if x in k.propositions && k.propositions[x] in k.posits then Some(k.posits[k.propositions[x]]) else None
  }

  /** An assertion about a kept target that is not itself kept. */
  ghost predicate NewAssertion(k: Keepers.Kept, targets: seq<PositRequest>, spec: AssertionSpec) {
    && spec.targetIndex < |targets| && KeptTarget(k, targets[spec.targetIndex]).Some?
    && RequestedProposition(AssertionRequest(spec, KeptTarget(k, targets[spec.targetIndex]).value)) !in k.propositions
  }

  ghost predicate SomeNewAssertion(k: Keepers.Kept, targets: seq<PositRequest>, assertions: seq<AssertionSpec>) {
    exists i :: 0 <= i < |assertions| && NewAssertion(k, targets, assertions[i])
  }

  ghost predicate SomeNewTarget(k: Keepers.Kept, targets: seq<PositRequest>) {
    exists i :: 0 <= i < |targets| && RequestedProposition(targets[i]) !in k.propositions
  }

  /** The kept posits are the old ones and the added ones; the roles are as they were. */
  ghost predicate PositsKept(k: Keepers.Kept, t: Keepers.Kept, added: seq<Posit>) {
    && t.roles == k.roles && t.rolesByName == k.rolesByName
    && (forall id :: id in t.posits <==> id in k.posits || exists p :: p in added && p.id == id)
    && (forall id :: id in k.posits ==> t.posits[id] == k.posits[id])
    && (forall p :: p in added ==> p.id in t.posits && t.posits[p.id] == p)
  }

  /** New propositions prepared for the requests so far, under new identities. */
  ghost predicate PositStage(k: Keepers.Kept, asked: seq<PositRequest>, prepared: seq<Posit>, bound: Thing, upTo: Thing, parse: Parser) {
    Fresh(k, prepared, parse) && Asked(prepared, asked, bound, upTo) && Met(k, prepared, asked) && upTo == bound + |asked|
  }

  lemma NothingPrepared(k: Keepers.Kept, bound: Thing, parse: Parser)
    ensures PositStage(k, [], [], bound, bound, parse)
  {
  }

  lemma NoSources(k: Keepers.Kept, prepared: seq<Posit>, requests: seq<PositRequest>)
    requires requests == []
    ensures SourcesFor(k, prepared, requests, [])
  {
  }

  /** Stages one request under a fresh identity, released again when the proposition is known. */
  method StagePosit(generator: ThingGenerator, known: map<Proposition, Thing>, kept: map<Thing, Posit>, request: PositRequest, prepared: seq<Posit>, parse: Parser,
      ghost k: Keepers.Kept, ghost asked: seq<PositRequest>, ghost requests: seq<PositRequest>, ghost sources: seq<PositSource>, ghost bound: Thing)
    returns (more: Option<Posit>, source: PositSource)
    requires Keepers.Sound(k) && known == k.propositions && kept == k.posits
    requires generator.Valid() && Bounded(k, bound) && bound <= generator.lowerBound && generator.lowerBound + 1 < U64 && Ready(k, request, parse)
    requires PositStage(k, asked, prepared, bound, generator.lowerBound, parse) && SourcesFor(k, prepared, requests, sources)
    modifies generator
    ensures generator.Valid() && generator.lowerBound == old(generator.lowerBound) + 1
    ensures PositStage(k, asked + [request], WithNew(prepared, more), bound, generator.lowerBound, parse)
    ensures SourcesFor(k, WithNew(prepared, more), requests + [request], sources + [source])
    ensures more.Some? ==> more.value.id == generator.lowerBound && more.value.appearances == request.appearances
  {
    hide Keepers.Sound;
    hide Ready;
    hide PositStage;
    hide SourcesFor;
    hide Bounded;
    ghost var before := generator.lowerBound;
    var id := generator.Generate();
    var candidate := Posit(id, request.appearances, request.value, request.time);
    KnownPropositions(k);
    assert PropositionOf(candidate) == RequestedProposition(request);
    if PropositionOf(candidate) in known {
      generator.Release(id);
      var existing := kept[known[PropositionOf(candidate)]];
      StageGrows(k, asked, request, prepared, bound, before, parse);
      OneMoreSource(k, prepared, requests, sources, request, ExistingPosit(existing));
      return None, ExistingPosit(existing);
    }
    var found := FindPosit(prepared, candidate);
    if found.Some? {
      generator.Release(id);
      StageGrows(k, asked, request, prepared, bound, before, parse);
      OneMoreSource(k, prepared, requests, sources, request, NewPosit(found.value));
      return None, NewPosit(found.value);
    }
    StageNewPosit(k, asked, request, prepared, bound, before, parse);
    MoreSources(k, k, prepared, prepared + [candidate], requests, sources);
    OneMoreSource(k, prepared + [candidate], requests, sources, request, NewPosit(|prepared|));
    return Some(candidate), NewPosit(|prepared|);
  }

  lemma KnownPropositions(k: Keepers.Kept)
    requires Keepers.Sound(k)
    ensures forall x :: x in k.propositions ==> k.propositions[x] in k.posits && PropositionOf(k.posits[k.propositions[x]]) == x
    ensures forall x :: x in k.propositions ==> k.posits[k.propositions[x]].id == k.propositions[x]
  {
    assert Keepers.PropositionsUnique(k);
    assert Closed(Keepers.View(k));
    hide PropositionOf;
    forall id | id in k.posits ensures k.posits[id].id == id {
      assert id in Keepers.View(k).posits;
    }
  }

  lemma StageGrows(k: Keepers.Kept, asked: seq<PositRequest>, request: PositRequest, prepared: seq<Posit>, bound: Thing, upTo: Thing, parse: Parser)
    requires PositStage(k, asked, prepared, bound, upTo, parse) && IsMet(k, prepared, request)
    ensures PositStage(k, asked + [request], prepared, bound, upTo + 1, parse)
  {
    hide Fresh;
    hide IsMet;
    StillAsked(asked, request, prepared, bound, upTo);
  }

  lemma StillAsked(asked: seq<PositRequest>, request: PositRequest, prepared: seq<Posit>, bound: Thing, upTo: Thing)
    requires Asked(prepared, asked, bound, upTo)
    ensures Asked(prepared, asked + [request], bound, upTo + 1)
  {
    forall p | p in prepared ensures exists i: nat :: FirstAsked(asked + [request], bound, i, p) {
      var i: nat :| FirstAsked(asked, bound, i, p);
      assert FirstAsked(asked + [request], bound, i, p);
    }
  }

  /** The last request is the first for a proposition that nothing kept or prepared has. */
  lemma AskedForNew(k: Keepers.Kept, asked: seq<PositRequest>, request: PositRequest, prepared: seq<Posit>, bound: Thing, p: Posit)
    requires Met(k, prepared, asked) && p.id == bound + |asked| + 1 && request == PositRequest(p.appearances, p.value, p.time)
    requires RequestedProposition(request) !in k.propositions && forall q :: q in prepared ==> PropositionOf(q) != RequestedProposition(request)
    ensures FirstAsked(asked + [request], bound, |asked|, p) && Met(k, prepared + [p], asked + [request])
  {
    forall j | 0 <= j < |asked| ensures RequestedProposition(asked[j]) != PropositionOf(p) {
      assert IsMet(k, prepared, asked[j]);
    }
    forall r | r in asked + [request] ensures IsMet(k, prepared + [p], r) {
      if r in asked {
        assert IsMet(k, prepared, r);
        assert forall q :: q in prepared ==> q in prepared + [p];
      } else {
        assert p in prepared + [p] && PropositionOf(p) == RequestedProposition(r);
      }
    }
  }

  lemma StageNewPosit(k: Keepers.Kept, asked: seq<PositRequest>, request: PositRequest, prepared: seq<Posit>, bound: Thing, upTo: Thing, parse: Parser)
    requires Keepers.Sound(k) && Bounded(k, bound) && bound <= upTo && upTo + 1 < U64 && Ready(k, request, parse)
    requires PositStage(k, asked, prepared, bound, upTo, parse) && RequestedProposition(request) !in k.propositions
    requires forall q :: q in prepared ==> PropositionOf(q) != RequestedProposition(request)
    ensures PositStage(k, asked + [request], prepared + [Posit(upTo + 1, request.appearances, request.value, request.time)], bound, upTo + 1, parse)
  {
    var p := Posit(upTo + 1, request.appearances, request.value, request.time);
    CanonicalSets(k, p.appearances);
    hide Keepers.Sound;
    assert Encodable(p, parse);
    hide Encodable;
    hide Ready;
    FreshOneMore(k, prepared, p, parse);
    hide Bounded;
    AskedForNew(k, asked, request, prepared, bound, p);
    StillAsked(asked, request, prepared, bound, upTo);
    hide Fresh;
    hide Met;
    hide FirstAsked;
  }

  lemma CanonicalSets(k: Keepers.Kept, appearanceSet: AppearanceSet)
    requires Keepers.Sound(k) && appearanceSet in k.sets
    ensures Canonical(appearanceSet)
  {
    assert Closed(Keepers.View(k));
    assert appearanceSet in Keepers.View(k).sets;
  }

  lemma OneMoreSource(k: Keepers.Kept, prepared: seq<Posit>, requests: seq<PositRequest>, sources: seq<PositSource>, request: PositRequest, source: PositSource)
    requires SourcesFor(k, prepared, requests, sources) && PositSourceFor(k, prepared, request, source)
    ensures SourcesFor(k, prepared, requests + [request], sources + [source])
  {
    hide PositSourceFor;
  }

  /** Sources stay good when more is prepared over the same posits. */
  lemma MoreSources(k: Keepers.Kept, t: Keepers.Kept, prepared: seq<Posit>, more: seq<Posit>, requests: seq<PositRequest>, sources: seq<PositSource>)
    requires SourcesFor(k, prepared, requests, sources) && prepared <= more && t.propositions == k.propositions && t.posits == k.posits
    ensures SourcesFor(t, more, requests, sources)
  {
    forall i | 0 <= i < |requests| ensures PositSourceFor(t, more, requests[i], sources[i]) {
      assert PositSourceFor(k, prepared, requests[i], sources[i]);
    }
  }

  lemma SourcesInRange(k: Keepers.Kept, prepared: seq<Posit>, requests: seq<PositRequest>, sources: seq<PositSource>)
    requires SourcesFor(k, prepared, requests, sources)
    ensures |sources| == |requests| && forall s :: s in sources ==> s.NewPosit? ==> s.index < |prepared|
  {
    forall s | s in sources ensures s.NewPosit? ==> s.index < |prepared| {
      var i :| 0 <= i < |sources| && sources[i] == s;
      assert PositSourceFor(k, prepared, requests[i], sources[i]);
    }
  }

  lemma ResolvedAlike(sources: seq<PositSource>, prepared: seq<Posit>, more: seq<Posit>)
    requires prepared <= more && forall s :: s in sources ==> s.NewPosit? ==> s.index < |prepared|
    ensures (forall s :: s in sources ==> s.NewPosit? ==> s.index < |more|) && Resolved(sources, prepared) == Resolved(sources, more)
  {
    forall i | 0 <= i < |sources| ensures Resolved(sources, prepared)[i] == Resolved(sources, more)[i] {
      assert sources[i] in sources;
    }
  }

  lemma OrderParts(k: Keepers.Kept, bound: Thing, log: Option<seq<seq<PendingRecord>>>, normal: Normalizer, parse: Parser)
    requires InOrder(k, bound, log, normal, parse)
    ensures Keepers.Sound(k) && Bounded(k, bound) && HasBuiltins(k)
  {
  }

  lemma KnownProposition(k: Keepers.Kept, x: Proposition)
    requires Keepers.PropositionsUnique(k)
    ensures x in k.propositions ==> k.propositions[x] in k.posits
  {
  }

  lemma AppearanceStep(k: Keepers.Kept, a: Appearance)
    requires Keepers.Sound(k) && a.role in k.roles
    ensures var t := Keepers.KeepAppearance(k, a);
            Keepers.Sound(t) && PositSideUnchanged(k, t) && t.sets == k.sets && t.roles == k.roles && t.appearances == k.appearances + {a}
  {
    hide Keepers.Sound;
    hide Keepers.InsertPosting;
    hide Keepers.IsReserved;
    Keepers.AppearanceKeepsSound(k, a);
    if a in k.appearances {
      assert Keepers.KeepAppearance(k, a) == k && k.appearances + {a} == k.appearances;
    } else {
      assert Keepers.KeepAppearance(k, a).appearances == k.appearances + {a};
    }
  }

  lemma SetStep(k: Keepers.Kept, appearanceSet: AppearanceSet)
    requires Keepers.Sound(k) && Canonical(appearanceSet) && forall a :: a in appearanceSet ==> a in k.appearances
    ensures var t := Keepers.KeepSet(k, appearanceSet); Keepers.Sound(t) && PositSideUnchanged(k, t) && t.sets == k.sets + {appearanceSet}
  {
    hide Keepers.Sound;
    hide Canonical;
    hide PositSideUnchanged;
    Keepers.SetKeepsSound(k, appearanceSet);
    SideOfSet(k, appearanceSet);
    hide Keepers.KeepSet;
  }

  lemma SideOfSet(k: Keepers.Kept, appearanceSet: AppearanceSet)
    ensures PositSideUnchanged(k, Keepers.KeepSet(k, appearanceSet)) && Keepers.KeepSet(k, appearanceSet).sets == k.sets + {appearanceSet}
  {
    hide Keepers.IndexSet;
  }

  lemma SideTransitive(k: Keepers.Kept, t: Keepers.Kept, u: Keepers.Kept)
    requires PositSideUnchanged(k, t) && PositSideUnchanged(t, u)
    ensures PositSideUnchanged(k, u)
  {
  }

  lemma BuiltinRolesKept(k: Keepers.Kept)
    requires HasBuiltins(k)
    ensures POSIT_ROLE in k.roles && ASCERTAINS_ROLE in k.roles
  {
    assert BUILTIN_ROLES[0] in BUILTIN_ROLES && BUILTIN_ROLES[1] in BUILTIN_ROLES;
  }

  lemma SameBuiltins(k: Keepers.Kept, t: Keepers.Kept)
    requires HasBuiltins(k) && PositSideUnchanged(k, t)
    ensures HasBuiltins(t)
  {
  }

  lemma AssertionSorts(target: Thing, positor: Thing)
    ensures var members := [Appearance(target, POSIT_ROLE), Appearance(positor, ASCERTAINS_ROLE)];
            Sorted(members) == members && !RepeatsRole(members) && Canonical(members)
  {
    SortedOfOrdered([Appearance(target, POSIT_ROLE), Appearance(positor, ASCERTAINS_ROLE)]);
  }

  function KeptPair(k: Keepers.Kept, a: Appearance, b: Appearance): Keepers.Kept {
    Keepers.KeepAppearance(Keepers.KeepAppearance(k, a), b)
  }

  lemma PairStep(k: Keepers.Kept, a: Appearance, b: Appearance)
    requires Keepers.Sound(k) && a.role in k.roles && b.role in k.roles
    ensures var t := KeptPair(k, a, b);
            Keepers.Sound(t) && PositSideUnchanged(k, t) && t.sets == k.sets && t.appearances == k.appearances + {a, b}
  {
    hide Keepers.Sound;
    hide PositSideUnchanged;
    var t := Keepers.KeepAppearance(k, a);
    AppearanceStep(k, a);
    AppearanceStep(t, b);
    SideTransitive(k, t, KeptPair(k, a, b));
    hide Keepers.KeepAppearance;
  }

  /** Keeping both appearances of an assertion and then their set. */
  lemma KeptAssertion(k: Keepers.Kept, target: Thing, positor: Thing)
    requires Keepers.Sound(k) && HasBuiltins(k)
    ensures var (about, author) := (Appearance(target, POSIT_ROLE), Appearance(positor, ASCERTAINS_ROLE));
            KeptAndSided(k, Keepers.KeepSet(KeptPair(k, about, author), AssertionSet(target, positor)), AssertionSet(target, positor))
  {
    hide Keepers.Sound;
    hide PositSideUnchanged;
    BuiltinRolesKept(k);
    hide HasBuiltins;
    var (about, author) := (Appearance(target, POSIT_ROLE), Appearance(positor, ASCERTAINS_ROLE));
    PairStep(k, about, author);
    PairCanonical(target, positor);
    hide KeptPair;
    var t := KeptPair(k, about, author);
    var members := AssertionSet(target, positor);
    hide AssertionSet;
    hide Canonical;
    SetStep(t, members);
    SideTransitive(k, t, Keepers.KeepSet(t, members));
    AppearancesOfSet(t, members);
    hide Keepers.KeepSet;
  }

  /** A set and its appearances are kept, and nothing else changes. */
  ghost predicate KeptAndSided(k: Keepers.Kept, t: Keepers.Kept, appearanceSet: AppearanceSet) {
    && Keepers.Sound(t) && PositSideUnchanged(k, t)
    && t.sets == k.sets + {appearanceSet} && t.appearances == k.appearances + (set a | a in appearanceSet)
  }

  lemma KeptParts(k: Keepers.Kept, t: Keepers.Kept, appearanceSet: AppearanceSet)
    requires KeptAndSided(k, t, appearanceSet)
    ensures Keepers.Sound(t) && PositSideUnchanged(k, t)
    ensures t.sets == k.sets + {appearanceSet} && t.appearances == k.appearances + (set a | a in appearanceSet)
  {
  }

  lemma AssertionSays(target: Thing, positor: Thing)
    ensures SaysAscertained(AssertionSet(target, positor), target, positor)
  {
    var members := AssertionSet(target, positor);
    assert members[0] in members && members[1] in members;
  }

  lemma PairCanonical(target: Thing, positor: Thing)
    ensures Canonical(AssertionSet(target, positor))
    ensures (set a | a in AssertionSet(target, positor)) == {Appearance(target, POSIT_ROLE), Appearance(positor, ASCERTAINS_ROLE)}
    ensures forall a :: a in AssertionSet(target, positor) ==> a == Appearance(target, POSIT_ROLE) || a == Appearance(positor, ASCERTAINS_ROLE)
  {
  }

  lemma AppearancesOfSet(k: Keepers.Kept, appearanceSet: AppearanceSet)
    ensures Keepers.KeepSet(k, appearanceSet).appearances == k.appearances
  {
  }

  /** Keeping appearances and sets disturbs nothing that posits, roles or the log rely on. */
  lemma SideInOrder(k: Keepers.Kept, t: Keepers.Kept, bound: Thing, log: Option<seq<seq<PendingRecord>>>, normal: Normalizer, parse: Parser)
    requires InOrder(k, bound, log, normal, parse) && PositSideUnchanged(k, t) && Keepers.Sound(t)
    ensures InOrder(t, bound, log, normal, parse) && t.posits == k.posits && t.propositions == k.propositions
  {
    hide Keepers.Sound;
    if log.Some? {
      hide ApplyBatches;
      hide Persistable;
      hide Replay.Consistent;
      assert AllPersistable(t) <==> AllPersistable(k);
    }
  }

  lemma StagedOverMore(k: Keepers.Kept, t: Keepers.Kept, asked: seq<PositRequest>, prepared: seq<Posit>, bound: Thing, upTo: Thing, parse: Parser)
    requires PositStage(k, asked, prepared, bound, upTo, parse) && PositSideUnchanged(k, t) && k.sets <= t.sets
    ensures PositStage(t, asked, prepared, bound, upTo, parse)
  {
    hide Encodable;
    hide Asked;
    hide PropositionOf;
  }

  /** Whatever a request was answered with has a 64-bit identity. */
  lemma StagedIdentities(k: Keepers.Kept, targets: seq<PositRequest>, first: seq<Posit>, sources: seq<PositSource>, staged: seq<Posit>,
      bound: Thing, upTo: Thing, parse: Parser)
    requires Keepers.Sound(k) && Bounded(k, bound) && bound <= upTo < U64
    requires PositStage(k, targets, first, bound, upTo, parse) && SourcesFor(k, first, targets, sources)
    requires (forall s :: s in sources ==> s.NewPosit? ==> s.index < |first|) && staged == Resolved(sources, first)
    ensures forall p :: p in staged ==> p.id < U64
  {
    hide Fresh;
    KnownPropositions(k);
    hide Keepers.Sound;
    hide PropositionOf;
    forall i | 0 <= i < |staged| ensures staged[i].id < U64 {
      assert PositSourceFor(k, first, targets[i], sources[i]);
      if sources[i].NewPosit? {
        assert first[sources[i].index] in first;
      }
    }
  }

  lemma AssertionReady(t: Keepers.Kept, s: AssertionSpec, target: Posit, parse: Parser)
    requires target.id < U64 && s.positor < U64 && ReadyLiteral(s.certainty, parse) && AssertionRequest(s, target).appearances in t.sets
    ensures Ready(t, AssertionRequest(s, target), parse)
  {
    hide ReadyLiteral;
  }

  /** Identities of staged targets fit, so the assertions about them can be encoded. */
  lemma AssertionsReady(k: Keepers.Kept, t: Keepers.Kept, assertions: seq<AssertionSpec>, staged: seq<Posit>, requests: seq<PositRequest>,
      targets: seq<PositRequest>, first: seq<Posit>, sources: seq<PositSource>, bound: Thing, upTo: Thing, parse: Parser)
    requires Keepers.Sound(k) && Bounded(k, bound) && bound <= upTo < U64 && PositSideUnchanged(k, t)
    requires PositStage(k, targets, first, bound, upTo, parse) && SourcesFor(k, first, targets, sources)
    requires (forall s :: s in sources ==> s.NewPosit? ==> s.index < |first|) && staged == Resolved(sources, first)
    requires forall s :: s in assertions ==> s.targetIndex < |staged|
    requires forall s :: s in assertions ==> s.positor < U64 && ReadyLiteral(s.certainty, parse)
    requires requests == AssertionRequests(assertions, staged) && forall r :: r in requests ==> r.appearances in t.sets
    ensures forall r :: r in requests ==> Ready(t, r, parse)
    ensures Bounded(t, bound)
  {
    hide ReadyLiteral;
    hide PropositionOf;
    StagedIdentities(k, targets, first, sources, staged, bound, upTo, parse);
    hide PositStage;
    hide SourcesFor;
    hide Keepers.Sound;
    hide Ready;
    forall i | 0 <= i < |requests| ensures Ready(t, requests[i], parse) {
      assert assertions[i] in assertions && requests[i] in requests;
      AssertionReady(t, assertions[i], staged[assertions[i].targetIndex], parse);
    }
  }

  /** Assertions are about the Things they were given and targets that already have identities. */
  lemma AssertionThings(k: Keepers.Kept, assertions: seq<AssertionSpec>, staged: seq<Posit>, requests: seq<PositRequest>,
      targets: seq<PositRequest>, first: seq<Posit>, sources: seq<PositSource>, bound: Thing, upTo: Thing, parse: Parser)
    requires Keepers.Sound(k) && Bounded(k, bound) && bound <= upTo
    requires PositStage(k, targets, first, bound, upTo, parse) && SourcesFor(k, first, targets, sources)
    requires (forall s :: s in sources ==> s.NewPosit? ==> s.index < |first|) && staged == Resolved(sources, first)
    requires (forall s :: s in assertions ==> s.targetIndex < |staged|) && requests == AssertionRequests(assertions, staged)
    ensures PositorsWithin(assertions, bound) ==> ThingsWithin(requests, upTo)
  {
    hide Fresh;
    KnownPropositions(k);
    hide Keepers.Sound;
    hide PropositionOf;
    forall i | 0 <= i < |staged| ensures staged[i].id <= upTo {
      assert PositSourceFor(k, first, targets[i], sources[i]);
      if sources[i].NewPosit? {
        assert first[sources[i].index] in first;
      }
    }
    forall r | r in requests && PositorsWithin(assertions, bound) ensures forall a :: a in r.appearances ==> a.thing <= upTo {
      var i :| 0 <= i < |requests| && requests[i] == r;
      assert assertions[i] in assertions;
    }
  }

  lemma PreparedIsFresh(k: Keepers.Kept, asked: seq<PositRequest>, prepared: seq<Posit>, bound: Thing, upTo: Thing, parse: Parser)
    requires PositStage(k, asked, prepared, bound, upTo, parse)
    ensures Fresh(k, prepared, parse) && Asked(prepared, asked, bound, upTo)
  {
  }

  lemma KeptSoFar(k: Keepers.Kept, prepared: seq<Posit>, i: nat, parse: Parser)
    requires i <= |prepared| && Keepers.Sound(k) && Fresh(k, prepared, parse)
    ensures Keepers.PropositionsUnique(KeepPosits(k, prepared[..i]))
  {
    hide Keepers.Sound;
    hide KeepPosits;
    hide Encodable;
    hide PropositionOf;
    forall a, b | 0 <= a < b < i ensures prepared[..i][a].id != prepared[..i][b].id && PropositionOf(prepared[..i][a]) != PropositionOf(prepared[..i][b]) {
    }
    KeepPositsAdds(k, prepared[..i], parse);
    SoundPropositions(KeepPosits(k, prepared[..i]));
  }

  lemma PositsRecorded(k: Keepers.Kept, prepared: seq<Posit>, normal: Normalizer, parse: Parser, batches: seq<seq<PendingRecord>>)
    requires Recorded(k, batches, normal, parse) && Keepers.Sound(k) && Fresh(k, prepared, parse)
    ensures Recorded(KeepPosits(k, prepared), batches + [PositBatch(prepared)], normal, parse)
  {
    hide Keepers.Sound;
    hide Fresh;
    hide PositBatch;
    hide Matches;
    ApplyBatchesSnoc(batches, PositBatch(prepared), normal, parse);
    if AllPersistable(k) {
      PositBatchFaithful(ApplyBatches(NOTHING, batches, normal, parse).value, k, prepared, normal, parse);
    } else {
      KeepPositsAdds(k, prepared, parse);
      StillUnpersistable(k, KeepPosits(k, prepared), prepared);
    }
  }

  lemma StillUnpersistable(k: Keepers.Kept, t: Keepers.Kept, prepared: seq<Posit>)
    requires PositsAdded(k, t, prepared) && !AllPersistable(k)
    ensures !AllPersistable(t)
  {
    hide Keepers.Sound;
    hide Persistable;
    var id :| id in k.posits && !Persistable(k.posits[id]);
    assert t.posits[id] == k.posits[id];
  }

  lemma PositsStayInOrder(k: Keepers.Kept, t: Keepers.Kept, asked: seq<PositRequest>, prepared: seq<Posit>, bound: Thing, upTo: Thing,
      log: Option<seq<seq<PendingRecord>>>, normal: Normalizer, parse: Parser)
    requires InOrder(t, upTo, log, normal, parse) && PositSideUnchanged(k, t) && PositStage(t, asked, prepared, bound, upTo, parse)
    ensures PositsKept(k, KeepPosits(t, prepared), prepared)
    ensures forall requests :: SidesKept(k, t, requests) ==> SidesKept(k, KeepPosits(t, prepared), requests)
    ensures InOrder(KeepPosits(t, prepared), upTo, Appended(log, PositBatch(prepared)), normal, parse)
  {
    hide Recorded;
    hide Keepers.Sound;
    KeepPositsAdds(t, prepared, parse);
    IdentitiesAfterPosits(t, KeepPosits(t, prepared), prepared, asked, bound, parse, upTo);
    KeptLikeAdded(k, t, KeepPosits(t, prepared), prepared);
    hide PositsAdded;
    hide PositsKept;
    hide Bounded;
    hide HasBuiltins;
    hide Apart;
    hide Asked;
    hide Met;
    hide PositRecordOf;
    hide AllParse;
    if log.Some? && prepared != [] {
      PositsRecorded(t, prepared, normal, parse, log.value);
    }
    hide Fresh;
  }

  lemma KeptLikeAdded(k: Keepers.Kept, t: Keepers.Kept, u: Keepers.Kept, prepared: seq<Posit>)
    requires PositSideUnchanged(k, t) && PositsAdded(t, u, prepared)
    ensures PositsKept(k, u, prepared)
  {
    hide Keepers.Sound;
  }

  lemma FreshParse(k: Keepers.Kept, prepared: seq<Posit>, parse: Parser)
    requires Fresh(k, prepared, parse)
    ensures forall p :: p in prepared ==> parse(p.value.token, p.value.family) == Some(p.value.meaning)
  {
    hide PropositionOf;
  }

  lemma IdentitiesAfterPosits(k: Keepers.Kept, t: Keepers.Kept, prepared: seq<Posit>, asked: seq<PositRequest>, bound: Thing, parse: Parser, upTo: Thing)
    requires PositsAdded(k, t, prepared) && Fresh(k, prepared, parse) && Asked(prepared, asked, bound, upTo)
    requires Bounded(k, upTo) && Apart(k) && HasBuiltins(k) && AllParse(k, parse)
    ensures Keepers.Sound(t) && Bounded(t, upTo) && Apart(t) && HasBuiltins(t) && AllParse(t, parse)
  {
    hide Keepers.Sound;
    hide Encodable;
    hide PropositionOf;
    FreshParse(k, prepared, parse);
  }

  /** Something was prepared exactly when a target is new, or an assertion about a kept one is. */
  lemma SomethingNew(k: Keepers.Kept, t: Keepers.Kept, targets: seq<PositRequest>, assertions: seq<AssertionSpec>, requests: seq<PositRequest>,
      targetSources: seq<PositSource>, assertionSources: seq<PositSource>, prepared: seq<Posit>, bound: Thing, upTo: Thing, parse: Parser)
    requires Keepers.Sound(k) && PositSideUnchanged(k, t)
    requires SourcesFor(t, prepared, targets, targetSources) && SourcesFor(t, prepared, requests, assertionSources)
    requires PositStage(t, targets + requests, prepared, bound, upTo, parse)
    requires (forall s :: s in targetSources ==> s.NewPosit? ==> s.index < |prepared|) && |targetSources| == |targets|
    requires forall s :: s in assertions ==> s.targetIndex < |targets|
    requires requests == AssertionRequests(assertions, Resolved(targetSources, prepared))
    ensures prepared != [] <==> SomeNewTarget(k, targets) || SomeNewAssertion(k, targets, assertions)
  {
    KnownPropositions(k);
    assert Keepers.PropositionsUnique(k);
    hide Keepers.Sound;
    hide Encodable;
    hide NewAssertion;
    hide PositSideUnchanged;
    hide PositStage;
    hide SourcesFor;
    if prepared != [] && !SomeNewTarget(k, targets) {
      NewIsAssertion(k, t, targets, assertions, requests, targetSources, prepared, bound, upTo, parse);
    }
    if SomeNewTarget(k, targets) {
      var i :| 0 <= i < |targets| && RequestedProposition(targets[i]) !in k.propositions;
      NewIsPrepared(k, t, targets, targetSources, prepared, i);
    } else if SomeNewAssertion(k, targets, assertions) {
      var j :| 0 <= j < |assertions| && NewAssertion(k, targets, assertions[j]);
      assert assertions[j] in assertions;
      NewAssertionIsNew(k, t, targets, assertions, requests, targetSources, prepared, j);
      NewIsPrepared(k, t, requests, assertionSources, prepared, j);
    }
  }

  lemma NewIsPrepared(k: Keepers.Kept, t: Keepers.Kept, requests: seq<PositRequest>, sources: seq<PositSource>, prepared: seq<Posit>, i: nat)
    requires PositSideUnchanged(k, t) && SourcesFor(t, prepared, requests, sources)
    requires i < |requests| && RequestedProposition(requests[i]) !in k.propositions
    ensures prepared != []
  {
    assert PositSourceFor(t, prepared, requests[i], sources[i]);
  }

  lemma NewAssertionIsNew(k: Keepers.Kept, t: Keepers.Kept, targets: seq<PositRequest>, assertions: seq<AssertionSpec>, requests: seq<PositRequest>,
      targetSources: seq<PositSource>, prepared: seq<Posit>, j: nat)
    requires Keepers.PropositionsUnique(k) && PositSideUnchanged(k, t) && SourcesFor(t, prepared, targets, targetSources)
    requires (forall s :: s in targetSources ==> s.NewPosit? ==> s.index < |prepared|) && |targetSources| == |targets|
    requires (forall s :: s in assertions ==> s.targetIndex < |targets|) && requests == AssertionRequests(assertions, Resolved(targetSources, prepared))
    requires j < |assertions| && NewAssertion(k, targets, assertions[j]) && !SomeNewTarget(k, targets)
    ensures RequestedProposition(requests[j]) !in k.propositions
  {
    KnownTargets(k, t, targets, targetSources, prepared, assertions[j].targetIndex);
  }

  /** A known target resolves to its kept posit. */
  lemma KnownTargets(k: Keepers.Kept, t: Keepers.Kept, targets: seq<PositRequest>, sources: seq<PositSource>, prepared: seq<Posit>, i: nat)
    requires Keepers.PropositionsUnique(k) && PositSideUnchanged(k, t) && SourcesFor(t, prepared, targets, sources)
    requires i < |targets| && RequestedProposition(targets[i]) in k.propositions
    requires forall s :: s in sources ==> s.NewPosit? ==> s.index < |prepared|
    ensures KeptTarget(k, targets[i]) == Some(Resolved(sources, prepared)[i])
  {
    assert PositSourceFor(t, prepared, targets[i], sources[i]);
    assert sources[i] in sources;
  }

  lemma NewIsAssertion(k: Keepers.Kept, t: Keepers.Kept, targets: seq<PositRequest>, assertions: seq<AssertionSpec>, requests: seq<PositRequest>,
      targetSources: seq<PositSource>, prepared: seq<Posit>, bound: Thing, upTo: Thing, parse: Parser)
    requires Keepers.PropositionsUnique(k) && PositSideUnchanged(k, t) && SourcesFor(t, prepared, targets, targetSources)
    requires PositStage(t, targets + requests, prepared, bound, upTo, parse) && prepared != []
    requires (forall s :: s in targetSources ==> s.NewPosit? ==> s.index < |prepared|) && |targetSources| == |targets|
    requires forall s :: s in assertions ==> s.targetIndex < |targets|
    requires requests == AssertionRequests(assertions, Resolved(targetSources, prepared))
    requires !SomeNewTarget(k, targets)
    ensures SomeNewAssertion(k, targets, assertions)
  {
    hide Encodable;
    var p := prepared[0];
    assert p in prepared;
    assert exists i: nat :: FirstAsked(targets + requests, bound, i, p);
    var i: nat :| FirstAsked(targets + requests, bound, i, p);
    assert RequestedProposition((targets + requests)[i]) == PropositionOf(p);
    var j := i - |targets|;
    assert 0 <= j < |requests| && requests[j] == (targets + requests)[i];
    assert assertions[j] in assertions;
    KnownTargets(k, t, targets, targetSources, prepared, assertions[j].targetIndex);
    assert NewAssertion(k, targets, assertions[j]);
  }

  lemma PositsAreAnswered(k: Keepers.Kept, t: Keepers.Kept, asked: seq<PositRequest>, prepared: seq<Posit>, requests: seq<PositRequest>, sources: seq<PositSource>,
      bound: Thing, upTo: Thing, parse: Parser)
    requires PositSideUnchanged(k, t) && PositStage(t, asked, prepared, bound, upTo, parse) && SourcesFor(t, prepared, requests, sources)
    requires (forall s :: s in sources ==> s.NewPosit? ==> s.index < |prepared|) && PositsKept(k, KeepPosits(t, prepared), prepared)
    ensures PositsAnswered(k, KeepPosits(t, prepared), bound, requests, Resolved(sources, prepared))
  {
    hide Fresh;
    hide PropositionOf;
    hide RequestedProposition;
    var (u, posits) := (KeepPosits(t, prepared), Resolved(sources, prepared));
    hide KeepPosits;
    forall i | 0 <= i < |requests| ensures PositGranted(k, u, bound, requests[i], posits[i]) {
      assert PositSourceFor(t, prepared, requests[i], sources[i]);
      assert sources[i] in sources;
      if sources[i].NewPosit? {
        assert prepared[sources[i].index] in prepared;
      }
    }
  }

  lemma IdentitiesBounded(k: Keepers.Kept, bound: Thing, log: Option<seq<seq<PendingRecord>>>, normal: Normalizer, parse: Parser)
    requires InOrder(k, bound, log, normal, parse)
    ensures Bounded(k, bound)
  {
  }

  lemma StaysConsistent(k: Keepers.Kept, bound: Thing, upTo: Thing, log: Option<seq<seq<PendingRecord>>>, normal: Normalizer, parse: Parser)
    requires InOrder(k, bound, log, normal, parse) && bound <= upTo
    ensures InOrder(k, upTo, log, normal, parse)
  {
    hide Recorded;
    hide Keepers.Sound;
  }

  ghost predicate RolesAnswered(k: Keepers.Kept, t: Keepers.Kept, bound: Thing, requests: seq<(string, bool)>, normal: Normalizer, answers: seq<(Role, bool)>) {
    |answers| == |requests| && forall i :: 0 <= i < |requests| ==> RoleGranted(k, t, bound, requests[i], normal(requests[i].0), answers[i])
  }

  function Answers(prepared: seq<Role>, sources: seq<RoleSource>): seq<(Role, bool)>
    requires forall s :: s in sources ==> s.NewRole? ==> s.index < |prepared|
  {
    seq(|sources|, i requires 0 <= i < |sources| =>
      assert sources[i] in sources;
      match sources[i] case ExistingRole(role) => (role, true) case NewRole(index) => (prepared[index], false))
  }

  method AnswerRoles(prepared: seq<Role>, sources: seq<RoleSource>) returns (answers: seq<(Role, bool)>)
    requires forall s :: s in sources ==> s.NewRole? ==> s.index < |prepared|
    ensures answers == Answers(prepared, sources)
  {
    answers := [];
    for i := 0 to |sources|
      invariant |answers| == i && forall n :: 0 <= n < i ==> answers[n] == Answers(prepared, sources)[n]
    {
      assert sources[i] in sources;
      match sources[i] {
        case ExistingRole(role) => answers := answers + [(role, true)];
        case NewRole(index) => answers := answers + [(prepared[index], false)];
      }
    }
  }

  lemma NotRefused(k: Keepers.Kept, requests: seq<(string, bool)>, normal: Normalizer, prepared: seq<Role>, sources: seq<RoleSource>, bound: Thing, upTo: Thing)
    requires RoleStage(k, requests, normal, |requests|, prepared, sources, bound, upTo)
    ensures !RolesRefused(k, requests, normal) && forall s :: s in sources ==> s.NewRole? ==> s.index < |prepared|
    ensures SomeUnknown(k, requests, normal) <==> prepared != []
  {
    hide RoleRefused;
    hide FreshRoles;
    forall s | s in sources ensures s.NewRole? ==> s.index < |prepared| {
      var i :| 0 <= i < |sources| && sources[i] == s;
      assert RoleSourceFor(k, prepared, requests[i], normal(requests[i].0), sources[i]);
    }
    if SomeUnknown(k, requests, normal) {
      var i :| 0 <= i < |requests| && normal(requests[i].0) !in k.rolesByName;
      assert RoleSourceFor(k, prepared, requests[i], normal(requests[i].0), sources[i]);
    }
    if prepared != [] {
      PreparedIsUnknown(k, requests, normal, prepared, sources, bound, upTo);
    }
  }

  lemma PreparedIsUnknown(k: Keepers.Kept, requests: seq<(string, bool)>, normal: Normalizer, prepared: seq<Role>, sources: seq<RoleSource>, bound: Thing, upTo: Thing)
    requires RoleStage(k, requests, normal, |requests|, prepared, sources, bound, upTo) && prepared != []
    ensures SomeUnknown(k, requests, normal)
  {
    hide RoleRefused;
    hide ValidRole;
    var r := prepared[0];
    assert r in prepared;
    var n :| 0 <= n < |requests| && normal(requests[n].0) == r.name && requests[n].1 == r.reserved;
    assert normal(requests[n].0) !in k.rolesByName;
  }

  ghost predicate SomeUnknown(k: Keepers.Kept, requests: seq<(string, bool)>, normal: Normalizer) {
    exists i :: 0 <= i < |requests| && normal(requests[i].0) !in k.rolesByName
  }

  lemma ApplyBatchesSnoc(batches: seq<seq<PendingRecord>>, batch: seq<PendingRecord>, normal: Normalizer, parse: Parser)
    ensures ApplyBatches(NOTHING, batches + [batch], normal, parse) ==
            (match ApplyBatches(NOTHING, batches, normal, parse) case Some(s) => ApplyBatch(s, batch, normal, parse) case None => None)
  {
    hide ApplyBatch;
    assert (batches + [batch])[..|batches|] == batches;
  }

  lemma RolesRecorded(k: Keepers.Kept, prepared: seq<Role>, normal: Normalizer, parse: Parser, batches: seq<seq<PendingRecord>>)
    requires Recorded(k, batches, normal, parse) && Keepers.Sound(k) && FreshRoles(k, prepared, normal)
    ensures Recorded(KeepRoles(k, prepared), batches + [RoleBatch(prepared)], normal, parse)
  {
    hide Keepers.Sound;
    hide FreshRoles;
    hide RoleBatch;
    hide Matches;
    ApplyBatchesSnoc(batches, RoleBatch(prepared), normal, parse);
    if AllPersistable(k) {
      RoleBatchFaithful(ApplyBatches(NOTHING, batches, normal, parse).value, k, prepared, normal, parse);
    }
    hide ApplyBatches;
    hide ApplyBatch;
    hide Persistable;
    KeepRolesAdds(k, prepared, normal);
    SamePositsPersist(k, KeepRoles(k, prepared), prepared);
    hide AllPersistable;
  }

  lemma SamePositsPersist(k: Keepers.Kept, t: Keepers.Kept, prepared: seq<Role>)
    requires RolesAdded(k, t, prepared)
    ensures AllPersistable(t) <==> AllPersistable(k)
  {
    hide Keepers.Sound;
    hide Persistable;
    assert t.posits == k.posits;
  }

  lemma RolesStayConsistent(k: Keepers.Kept, requests: seq<(string, bool)>, normal: Normalizer, parse: Parser, prepared: seq<Role>, sources: seq<RoleSource>,
      bound: Thing, upTo: Thing, log: Option<seq<seq<PendingRecord>>>)
    requires InOrder(k, upTo, log, normal, parse) && Bounded(k, bound)
    requires RoleStage(k, requests, normal, |requests|, prepared, sources, bound, upTo)
    ensures RolesAdded(k, KeepRoles(k, prepared), prepared)
    ensures InOrder(KeepRoles(k, prepared), upTo, Appended(log, RoleBatch(prepared)), normal, parse)
  {
    hide Recorded;
    hide Keepers.Sound;
    hide RoleSourceFor;
    hide RoleRefused;
    hide RolesAdded;
    hide HasBuiltins;
    hide AllParse;
    hide Apart;
    hide RoleRecord;
    KeepRolesAdds(k, prepared, normal);
    IdentitiesAfterRoles(k, KeepRoles(k, prepared), prepared, normal, parse, upTo);
    hide FreshRoles;
    hide Bounded;
    if log.Some? && prepared != [] {
      RolesRecorded(k, prepared, normal, parse, log.value);
    }
  }

  lemma IdentitiesAfterRoles(k: Keepers.Kept, t: Keepers.Kept, prepared: seq<Role>, normal: Normalizer, parse: Parser, upTo: Thing)
    requires RolesAdded(k, t, prepared) && FreshRoles(k, prepared, normal) && forall r :: r in prepared ==> r.id <= upTo
    requires Bounded(k, upTo) && Apart(k) && HasBuiltins(k) && AllParse(k, parse)
    ensures Keepers.Sound(t) && Bounded(t, upTo) && Apart(t) && HasBuiltins(t) && AllParse(t, parse)
  {
    hide Keepers.Sound;
    hide ValidRole;
  }

  lemma StagedPast(prepared: seq<Role>, bound: Thing)
    requires RolesFollow(prepared, bound)
    ensures forall r :: r in prepared ==> r.id > bound
  {
  }

  lemma RolesAreAnswered(k: Keepers.Kept, requests: seq<(string, bool)>, normal: Normalizer, parse: Parser, prepared: seq<Role>, sources: seq<RoleSource>,
      bound: Thing, upTo: Thing, log: Option<seq<seq<PendingRecord>>>)
    requires InOrder(k, upTo, log, normal, parse)
    requires RoleStage(k, requests, normal, |requests|, prepared, sources, bound, upTo) && RolesAdded(k, KeepRoles(k, prepared), prepared)
    requires forall s :: s in sources ==> s.NewRole? ==> s.index < |prepared|
    ensures RolesAnswered(k, KeepRoles(k, prepared), bound, requests, normal, Answers(prepared, sources))
  {
    StagedPast(prepared, bound);
    hide RolesFollow;
    hide RoleRefused;
    hide FreshRoles;
    hide Recorded;
    var (t, answers) := (KeepRoles(k, prepared), Answers(prepared, sources));
    hide KeepRoles;
    assert Keepers.RolesUnique(k);
    hide Keepers.Sound;
    forall i | 0 <= i < |requests| ensures RoleGranted(k, t, bound, requests[i], normal(requests[i].0), answers[i]) {
      assert RoleSourceFor(k, prepared, requests[i], normal(requests[i].0), sources[i]);
      if sources[i].NewRole? {
        assert prepared[sources[i].index] in prepared;
      }
    }
  }

  function WithNew<T>(prepared: seq<T>, more: Option<T>): seq<T> {
    match more
    case Some(x) => prepared + [x]
    case None => prepared
  }

  /** Stages one request: a kept role, a role prepared earlier in this command, or a new one. */
  method StageRole(generator: ThingGenerator, normal: Normalizer, known: map<string, Role>, requests: seq<(string, bool)>, i: nat, prepared: seq<Role>,
      ghost k: Keepers.Kept, ghost sources: seq<RoleSource>, ghost bound: Thing)
    returns (staged: Result<(Option<Role>, RoleSource), CommandError>)
    requires i < |requests| && Stable(normal) && generator.Valid() && Bounded(k, bound) && bound <= generator.lowerBound
    requires generator.lowerBound + 1 < U64 && ShortText(normal(requests[i].0)) && known == k.rolesByName
    requires RoleStage(k, requests, normal, i, prepared, sources, bound, generator.lowerBound)
    modifies generator
    ensures generator.Valid() && old(generator.lowerBound) <= generator.lowerBound <= old(generator.lowerBound) + 1
    ensures staged.Err? ==> staged.error == Execution && RolesRefused(k, requests, normal)
    ensures staged.Ok? ==> RoleStage(k, requests, normal, i + 1, WithNew(prepared, staged.value.0), sources + [staged.value.1], bound, generator.lowerBound)
  {
    hide Stable;
    hide ShortText;
    hide RoleStage;
    hide RolesRefused;
    hide Bounded;
    ghost var before := generator.lowerBound;
    var name := normal(requests[i].0);
    if name == "" {
      RefusedAt(k, requests, normal, i, prepared, sources, bound, before);
      return Err(Execution);
    }
    if name in known {
      StagedExisting(k, requests, normal, i, prepared, sources, bound, before);
      return Ok((None, ExistingRole(known[name])));
    }
    var found := FindRole(prepared, name);
    if found.Some? {
      if prepared[found.value].reserved != requests[i].1 {
        RefusedAgain(k, requests, normal, i, prepared, sources, bound, before, found.value);
        return Err(Execution);
      }
      StagedAgain(k, requests, normal, i, prepared, sources, bound, before, found.value);
      return Ok((None, NewRole(found.value)));
    }
    var id := generator.Generate();
    StagedNew(k, requests, normal, i, prepared, sources, bound, before);
    return Ok((Some(Role(id, name, requests[i].1)), NewRole(|prepared|)));
  }

  /** The first i requests have been staged, and none of them was refused. */
  /** New roles get consecutive identities past a bound. */
  ghost predicate RolesFollow(prepared: seq<Role>, bound: Thing) {
    forall i :: 0 <= i < |prepared| ==> prepared[i].id == bound + i + 1
  }

  ghost predicate RoleStage(k: Keepers.Kept, requests: seq<(string, bool)>, normal: Normalizer, i: nat, prepared: seq<Role>, sources: seq<RoleSource>, bound: Thing, upTo: Thing)
    requires i <= |requests|
  {
    && FreshRoles(k, prepared, normal) && |sources| == i
    && RolesFollow(prepared, bound) && upTo == bound + |prepared|
    && (forall r :: r in prepared ==> exists n :: 0 <= n < i && normal(requests[n].0) == r.name && requests[n].1 == r.reserved)
    && (forall n :: 0 <= n < i ==> RoleSourceFor(k, prepared, requests[n], normal(requests[n].0), sources[n]))
    && (forall n :: 0 <= n < i ==> !RoleRefused(k, requests, normal, n))
  }

  lemma StagedFollow(k: Keepers.Kept, requests: seq<(string, bool)>, normal: Normalizer, prepared: seq<Role>, sources: seq<RoleSource>, bound: Thing, upTo: Thing)
    requires RoleStage(k, requests, normal, |requests|, prepared, sources, bound, upTo)
    ensures RolesFollow(prepared, bound) && upTo == bound + |prepared|
  {
  }

  lemma NoRolesStaged(k: Keepers.Kept, requests: seq<(string, bool)>, normal: Normalizer, bound: Thing)
    ensures RoleStage(k, requests, normal, 0, [], [], bound, bound)
  {
  }

  lemma RefusedAt(k: Keepers.Kept, requests: seq<(string, bool)>, normal: Normalizer, i: nat, prepared: seq<Role>, sources: seq<RoleSource>, bound: Thing, upTo: Thing)
    requires i < |requests| && normal(requests[i].0) == ""
    ensures RolesRefused(k, requests, normal)
  {
    assert RoleRefused(k, requests, normal, i);
  }

  lemma RefusedAgain(k: Keepers.Kept, requests: seq<(string, bool)>, normal: Normalizer, i: nat, prepared: seq<Role>, sources: seq<RoleSource>, bound: Thing, upTo: Thing, index: nat)
    requires i < |requests| && RoleStage(k, requests, normal, i, prepared, sources, bound, upTo) && normal(requests[i].0) !in k.rolesByName
    requires index < |prepared| && prepared[index].name == normal(requests[i].0) && prepared[index].reserved != requests[i].1
    ensures RolesRefused(k, requests, normal)
  {
    var r := prepared[index];
    assert r in prepared;
    var n :| 0 <= n < i && normal(requests[n].0) == r.name && requests[n].1 == r.reserved;
    assert RoleRefused(k, requests, normal, i);
  }

  lemma StagedExisting(k: Keepers.Kept, requests: seq<(string, bool)>, normal: Normalizer, i: nat, prepared: seq<Role>, sources: seq<RoleSource>, bound: Thing, upTo: Thing)
    requires i < |requests| && RoleStage(k, requests, normal, i, prepared, sources, bound, upTo)
    requires normal(requests[i].0) != "" && normal(requests[i].0) in k.rolesByName
    ensures RoleStage(k, requests, normal, i + 1, prepared, sources + [ExistingRole(k.rolesByName[normal(requests[i].0)])], bound, upTo)
  {
    hide FreshRoles;
    assert !RoleRefused(k, requests, normal, i);
    hide RoleRefused;
  }

  lemma StagedAgain(k: Keepers.Kept, requests: seq<(string, bool)>, normal: Normalizer, i: nat, prepared: seq<Role>, sources: seq<RoleSource>, bound: Thing, upTo: Thing, index: nat)
    requires i < |requests| && RoleStage(k, requests, normal, i, prepared, sources, bound, upTo)
    requires normal(requests[i].0) != "" && normal(requests[i].0) !in k.rolesByName
    requires index < |prepared| && prepared[index].name == normal(requests[i].0) && prepared[index].reserved == requests[i].1
    ensures RoleStage(k, requests, normal, i + 1, prepared, sources + [NewRole(index)], bound, upTo)
  {
    SameReservedSoFar(k, requests, normal, i, prepared, sources, index);
    hide FreshRoles;
    hide RoleRefused;
  }

  lemma StagedNew(k: Keepers.Kept, requests: seq<(string, bool)>, normal: Normalizer, i: nat, prepared: seq<Role>, sources: seq<RoleSource>, bound: Thing, upTo: Thing)
    requires i < |requests| && RoleStage(k, requests, normal, i, prepared, sources, bound, upTo)
    requires normal(requests[i].0) != "" && normal(requests[i].0) !in k.rolesByName && ShortText(normal(requests[i].0))
    requires forall r :: r in prepared ==> r.name != normal(requests[i].0)
    requires Stable(normal) && Bounded(k, bound) && bound <= upTo && upTo + 1 < U64
    ensures RoleStage(k, requests, normal, i + 1, prepared + [Role(upTo + 1, normal(requests[i].0), requests[i].1)], sources + [NewRole(|prepared|)], bound, upTo + 1)
  {
    var name := normal(requests[i].0);
    var r := Role(upTo + 1, name, requests[i].1);
    assert normal(name) == name;
    hide ShortText;
    FreshRolesOneMore(k, prepared, r, normal);
    FirstOfItsName(k, requests, normal, i, prepared, sources);
    hide FreshRoles;
    hide RoleRefused;
    hide Bounded;
    var (more, all) := (prepared + [r], sources + [NewRole(|prepared|)]);
    forall n | 0 <= n < i + 1 ensures RoleSourceFor(k, more, requests[n], normal(requests[n].0), all[n]) {
      if n < i {
        assert RoleSourceFor(k, prepared, requests[n], normal(requests[n].0), sources[n]);
      }
    }
    forall q | q in more ensures exists n :: 0 <= n < i + 1 && normal(requests[n].0) == q.name && requests[n].1 == q.reserved {
      if q in prepared {
        var n :| 0 <= n < i && normal(requests[n].0) == q.name && requests[n].1 == q.reserved;
      } else {
        assert normal(requests[i].0) == q.name;
      }
    }
  }

  /** All earlier requests for a prepared name agreed with it. */
  lemma SameReservedSoFar(k: Keepers.Kept, requests: seq<(string, bool)>, normal: Normalizer, i: nat, prepared: seq<Role>, sources: seq<RoleSource>, index: nat)
    requires i < |requests| && |sources| == i && index < |prepared| && prepared[index].name == normal(requests[i].0) && prepared[index].reserved == requests[i].1
    requires normal(requests[i].0) != "" && forall a, b :: 0 <= a < b < |prepared| ==> prepared[a].name != prepared[b].name
    requires forall n :: 0 <= n < i ==> RoleSourceFor(k, prepared, requests[n], normal(requests[n].0), sources[n])
    ensures !RoleRefused(k, requests, normal, i)
  {
    var name := normal(requests[i].0);
    if name !in k.rolesByName {
      forall j | 0 <= j < i && normal(requests[j].0) == name ensures requests[j].1 == requests[i].1 {
        assert RoleSourceFor(k, prepared, requests[j], name, sources[j]);
        assert sources[j].NewRole? && prepared[sources[j].index].name == name;
        assert sources[j].index == index;
      }
    }
  }

  lemma FirstOfItsName(k: Keepers.Kept, requests: seq<(string, bool)>, normal: Normalizer, i: nat, prepared: seq<Role>, sources: seq<RoleSource>)
    requires i < |requests| && |sources| == i && normal(requests[i].0) != "" && normal(requests[i].0) !in k.rolesByName
    requires forall r :: r in prepared ==> r.name != normal(requests[i].0)
    requires forall n :: 0 <= n < i ==> RoleSourceFor(k, prepared, requests[n], normal(requests[n].0), sources[n])
    ensures !RoleRefused(k, requests, normal, i)
  {
    forall j | 0 <= j < i ensures normal(requests[j].0) != normal(requests[i].0) {
      assert RoleSourceFor(k, prepared, requests[j], normal(requests[j].0), sources[j]);
    }
  }
}
