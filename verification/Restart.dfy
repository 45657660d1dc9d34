/**
 Opening a database: a new store is bootstrapped, any other is replayed and its keepers
 and indexes are rebuilt construct by construct.
 */
module Restart {
  import opened Prelude
  import opened Encoding
  import opened Frames
  import opened Constructs
  import opened Payload
  import opened PositCodec
  import opened Replay
  import Keepers
  import opened Logging
  import opened Databases

  // ------------------------------------------------------------------- a new store

  function BootstrapBatch(): seq<PendingRecord> {
    RoleBatch(BUILTIN_ROLES) + [CodecRecord(RawUtf8), CodecRecord(CanonicalI64), CodecRecord(CanonicalCertainty)]
  }

  /** What a command logs is data records: a store never refuses one as anything else. */
  lemma LoggedIsAppendable(roles: seq<Role>, posits: seq<Posit>)
    ensures forall r :: r in RoleBatch(roles) || r in PositBatch(posits) || r in BootstrapBatch() ==> Appendable(r)
  {
    hide RolePayload;
    hide CodecPayload;
    hide PositPayload;
  }

  /** The built-in names are in canonical form, as plain lower-case words are. */
  ghost predicate PlainNames(normal: Normalizer) {
    forall r :: r in BUILTIN_ROLES ==> normal(r.name) == r.name
  }

  function AllRoles(s: ReplayState, roles: seq<Role>): Option<ReplayState> {
    if roles == [] then Some(s)
    else
      var next :- AllRoles(s, roles[..|roles| - 1]);
      Replay.AddRole(next, roles[|roles| - 1])
  }

  lemma {:induction false} RolesApply(s: ReplayState, roles: seq<Role>, normal: Normalizer, parse: Parser)
    requires forall r :: r in roles ==> ValidRole(r, normal)
    ensures ApplyBatch(s, RoleBatch(roles), normal, parse) == AllRoles(s, roles)
  {
    hide ShortText;
    if roles != [] {
      var (init, last) := (roles[..|roles| - 1], roles[|roles| - 1]);
      assert roles == init + [last];
      assert last in roles && ValidRole(last, normal);
      RolesApply(s, init, normal, parse);
      RoleBatchSnoc(init, last);
      ApplyBatchSnoc(s, RoleBatch(init), RoleRecord(last), normal, parse);
      hide ApplyBatch;
      hide DecodeRole;
      hide RolePayload;
      RoleBijection(RolePayload(last), last, normal);
    }
  }

  lemma CodecApplies(s: ReplayState, c: Codec, normal: Normalizer, parse: Parser)
    ensures ApplyRecord(s, CodecRecord(c), normal, parse) == AddCodec(s, c)
  {
    hide DecodeCodec;
    hide CodecPayload;
    CodecBijection(CodecPayload(c), c);
  }

  ghost predicate AllDistinct(roles: seq<Role>) {
    forall i, j :: 0 <= i < j < |roles| ==> roles[i].id != roles[j].id && roles[i].name != roles[j].name
  }

  /** A replay that has seen exactly these roles. */
  ghost predicate OnlyRoles(s: ReplayState, roles: seq<Role>) {
    && s.roles == roles && s.posits == [] && s.codecs == {} && s.propositions == {}
    && (forall r :: r in roles ==> r.id in s.rolesByIdentity)
    && IdsIn(s.rolesByIdentity.Keys, roles) && IdsIn(s.constructIdentities, roles) && NamesIn(s.identitiesByName.Keys, roles)
  }

  ghost predicate IdsIn(ids: set<Thing>, roles: seq<Role>) {
    forall id :: id in ids ==> exists r :: r in roles && r.id == id
  }

  ghost predicate NamesIn(names: set<string>, roles: seq<Role>) {
    forall name :: name in names ==> exists r :: r in roles && r.name == name
  }

  lemma IdsInMore(ids: set<Thing>, roles: seq<Role>, r: Role)
    requires IdsIn(ids, roles)
    ensures IdsIn(ids + {r.id}, roles + [r]) && ((forall q :: q in roles ==> q.id != r.id) ==> r.id !in ids)
  {
    assert r in roles + [r] && forall q :: q in roles ==> q in roles + [r];
  }

  lemma NamesInMore(names: set<string>, roles: seq<Role>, r: Role)
    requires NamesIn(names, roles)
    ensures NamesIn(names + {r.name}, roles + [r]) && ((forall q :: q in roles ==> q.name != r.name) ==> r.name !in names)
  {
    assert r in roles + [r] && forall q :: q in roles ==> q in roles + [r];
  }

  lemma OnlyRolesMore(s: ReplayState, roles: seq<Role>, r: Role)
    requires OnlyRoles(s, roles) && forall q :: q in roles ==> q.id != r.id && q.name != r.name
    ensures Replay.AddRole(s, r).Some? && OnlyRoles(Replay.AddRole(s, r).value, roles + [r])
  {
    hide IdsIn;
    hide NamesIn;
    IdsInMore(s.rolesByIdentity.Keys, roles, r);
    IdsInMore(s.constructIdentities, roles, r);
    NamesInMore(s.identitiesByName.Keys, roles, r);
    var t := Replay.AddRole(s, r).value;
    assert t.rolesByIdentity.Keys == s.rolesByIdentity.Keys + {r.id} && t.identitiesByName.Keys == s.identitiesByName.Keys + {r.name};
  }

  lemma {:induction false} RolesAllAdd(roles: seq<Role>)
    requires AllDistinct(roles)
    ensures AllRoles(NOTHING, roles).Some? && OnlyRoles(AllRoles(NOTHING, roles).value, roles)
  {
    if roles == [] {
      NoRoles();
    } else {
      var (init, last) := (roles[..|roles| - 1], roles[|roles| - 1]);
      assert roles == init + [last];
      RolesAllAdd(init);
      forall r | r in init ensures r.id != last.id && r.name != last.name {
        var i :| 0 <= i < |init| && init[i] == r;
        assert roles[i] == r;
      }
      hide OnlyRoles;
      hide Replay.AddRole;
      OnlyRolesMore(AllRoles(NOTHING, init).value, init, last);
    }
  }

  lemma NoRoles()
    ensures OnlyRoles(NOTHING, [])
  {
  }

  /** The replay of a bootstrapped store: the built-in roles and every codec. */
  function Bootstrapped(): ReplayState {
    BuiltinsDistinct();
    RolesAllAdd(BUILTIN_ROLES);
    AllRoles(NOTHING, BUILTIN_ROLES).value.(codecs := ALL_CODECS)
  }

  lemma BuiltinsDistinct()
    ensures AllDistinct(BUILTIN_ROLES)
  {
    assert "thing"[0] == 't' && "posit"[0] == 'p' && "class"[0] == 'c';
  }

  lemma BuiltinsAreValid(normal: Normalizer)
    requires PlainNames(normal)
    ensures forall r :: r in BUILTIN_ROLES ==> ValidRole(r, normal)
  {
    forall r | r in BUILTIN_ROLES ensures ValidRole(r, normal) {
      EncodedLength(r.name);
    }
  }

  lemma OneCodec(batch: seq<PendingRecord>, s: ReplayState, c: Codec, normal: Normalizer, parse: Parser)
    requires ApplyBatch(NOTHING, batch, normal, parse) == Some(s) && c !in s.codecs
    ensures ApplyBatch(NOTHING, batch + [CodecRecord(c)], normal, parse) == Some(s.(codecs := s.codecs + {c}))
  {
    CodecApplies(s, c, normal, parse);
    hide ApplyRecord;
    hide CodecRecord;
    ApplyBatchSnoc(NOTHING, batch, CodecRecord(c), normal, parse);
    hide ApplyBatch;
  }

  lemma ThreeCodecs(roles: seq<PendingRecord>, s: ReplayState, normal: Normalizer, parse: Parser)
    requires ApplyBatch(NOTHING, roles, normal, parse) == Some(s) && s.codecs == {}
    ensures ApplyBatch(NOTHING, roles + [CodecRecord(RawUtf8), CodecRecord(CanonicalI64), CodecRecord(CanonicalCertainty)], normal, parse)
            == Some(s.(codecs := ALL_CODECS))
  {
    hide ApplyBatch;
    hide CodecRecord;
    var (b1, b2) := (roles + [CodecRecord(RawUtf8)], roles + [CodecRecord(RawUtf8)] + [CodecRecord(CanonicalI64)]);
    OneCodec(roles, s, RawUtf8, normal, parse);
    var s1 := s.(codecs := s.codecs + {RawUtf8});
    OneCodec(b1, s1, CanonicalI64, normal, parse);
    var s2 := s1.(codecs := s1.codecs + {CanonicalI64});
    OneCodec(b2, s2, CanonicalCertainty, normal, parse);
    assert s2.codecs + {CanonicalCertainty} == ALL_CODECS;
    assert b2 + [CodecRecord(CanonicalCertainty)] == roles + [CodecRecord(RawUtf8), CodecRecord(CanonicalI64), CodecRecord(CanonicalCertainty)];
  }

  lemma BootstrapRoles(normal: Normalizer, parse: Parser)
    requires PlainNames(normal)
    ensures ApplyBatch(NOTHING, RoleBatch(BUILTIN_ROLES), normal, parse) == Some(Bootstrapped().(codecs := {}))
  {
    BuiltinsAreValid(normal);
    hide ValidRole;
    RolesApply(NOTHING, BUILTIN_ROLES, normal, parse);
    hide ApplyBatch;
    hide RoleBatch;
    BuiltinsDistinct();
    RolesAllAdd(BUILTIN_ROLES);
    hide AllRoles;
    hide AllDistinct;
  }

  lemma BootstrapReplays(normal: Normalizer, parse: Parser)
    requires PlainNames(normal)
    ensures ApplyBatches(NOTHING, [BootstrapBatch()], normal, parse) == Some(Bootstrapped())
  {
    BootstrapRoles(normal, parse);
    assert Bootstrapped().codecs == ALL_CODECS;
    hide Bootstrapped;
    hide ApplyBatch;
    hide RoleBatch;
    hide CodecRecord;
    ThreeCodecs(RoleBatch(BUILTIN_ROLES), Bootstrapped().(codecs := {}), normal, parse);
    OneBatch(BootstrapBatch(), normal, parse);
  }

  lemma OneBatch(batch: seq<PendingRecord>, normal: Normalizer, parse: Parser)
    ensures ApplyBatches(NOTHING, [batch], normal, parse) == ApplyBatch(NOTHING, batch, normal, parse)
  {
    hide ApplyBatch;
    assert [batch][..0] == [];
    assert ApplyBatches(NOTHING, [], normal, parse) == Some(NOTHING);
  }

  // ------------------------------------------------------------------ what is rebuilt

  /** The rebuilt roles so far, and nothing else. */
  ghost predicate RolesRebuilt(k: Keepers.Kept, roles: seq<Role>) {
    && Keepers.Sound(k) && k.roles == RoleMap(roles) && k.posits == map[] && k.propositions == map[]
    && forall name :: name in k.rolesByName <==> exists r :: r in roles && r.name == name
  }

  lemma RoleRebuilt(k: Keepers.Kept, roles: seq<Role>, r: Role)
    requires RolesRebuilt(k, roles) && forall q :: q in roles ==> q.id != r.id && q.name != r.name
    ensures r.name !in k.rolesByName && RolesRebuilt(Keepers.KeepRole(k, r), roles + [r])
  {
    hide Keepers.Sound;
    RoleMapHolds(roles);
    RoleMapSnoc(roles, r);
    hide RoleMap;
    Keepers.RoleKeepsSound(k, r);
    var (t, more) := (Keepers.KeepRole(k, r), roles + [r]);
    forall name ensures name in t.rolesByName <==> exists q :: q in more && q.name == name {
      if name in t.rolesByName {
        if name == r.name {
          assert r in more;
        } else {
          var q :| q in roles && q.name == name;
          assert q in more;
        }
      }
    }
  }

  /** Names are unique in a consistent replay. */
  lemma UniqueNames(roles: seq<Role>, byIdentity: map<Thing, Role>, byName: map<string, Thing>, i: nat)
    requires RoleTables(roles, byIdentity, byName) && i < |roles|
    ensures forall q :: q in roles[..i] ==> q.id != roles[i].id && q.name != roles[i].name
  {
    RoleMapHolds(roles);
    forall q | q in roles[..i] ensures q.id != roles[i].id && q.name != roles[i].name {
      var j :| 0 <= j < i && roles[j] == q;
      assert byIdentity[q.id] == q && byIdentity[roles[i].id] == roles[i];
      assert roles[i] in roles && q in roles;
    }
  }

  /** The rebuilt posits so far over the rebuilt roles; every identity they use is retained. */
  ghost predicate PositsRebuilt(k: Keepers.Kept, roles: map<Thing, Role>, posits: seq<Posit>) {
    && Keepers.Sound(k) && k.roles == roles && k.posits == PositMap(posits)
    && Propose(k.propositions, posits)
  }

  /** The known propositions are those of the posits. */
  ghost predicate Propose(known: map<Proposition, Thing>, posits: seq<Posit>) {
    forall x :: x in known <==> exists p :: p in posits && PropositionOf(p) == x
  }

  /** An identity that a posit has or that appears in it. */
  ghost predicate Mentions(p: Posit, id: Thing) {
    p.id == id || exists a :: a in p.appearances && a.thing == id
  }

  ghost predicate SomeMentions(posits: seq<Posit>, id: Thing) {
    exists p :: p in posits && Mentions(p, id)
  }

  lemma NoneRetained(bound: Thing)
    ensures Retained([], bound)
  {
  }

  lemma RetainedMore(posits: seq<Posit>, p: Posit, before: Thing, bound: Thing)
    requires Retained(posits, before) && before <= bound && p.id <= bound && forall a :: a in p.appearances ==> a.thing <= bound
    ensures Retained(posits + [p], bound)
  {
  }

  lemma PerhapsMentions(p: Posit, id: Thing)
    ensures (p.id == id || exists a :: a in p.appearances && a.thing == id) ==> Mentions(p, id)
  {
  }

  lemma MentionedEarlier(posits: seq<Posit>, p: Posit, id: Thing)
    ensures SomeMentions(posits, id) ==> SomeMentions(posits + [p], id)
    ensures Mentions(p, id) ==> SomeMentions(posits + [p], id)
  {
    hide Mentions;
    assert p in posits + [p] && forall q :: q in posits ==> q in posits + [p];
  }

  /** No larger than it must be: nothing yet, or some role or posit has or mentions it. */
  ghost predicate Attained(replayed: ReplayedStore, bound: Thing) {
    bound == GENESIS || (exists q :: q in replayed.roles && q.id == bound) || SomeMentions(replayed.posits, bound)
  }

  ghost predicate Retained(posits: seq<Posit>, bound: Thing) {
    forall p :: p in posits ==> p.id <= bound && forall a :: a in p.appearances ==> a.thing <= bound
  }

  lemma PropositionsOneMore(known: map<Proposition, Thing>, posits: seq<Posit>, p: Posit, more: map<Proposition, Thing>)
    requires Propose(known, posits) && more == known[PropositionOf(p) := p.id]
    ensures Propose(more, posits + [p])
  {
    hide PropositionOf;
    assert p in posits + [p] && forall q :: q in posits ==> q in posits + [p];
    forall x ensures x in more <==> exists q :: q in posits + [p] && PropositionOf(q) == x {
      if x in more && x != PropositionOf(p) {
        var q :| q in posits && PropositionOf(q) == x;
        assert q in posits + [p];
      }
    }
  }

  lemma PositRebuilt(k: Keepers.Kept, t: Keepers.Kept, roles: map<Thing, Role>, posits: seq<Posit>, p: Posit)
    requires PositsRebuilt(k, roles, posits) && PositSideUnchanged(k, t) && Keepers.Sound(t) && p.appearances in t.sets
    requires forall q :: q in posits ==> q.id != p.id && PropositionOf(q) != PropositionOf(p)
    ensures PropositionOf(p) !in t.propositions && PositsRebuilt(Keepers.KeepPosit(t, p), roles, posits + [p])
  {
    hide Keepers.Sound;
    hide PropositionOf;
    hide Keepers.IndexRoles;
    hide Keepers.InsertPosting;
    PositMapHolds(posits);
    PositMapSnoc(posits, p);
    hide PositMap;
    assert p.id !in t.posits && PropositionOf(p) !in t.propositions;
    hide Propose;
    Keepers.PositKeepsSound(t, p);
    PropositionsOneMore(t.propositions, posits, p, Keepers.KeepPosit(t, p).propositions);
  }

  lemma DistinctPosits(posits: seq<Posit>, propositions: set<Proposition>, i: nat)
    requires Propositional(posits, propositions) && i < |posits|
    ensures forall q :: q in posits[..i] ==> q.id != posits[i].id && PropositionOf(q) != PropositionOf(posits[i])
  {
    hide PropositionOf;
    forall q | q in posits[..i] ensures q.id != posits[i].id && PropositionOf(q) != PropositionOf(posits[i]) {
      var j :| 0 <= j < i && posits[j] == q;
    }
  }

  // ----------------------------------------------------------------------- the methods

  method Bootstrap(db: Database, durable: bool) returns (ok: bool)
    requires db.State() == Keepers.EMPTY && db.batches == [] && db.generator.Valid() && db.generator.lowerBound == GENESIS
    requires Stable(db.normal) && PlainNames(db.normal)
    modifies db, db.generator
    ensures ok <==> !db.persistent || durable
    ensures ok ==> db.Valid() && db.roles == RoleMap(BUILTIN_ROLES) && db.posits == map[] && db.generator.lowerBound == 5
    ensures db.Logged() == if ok && db.persistent then Some([BootstrapBatch()]) else old(db.Logged())
  {
    hide Stable;
    hide PlainNames;
    hide BootstrapBatch;
    hide Keepers.Sound;
    hide RoleMap;
    hide RolesRebuilt;
    hide Keepers.KeepRole;
    hide InOrder;
    if db.persistent {
      if !durable {
        return false;
      }
      db.batches := [BootstrapBatch()];
    }
    ghost var log := db.batches;
    NothingRebuilt();
    for i := 0 to |BUILTIN_ROLES|
      invariant db.generator.Valid() && db.generator.lowerBound == i && db.batches == log
      invariant RolesRebuilt(db.State(), BUILTIN_ROLES[..i])
    {
      assert BUILTIN_ROLES[..i + 1] == BUILTIN_ROLES[..i] + [BUILTIN_ROLES[i]];
      NextBuiltin(i);
      RoleRebuilt(db.State(), BUILTIN_ROLES[..i], BUILTIN_ROLES[i]);
      db.generator.Retain(BUILTIN_ROLES[i].id);
      var _, _ := db.KeepRole(BUILTIN_ROLES[i]);
    }
    assert BUILTIN_ROLES[..5] == BUILTIN_ROLES;
    BootstrapInOrder(db.State(), db.Logged(), db.normal, db.parse);
    RebuiltParts(db.State(), BUILTIN_ROLES);
    return true;
  }

  /** Built-in roles come in the order of their identities, under different names. */
  lemma NextBuiltin(i: nat)
    requires i < |BUILTIN_ROLES|
    ensures BUILTIN_ROLES[i].id == i + 1
    ensures forall q :: q in BUILTIN_ROLES[..i] ==> q.id != BUILTIN_ROLES[i].id && q.name != BUILTIN_ROLES[i].name
  {
    BuiltinsDistinct();
  }

  lemma RebuiltParts(k: Keepers.Kept, roles: seq<Role>)
    requires RolesRebuilt(k, roles)
    ensures k.roles == RoleMap(roles) && k.posits == map[]
  {
  }

  lemma NothingRebuilt()
    ensures RolesRebuilt(Keepers.EMPTY, [])
  {
    Keepers.EmptyIsSound();
    hide Keepers.Sound;
  }

  lemma BootstrapInOrder(k: Keepers.Kept, log: Option<seq<seq<PendingRecord>>>, normal: Normalizer, parse: Parser)
    requires RolesRebuilt(k, BUILTIN_ROLES) && PlainNames(normal) && (log == None || log == Some([BootstrapBatch()]))
    ensures InOrder(k, 5, log, normal, parse)
  {
    hide Keepers.Sound;
    hide PlainNames;
    BuiltinsBounded(k);
    if log.Some? {
      BootstrapRecorded(k, normal, parse);
    }
    hide BootstrapBatch;
    hide Recorded;
    hide RolesRebuilt;
  }

  lemma BuiltinsBounded(k: Keepers.Kept)
    requires RolesRebuilt(k, BUILTIN_ROLES)
    ensures Keepers.Sound(k) && Bounded(k, 5) && Apart(k) && HasBuiltins(k)
  {
    hide Keepers.Sound;
    BuiltinMap();
    hide RoleMap;
  }

  lemma BuiltinMap()
    ensures forall r :: r in BUILTIN_ROLES ==> Keepers.Holds(RoleMap(BUILTIN_ROLES), r)
    ensures forall id :: id in RoleMap(BUILTIN_ROLES) ==> id <= 5
  {
    NumberedMap(BUILTIN_ROLES);
    hide RoleMap;
  }

  lemma NumberedMap(roles: seq<Role>)
    requires forall i :: 0 <= i < |roles| ==> roles[i].id == i + 1
    ensures forall r :: r in roles ==> Keepers.Holds(RoleMap(roles), r)
    ensures forall id :: id in RoleMap(roles) ==> id <= |roles|
  {
    RoleMapHolds(roles);
    hide RoleMap;
  }

  lemma BootstrappedParts()
    ensures var r := Bootstrapped(); r.roles == BUILTIN_ROLES && r.posits == [] && r.codecs == ALL_CODECS
  {
    BuiltinsDistinct();
    RolesAllAdd(BUILTIN_ROLES);
    hide AllRoles;
  }

  lemma BootstrapRecorded(k: Keepers.Kept, normal: Normalizer, parse: Parser)
    requires RolesRebuilt(k, BUILTIN_ROLES) && PlainNames(normal)
    ensures Recorded(k, [BootstrapBatch()], normal, parse)
  {
    hide Keepers.Sound;
    BootstrapReplays(normal, parse);
    hide BootstrapBatch;
    ReplayConsistent([BootstrapBatch()], normal, parse);
    hide ApplyBatches;
    var r := Bootstrapped();
    BootstrappedParts();
    hide Bootstrapped;
    assert r.rolesByIdentity == RoleMap(BUILTIN_ROLES);
    assert PositMap([]) == map[];
    hide RoleMap;
    hide Replay.Consistent;
    assert Matches(r, k);
  }

  method RestoreRoles(db: Database, roles: seq<Role>, ghost r: ReplayState) returns (ok: bool)
    requires db.State() == Keepers.EMPTY && db.generator.Valid() && db.generator.lowerBound == GENESIS
    requires Replay.Consistent(r) && roles == r.roles
    modifies db, db.generator
    ensures ok && db.generator.Valid() && db.batches == old(db.batches)
    ensures RolesRebuilt(db.State(), roles) && forall q :: q in roles ==> q.id <= db.generator.lowerBound
    ensures db.generator.lowerBound == GENESIS || exists q :: q in roles && q.id == db.generator.lowerBound
  {
    hide Keepers.Sound;
    hide Replay.Consistent;
    hide RoleMap;
    NothingRebuilt();
    for i := 0 to |roles|
      invariant db.generator.Valid() && db.batches == old(db.batches)
      invariant RolesRebuilt(db.State(), roles[..i]) && forall q :: q in roles[..i] ==> q.id <= db.generator.lowerBound
      invariant db.generator.lowerBound == GENESIS || exists q :: q in roles[..i] && q.id == db.generator.lowerBound
    {
      assert roles[..i + 1] == roles[..i] + [roles[i]] && roles[i] in roles[..i + 1];
      NextRole(r, i);
      RoleRebuilt(db.State(), roles[..i], roles[i]);
      db.generator.Retain(roles[i].id);
      var _, existed := db.KeepRole(roles[i]);
      if existed {
        return false;
      }
    }
    assert roles[..|roles|] == roles;
    return true;
  }

  lemma NextRole(r: ReplayState, i: nat)
    requires Replay.Consistent(r) && i < |r.roles|
    ensures forall q :: q in r.roles[..i] ==> q.id != r.roles[i].id && q.name != r.roles[i].name
  {
    UniqueNames(r.roles, r.rolesByIdentity, r.identitiesByName, i);
  }

  /** The appearances of one replayed posit, retaining each Thing. */
  method RestoreAppearances(db: Database, members: seq<Appearance>) returns (ok: bool)
    requires Keepers.Sound(db.State()) && db.generator.Valid() && Canonical(members) && forall a :: a in members ==> a.role in db.roles
    modifies db, db.generator
    ensures ok && db.generator.Valid() && old(db.generator.lowerBound) <= db.generator.lowerBound && db.batches == old(db.batches)
    ensures Keepers.Sound(db.State()) && PositSideUnchanged(old(db.State()), db.State()) && members in db.sets
    ensures forall a :: a in members ==> a.thing <= db.generator.lowerBound
    ensures db.generator.lowerBound == old(db.generator.lowerBound) || exists a :: a in members && a.thing == db.generator.lowerBound
  {
    hide Keepers.Sound;
    ghost var k := db.State();
    for i := 0 to |members|
      invariant db.generator.Valid() && old(db.generator.lowerBound) <= db.generator.lowerBound && db.batches == old(db.batches)
      invariant Keepers.Sound(db.State()) && PositSideUnchanged(k, db.State())
      invariant forall a :: a in members[..i] ==> a in db.appearances && a.thing <= db.generator.lowerBound
      invariant db.generator.lowerBound == old(db.generator.lowerBound) || exists a :: a in members && a.thing == db.generator.lowerBound
    {
      var a := members[i];
      assert a in members && members[..i + 1] == members[..i] + [a];
      if a.role !in db.roles {
        return false;
      }
      db.generator.Retain(a.thing);
      Keepers.AppearanceKeepsSound(db.State(), a);
      var _ := db.KeepAppearance(a);
    }
    assert members[..|members|] == members;
    SortedOfCanonical(members);
    Keepers.SetKeepsSound(db.State(), members);
    var created := db.CreateAppearanceSet(members);
    return created.Ok?;
  }

  lemma SortedOfCanonical(members: seq<Appearance>)
    requires Canonical(members)
    ensures Sorted(members) == members && !RepeatsRole(members)
  {
    SortedOfOrdered(members);
  }

  method RestorePosits(db: Database, posits: seq<Posit>, ghost r: ReplayState) returns (ok: bool)
    requires RolesRebuilt(db.State(), r.roles) && db.generator.Valid()
    requires Replay.Consistent(r) && posits == r.posits
    modifies db, db.generator
    ensures ok && db.generator.Valid() && old(db.generator.lowerBound) <= db.generator.lowerBound && db.batches == old(db.batches)
    ensures PositsRebuilt(db.State(), r.rolesByIdentity, posits) && Retained(posits, db.generator.lowerBound)
    ensures db.generator.lowerBound == old(db.generator.lowerBound) || SomeMentions(posits, db.generator.lowerBound)
  {
    hide Keepers.Sound;
    hide Replay.Consistent;
    hide PositsRebuilt;
    RolesThenPosits(db.State(), r);
    hide RolesRebuilt;
    hide SomeMentions;
    hide Mentions;
    hide Retained;
    hide PositSideUnchanged;
    hide Canonical;
    NoneRetained(db.generator.lowerBound);
    hide Keepers.KeepPosit;
    hide PropositionOf;
    for i := 0 to |posits|
      invariant db.generator.Valid() && old(db.generator.lowerBound) <= db.generator.lowerBound && db.batches == old(db.batches)
      invariant PositsRebuilt(db.State(), r.rolesByIdentity, posits[..i]) && Retained(posits[..i], db.generator.lowerBound)
      invariant db.generator.lowerBound == old(db.generator.lowerBound) || SomeMentions(posits[..i], db.generator.lowerBound)
    {
      var p := posits[i];
      assert posits[..i + 1] == posits[..i] + [p];
      NextPosit(db.State(), r, i);
      ghost var (k, before) := (db.State(), db.generator.lowerBound);
      var kept := RestoreAppearances(db, p.appearances);
      if !kept {
        return false;
      }
      db.generator.Retain(p.id);
      PerhapsMentions(p, db.generator.lowerBound);
      MentionedEarlier(posits[..i], p, db.generator.lowerBound);
      RetainedMore(posits[..i], p, before, db.generator.lowerBound);
      PositRebuilt(k, db.State(), r.rolesByIdentity, posits[..i], p);
      SoundPropositions(db.State());
      var _, existed := db.KeepPosit(p);
      if existed {
        return false;
      }
    }
    assert posits[..|posits|] == posits;
    return true;
  }

  lemma RolesThenPosits(k: Keepers.Kept, r: ReplayState)
    requires RolesRebuilt(k, r.roles) && Replay.Consistent(r)
    ensures PositsRebuilt(k, r.rolesByIdentity, []) && Retained([], 0)
  {
    hide Keepers.Sound;
  }

  lemma NextPosit(k: Keepers.Kept, r: ReplayState, i: nat)
    requires Replay.Consistent(r) && i < |r.posits| && PositsRebuilt(k, r.rolesByIdentity, r.posits[..i])
    ensures Keepers.Sound(k) && Canonical(r.posits[i].appearances) && forall a :: a in r.posits[i].appearances ==> a.role in k.roles
    ensures forall q :: q in r.posits[..i] ==> q.id != r.posits[i].id && PropositionOf(q) != PropositionOf(r.posits[i])
  {
    hide Keepers.Sound;
    DistinctPosits(r.posits, r.propositions, i);
    assert r.posits[i] in r.posits;
  }

  /** Keeps a built-in role that is missing, and refuses one whose name or identity was taken. */
  method EnsureBuiltin(db: Database, role: Role) returns (ok: bool)
    requires Keepers.RolesUnique(db.State()) && db.generator.Valid()
    modifies db, db.generator
    ensures ok <==> if role.name in old(db.rolesByName) then old(db.rolesByName)[role.name].id == role.id && old(db.rolesByName)[role.name].reserved
                    else role.id !in old(db.roles)
    ensures db.State() == (if ok then Keepers.KeepRole(old(db.State()), role) else old(db.State())) && db.batches == old(db.batches)
    ensures db.generator.Valid() && (role.name in old(db.rolesByName) ==> db.generator.lowerBound == old(db.generator.lowerBound))
  {
    if role.name in db.rolesByName {
      var existing := db.rolesByName[role.name];
      return existing.id == role.id && existing.reserved;
    }
    if role.id in db.roles {
      return false;
    }
    db.generator.Retain(role.id);
    var _, _ := db.KeepRole(role);
    return true;
  }

  /** Rebuilds a database from a complete replay. */
  method Restore(db: Database, replayed: ReplayedStore, ghost r: ReplayState, ghost batches: seq<seq<PendingRecord>>) returns (ok: bool)
    requires db.State() == Keepers.EMPTY && db.generator.Valid() && db.generator.lowerBound == GENESIS && Stable(db.normal) && db.Logged() == Some(batches)
    requires ApplyBatches(NOTHING, batches, db.normal, db.parse) == Some(r) && Finish(r) == Some(replayed) && replayed.hasRequiredCodecs
    modifies db, db.generator
    ensures ok && db.Valid() && db.Logged() == Some(batches)
    ensures db.roles == RoleMap(replayed.roles) && db.posits == PositMap(replayed.posits)
    ensures forall q :: q in replayed.roles ==> q.id <= db.generator.lowerBound
    ensures Retained(replayed.posits, db.generator.lowerBound) && Attained(replayed, db.generator.lowerBound)
  {
    hide Stable;
    hide Keepers.Sound;
    hide ApplyBatches;
    hide Replay.Consistent;
    hide RolesRebuilt;
    hide PositsRebuilt;
    hide InOrder;
    hide Builtin;
    hide Retained;
    hide SomeMentions;
    ReplayConsistent(batches, db.normal, db.parse);
    if !replayed.hasRequiredCodecs {
      return false;
    }
    ok := RestoreRoles(db, replayed.roles, r);
    if !ok {
      return;
    }
    ok := RestorePosits(db, replayed.posits, r);
    if !ok {
      return;
    }
    RestoredBuiltins(db.State(), r);
    RestoredInOrder(db.State(), r, db.generator.lowerBound, batches, db.normal, db.parse);
    ghost var (k, bound) := (db.State(), db.generator.lowerBound);
    for i := 0 to |BUILTIN_ROLES|
      invariant db.State() == k && db.generator.Valid() && db.generator.lowerBound == bound && db.batches == batches
    {
      assert BUILTIN_ROLES[i] in BUILTIN_ROLES;
      SoundRoles(k);
      ok := EnsureBuiltin(db, BUILTIN_ROLES[i]);
      if !ok {
        return;
      }
    }
    return true;
  }

  lemma RestoredBuiltins(k: Keepers.Kept, r: ReplayState)
    requires PositsRebuilt(k, r.rolesByIdentity, r.posits) && Replay.Consistent(r) && Finish(r).Some? && Finish(r).value.hasRequiredCodecs
    ensures Keepers.Sound(k) && k.roles == RoleMap(r.roles) && k.posits == PositMap(r.posits)
    ensures forall q :: q in BUILTIN_ROLES ==> Keepers.Holds(k.roles, q) && q.reserved
    ensures HasBuiltins(k) && r.codecs == ALL_CODECS
  {
    hide Keepers.Sound;
    hide RoleMap;
    hide PositMap;
    EveryCodecListed(r);
    assert RawUtf8 in ALL_CODECS;
    forall q | q in BUILTIN_ROLES ensures Keepers.Holds(k.roles, q) {
      assert Builtin(r, q);
    }
  }

  lemma EveryCodecListed(r: ReplayState)
    requires forall c :: c in ALL_CODECS ==> c in r.codecs
    ensures r.codecs == ALL_CODECS
  {
    forall c | c in r.codecs ensures c in ALL_CODECS {
      EveryCodec(c);
    }
  }

  lemma RestoredInOrder(k: Keepers.Kept, r: ReplayState, bound: Thing, batches: seq<seq<PendingRecord>>, normal: Normalizer, parse: Parser)
    requires PositsRebuilt(k, r.rolesByIdentity, r.posits) && Retained(r.posits, bound) && forall q :: q in r.roles ==> q.id <= bound
    requires Replay.Consistent(r) && r.codecs == ALL_CODECS && HasBuiltins(k)
    requires ApplyBatches(NOTHING, batches, normal, parse) == Some(r)
    ensures InOrder(k, bound, Some(batches), normal, parse)
  {
    RestoredBounds(k, r, bound);
    RestoredRecorded(k, r, batches, normal, parse);
    hide Recorded;
    hide Keepers.Sound;
    hide HasBuiltins;
    hide Bounded;
    hide Apart;
    hide AllParse;
  }

  lemma RestoredRecorded(k: Keepers.Kept, r: ReplayState, batches: seq<seq<PendingRecord>>, normal: Normalizer, parse: Parser)
    requires r.rolesByIdentity == k.roles && PositMap(r.posits) == k.posits && Replay.Consistent(r) && r.codecs == ALL_CODECS
    requires ApplyBatches(NOTHING, batches, normal, parse) == Some(r) && forall id :: id in k.posits ==> k.posits[id] in r.posits
    ensures Recorded(k, batches, normal, parse) && AllParse(k, parse)
  {
    AllReadBack(batches, r, normal, parse);
    ReplayParses(batches, normal, parse);
    hide PositMap;
    hide ApplyBatches;
    hide Replay.Consistent;
    hide Persistable;
    assert AllPersistable(k);
  }

  lemma RestoredBounds(k: Keepers.Kept, r: ReplayState, bound: Thing)
    requires PositsRebuilt(k, r.rolesByIdentity, r.posits) && Retained(r.posits, bound) && forall q :: q in r.roles ==> q.id <= bound
    requires Replay.Consistent(r)
    ensures Keepers.Sound(k) && Bounded(k, bound) && Apart(k) && (forall id :: id in k.posits ==> k.posits[id] in r.posits)
    ensures r.rolesByIdentity == k.roles && PositMap(r.posits) == k.posits
  {
    hide Keepers.Sound;
    RoleMapHolds(r.roles);
    PositMapHolds(r.posits);
    hide RoleMap;
    hide PositMap;
    hide Propositional;
    hide RolesKnown;
  }

  /** A replayed posit was read from a payload, so it is one replay accepts. */
  lemma {:induction false} AllReadBack(batches: seq<seq<PendingRecord>>, r: ReplayState, normal: Normalizer, parse: Parser)
    requires ApplyBatches(NOTHING, batches, normal, parse) == Some(r)
    ensures forall p :: p in r.posits ==> Persistable(p)
  {
    hide Persistable;
    hide ApplyBatch;
    if batches != [] {
      var init := batches[..|batches| - 1];
      var s := ApplyBatches(NOTHING, init, normal, parse).value;
      AllReadBack(init, s, normal, parse);
      BatchReadBack(s, batches[|batches| - 1], r, normal, parse);
    }
  }

  lemma {:induction false} BatchReadBack(s: ReplayState, batch: seq<PendingRecord>, r: ReplayState, normal: Normalizer, parse: Parser)
    requires (forall p :: p in s.posits ==> Persistable(p)) && ApplyBatch(s, batch, normal, parse) == Some(r)
    ensures forall p :: p in r.posits ==> Persistable(p)
  {
    hide Persistable;
    hide DecodeRole;
    hide DecodeCodec;
    hide DecodePosit;
    if batch != [] {
      var (init, last) := (batch[..|batch| - 1], batch[|batch| - 1]);
      var t := ApplyBatch(s, init, normal, parse).value;
      BatchReadBack(s, init, t, normal, parse);
      if last.kind == RECORD_POSIT {
        DecodedIsPersistable(last.payload, t.codecs, parse);
      }
    }
  }

  lemma DecodedIsPersistable(payload: Bytes, declared: set<Codec>, parse: Parser)
    requires DecodePosit(payload, declared, parse).Some?
    ensures Persistable(DecodePosit(payload, declared, parse).value)
  {
    hide TakeNumber;
    hide TakeUleb;
    hide Ascends;
    var counted := TakeNumber(payload, 8).value.rest;
    var count := TakeUleb(counted).value;
    TakenAppearances(count.rest, count.value);
  }

  lemma {:induction false} TakenAppearances(bytes: Bytes, count: nat)
    requires TakeAppearances(bytes, count).Some?
    ensures |TakeAppearances(bytes, count).value.value| == count
    ensures forall a :: a in TakeAppearances(bytes, count).value.value ==> a.role != GENESIS && a.thing != GENESIS
    decreases count
  {
    hide TakeNumber;
    if count > 0 {
      var role := TakeNumber(bytes, 8).value;
      var thing := TakeNumber(role.rest, 8).value;
      TakenAppearances(thing.rest, count - 1);
    }
  }

  /** Replays every batch in order; the first that is refused ends it. */
  method ReplayCommitted(batches: seq<seq<PendingRecord>>, normal: Normalizer, parse: Parser) returns (finished: Option<ReplayedStore>, ghost r: ReplayState)
    ensures finished == ReplayLogical(batches, normal, parse)
    ensures finished.Some? ==> ApplyBatches(NOTHING, batches, normal, parse) == Some(r) && Finish(r) == finished
  {
    hide ApplyBatch;
    hide Finish;
    var replay := new LogicalReplay();
    r := NOTHING;
    for i := 0 to |batches|
      invariant fresh(replay) && ApplyBatches(NOTHING, batches[..i], normal, parse) == Some(replay.State())
    {
      assert batches[..i + 1][..i] == batches[..i] && batches[..i + 1][i] == batches[i];
      var applied := replay.Batch(batches[i], normal, parse);
      if !applied {
        AppliedBatches(batches, i + 1, normal, parse);
        return None, r;
      }
    }
    assert batches[..|batches|] == batches;
    r := replay.State();
    finished := Finish(replay.State());
  }

  /** The built-in roles, one batch that records them, and no posits. */
  ghost predicate JustBootstrapped(db: Database)
    reads db, db.generator
  {
    db.roles == RoleMap(BUILTIN_ROLES) && db.posits == map[] && db.Logged() == Some([BootstrapBatch()]) && db.generator.lowerBound == 5
  }

  /** Opens a persistent database over the batches its store replays. */
  method OpenDatabase(batches: seq<seq<PendingRecord>>, normal: Normalizer, parse: Parser, durable: bool) returns (opening: Result<Database, CommandError>)
    requires Stable(normal) && PlainNames(normal)
    ensures ReplayLogical(batches, normal, parse).None? ==> opening == Err(CommandError.DataCorruption)
    ensures ReplayLogical(batches, normal, parse).Some? ==>
              var replayed := ReplayLogical(batches, normal, parse).value;
              if replayed.hasRequiredCodecs then opening.Ok? && Reopened(opening.value, batches, replayed, normal, parse)
              else (opening.Ok? <==> durable) && if opening.Ok? then JustBootstrapped(opening.value) else opening.error == CommandError.Persistence
    ensures opening.Ok? ==> fresh(opening.value) && opening.value.Valid()
  {
    hide ReplayLogical;
    hide BootstrapBatch;
    hide Appended;
    hide Stable;
    hide PlainNames;
    hide ApplyBatch;
    hide ApplyBatches;
    hide Finish;
    hide Replay.Consistent;
    hide InOrder;
    hide Keepers.Sound;
    hide Retained;
    hide Attained;
    hide RoleMap;
    hide PositMap;
    var finished, r := ReplayCommitted(batches, normal, parse);
    if finished.None? {
      return Err(CommandError.DataCorruption);
    }
    EmptyOrComplete(r);
    var replayed := finished.value;
    var db := new Database.Blank(normal, parse, true);
    if replayed.roles == [] && replayed.posits == [] && !replayed.hasRequiredCodecs {
      var ok := Bootstrap(db, durable);
      return if ok then Ok(db) else Err(CommandError.Persistence);
    }
    db.batches := batches;
    var ok := Restore(db, replayed, r, batches);
    return if ok then Ok(db) else Err(CommandError.DataCorruption);
  }

  /** A store that replays without every codec is one that holds nothing at all. */
  lemma EmptyOrComplete(r: ReplayState)
    requires Finish(r).Some?
    ensures !Finish(r).value.hasRequiredCodecs ==> Finish(r).value.roles == [] && Finish(r).value.posits == []
  {
  }

  lemma {:induction false} AppliedBatches(batches: seq<seq<PendingRecord>>, n: nat, normal: Normalizer, parse: Parser)
    requires n <= |batches| && ApplyBatches(NOTHING, batches[..n], normal, parse).None?
    ensures ApplyBatches(NOTHING, batches, normal, parse).None?
    decreases |batches| - n
  {
    hide ApplyBatch;
    if n < |batches| {
      assert batches[..n + 1][..n] == batches[..n];
      AppliedBatches(batches, n + 1, normal, parse);
    } else {
      assert batches[..n] == batches;
    }
  }

  /** The replayed roles and posits, with every identity they mention retained. */
  ghost predicate Reopened(db: Database, batches: seq<seq<PendingRecord>>, replayed: ReplayedStore, normal: Normalizer, parse: Parser)
    reads db, db.generator
  {
    && db.normal == normal && db.parse == parse && db.Logged() == Some(batches)
    && db.roles == RoleMap(replayed.roles) && db.posits == PositMap(replayed.posits)
    && (forall q :: q in replayed.roles ==> q.id <= db.generator.lowerBound) && Retained(replayed.posits, db.generator.lowerBound)
    && Attained(replayed, db.generator.lowerBound)
  }

  // ------------------------------------------------------------------ main theorems

  lemma BuiltinsReplayed(k: Keepers.Kept, r: ReplayState)
    requires Matches(r, k) && HasBuiltins(k)
    ensures Finish(r) == Some(ReplayedStore(r.roles, r.posits, true))
  {
    hide PositMap;
    hide RoleMap;
    assert RoleTables(r.roles, r.rolesByIdentity, r.identitiesByName);
    forall q | q in BUILTIN_ROLES ensures Builtin(r, q) {
      assert Keepers.Holds(k.roles, q);
      assert r.rolesByIdentity[q.id] == q;
    }
    assert forall q :: q in BUILTIN_ROLES ==> q.reserved;
  }

  /**
   After any run of commands, replay accepts the log exactly when every kept posit has a
   non-empty set free of genesis identities; and then it rebuilds the same roles and posits.
   */
  lemma ReplayRebuildsTheDatabase(k: Keepers.Kept, bound: Thing, batches: seq<seq<PendingRecord>>, normal: Normalizer, parse: Parser)
    requires InOrder(k, bound, Some(batches), normal, parse)
    ensures ReplayLogical(batches, normal, parse).Some? <==> AllPersistable(k)
    ensures AllPersistable(k) ==>
              var replayed := ReplayLogical(batches, normal, parse).value;
              replayed.hasRequiredCodecs && RoleMap(replayed.roles) == k.roles && PositMap(replayed.posits) == k.posits
  {
    hide Keepers.Sound;
    hide ApplyBatches;
    hide Persistable;
    hide HasBuiltins;
    if AllPersistable(k) {
      var r := ApplyBatches(NOTHING, batches, normal, parse).value;
      BuiltinsReplayed(k, r);
      assert RoleTables(r.roles, r.rolesByIdentity, r.identitiesByName);
      hide Finish;
    }
  }

  /** Equal roles and posits leave the name, proposition and posit indexes no room to differ. */
  lemma IndexesAreDetermined(k: Keepers.Kept, t: Keepers.Kept)
    requires Keepers.Sound(k) && Keepers.Sound(t) && k.roles == t.roles && k.posits == t.posits
    ensures k.rolesByName == t.rolesByName && k.propositions == t.propositions && k.positToSet == t.positToSet && k.positTime == t.positTime
    ensures forall appearanceSet :: Posting(k.setToPosits, appearanceSet) == Posting(t.setToPosits, appearanceSet)
    ensures forall role :: Posting(k.roleToPosits, role) == Posting(t.roleToPosits, role)
  {
    hide Keepers.RolesUnique;
    hide Keepers.PropositionsUnique;
    hide Keepers.ReservedIndex;
    hide Closed;
    hide ThingIndex;
    hide SetIndex;
    hide PositIndex;
    hide RoleIndex;
    hide RoleNameIndex;
    SameNames(k, t);
    SamePropositionIndex(k, t);
    SamePostings(Keepers.View(k), Keepers.View(t));
    assert ReverseIndex(Keepers.View(k)) && ReverseIndex(Keepers.View(t));
  }

  lemma SameNames(k: Keepers.Kept, t: Keepers.Kept)
    requires Keepers.RolesUnique(k) && Keepers.RolesUnique(t) && k.roles == t.roles
    ensures k.rolesByName == t.rolesByName
  {
    forall name | name in k.rolesByName ensures name in t.rolesByName && t.rolesByName[name] == k.rolesByName[name] {
      assert Keepers.Holds(k.roles, k.rolesByName[name]);
    }
    forall name | name in t.rolesByName ensures name in k.rolesByName {
      assert Keepers.Holds(t.roles, t.rolesByName[name]);
    }
  }

  lemma SamePropositionIndex(k: Keepers.Kept, t: Keepers.Kept)
    requires Keepers.PropositionsUnique(k) && Keepers.PropositionsUnique(t) && k.posits == t.posits
    ensures k.propositions == t.propositions
  {
    hide PropositionOf;
    forall x | x in k.propositions ensures x in t.propositions && t.propositions[x] == k.propositions[x] {
      assert PropositionOf(k.posits[k.propositions[x]]) == x;
    }
    forall x | x in t.propositions ensures x in k.propositions {
      assert PropositionOf(t.posits[t.propositions[x]]) == x;
    }
  }

  lemma SamePostings(k: Snapshot, t: Snapshot)
    requires PositIndex(k) && PositIndex(t) && RoleIndex(k) && RoleIndex(t) && k.posits == t.posits
    ensures forall appearanceSet :: Posting(k.setToPosits, appearanceSet) == Posting(t.setToPosits, appearanceSet)
    ensures forall role :: Posting(k.roleToPosits, role) == Posting(t.roleToPosits, role)
  {
    forall appearanceSet ensures Posting(k.setToPosits, appearanceSet) == Posting(t.setToPosits, appearanceSet) {
      forall id ensures id in Posting(k.setToPosits, appearanceSet) <==> id in Posting(t.setToPosits, appearanceSet) {
        assert id in Posting(k.setToPosits, appearanceSet) <==> id in k.posits && k.posits[id].appearances == appearanceSet;
        assert id in Posting(t.setToPosits, appearanceSet) <==> id in t.posits && t.posits[id].appearances == appearanceSet;
      }
    }
    forall role ensures Posting(k.roleToPosits, role) == Posting(t.roleToPosits, role) {
      forall id ensures id in Posting(k.roleToPosits, role) <==> id in Posting(t.roleToPosits, role) {
        assert id in Posting(k.roleToPosits, role) <==> id in k.posits && HasRole(k.posits[id].appearances, role);
        assert id in Posting(t.roleToPosits, role) <==> id in t.posits && HasRole(t.posits[id].appearances, role);
      }
    }
  }

  /**
   Restart: closing a database and opening its log again gives the same roles, posits and
   posit indexes, and every identity generated afterwards exceeds every persisted one.
   */
  method Reopen(db: Database, durable: bool) returns (again: Database)
    requires db.Valid() && db.persistent && AllPersistable(db.State()) && PlainNames(db.normal)
    ensures fresh(again) && again.Valid() && again.batches == db.batches
    ensures again.roles == db.roles && again.rolesByName == db.rolesByName
    ensures again.posits == db.posits && again.propositions == db.propositions
    ensures again.positToSet == db.positToSet && again.positTime == db.positTime
    ensures forall appearanceSet :: Posting(again.setToPosits, appearanceSet) == Posting(db.setToPosits, appearanceSet)
    ensures forall role :: Posting(again.roleToPosits, role) == Posting(db.roleToPosits, role)
    ensures forall id :: id in db.roles || id in db.posits ==> id <= again.generator.lowerBound
    ensures forall id, a :: id in db.posits && a in db.posits[id].appearances ==> a.thing <= again.generator.lowerBound
  {
    hide Stable;
    hide PlainNames;
    hide InOrder;
    hide AllPersistable;
    hide ReplayLogical;
    hide Keepers.Sound;
    ReplayRebuildsTheDatabase(db.State(), db.generator.lowerBound, db.batches, db.normal, db.parse);
    var opening := OpenDatabase(db.batches, db.normal, db.parse, durable);
    again := opening.value;
    ghost var replayed := ReplayLogical(db.batches, db.normal, db.parse).value;
    OrderParts(db.State(), db.generator.lowerBound, db.Logged(), db.normal, db.parse);
    OrderParts(again.State(), again.generator.lowerBound, again.Logged(), again.normal, again.parse);
    IndexesAreDetermined(db.State(), again.State());
    AllRetained(db.posits, replayed, again.generator.lowerBound);
  }

  lemma AllRetained(posits: map<Thing, Posit>, replayed: ReplayedStore, bound: Thing)
    requires posits == PositMap(replayed.posits) && Retained(replayed.posits, bound)
    ensures forall id, a :: id in posits && a in posits[id].appearances ==> a.thing <= bound
  {
    PositMapHolds(replayed.posits);
    hide PositMap;
  }
}
