/** Rebuilding the logical store from its committed records, refusing any inconsistency. */
module Replay {
  import opened Prelude
  import opened Frames
  import opened Times
  import opened Constructs
  import opened Encoding
  import opened Payload
  import opened PositCodec

  /** Built-in roles have fixed identities. */
  const BUILTIN_ROLES: seq<Role> := [
    Role(1, "posit", true), Role(2, "ascertains", true), Role(3, "thing", true), Role(4, "class", true), Role(5, "subclass", true)]

  /** What makes two posits the same proposition: literals compare by token alone. */
  datatype Proposition = Proposition(appearances: AppearanceSet, token: string, time: Time)

  function PropositionOf(p: Posit): Proposition {
    Proposition(p.appearances, p.value.token, p.time)
  }

  datatype ReplayState = ReplayState(
    rolesByIdentity: map<Thing, Role>,
    identitiesByName: map<string, Thing>,
    constructIdentities: set<Thing>,
    propositions: set<Proposition>,
    roles: seq<Role>,
    posits: seq<Posit>,
    codecs: set<Codec>)

  datatype ReplayedStore = ReplayedStore(roles: seq<Role>, posits: seq<Posit>, hasRequiredCodecs: bool)

  const NOTHING := ReplayState(map[], map[], {}, {}, [], [], {})

  function AddRole(s: ReplayState, role: Role): Option<ReplayState> {
    if role.id in s.rolesByIdentity || role.name in s.identitiesByName || role.id in s.constructIdentities then None
    else Some(s.(rolesByIdentity := s.rolesByIdentity[role.id := role], identitiesByName := s.identitiesByName[role.name := role.id],
                 constructIdentities := s.constructIdentities + {role.id}, roles := s.roles + [role]))
  }

  function AddCodec(s: ReplayState, codec: Codec): Option<ReplayState> {
    if codec in s.codecs then None else Some(s.(codecs := s.codecs + {codec}))
  }

  function AddPosit(s: ReplayState, p: Posit): Option<ReplayState> {
    if p.id in s.constructIdentities || (exists a :: a in p.appearances && a.role !in s.rolesByIdentity) || PropositionOf(p) in s.propositions then None
    else Some(s.(constructIdentities := s.constructIdentities + {p.id}, propositions := s.propositions + {PropositionOf(p)}, posits := s.posits + [p]))
  }

  function ApplyRecord(s: ReplayState, record: PendingRecord, normal: Normalizer, parse: Parser): Option<ReplayState> {
    if record.kind == RECORD_ROLE then
      var role :- DecodeRole(record.payload, normal);
      AddRole(s, role)
    else if record.kind == RECORD_CODEC then
      var codec :- DecodeCodec(record.payload);
      AddCodec(s, codec)
    else if record.kind == RECORD_POSIT then
      var p :- DecodePosit(record.payload, s.codecs, parse);
      AddPosit(s, p)
    else None
  }

  function ApplyBatch(s: ReplayState, batch: seq<PendingRecord>, normal: Normalizer, parse: Parser): Option<ReplayState> {
    if batch == [] then Some(s)
    else
      var next :- ApplyBatch(s, batch[..|batch| - 1], normal, parse);
      ApplyRecord(next, batch[|batch| - 1], normal, parse)
  }

  function ApplyBatches(s: ReplayState, batches: seq<seq<PendingRecord>>, normal: Normalizer, parse: Parser): Option<ReplayState> {
    if batches == [] then Some(s)
    else
      var next :- ApplyBatches(s, batches[..|batches| - 1], normal, parse);
      ApplyBatch(next, batches[|batches| - 1], normal, parse)
  }

  predicate Builtin(s: ReplayState, role: Role) {
    && role.id in s.rolesByIdentity && role.name in s.identitiesByName
    && s.rolesByIdentity[role.id].name == role.name && s.rolesByIdentity[role.id].reserved && s.identitiesByName[role.name] == role.id
  }

  /** An empty store is complete; any other needs the built-in roles and every codec. */
  function Finish(s: ReplayState): Option<ReplayedStore> {
    var required := forall c :: c in ALL_CODECS ==> c in s.codecs;
    var empty := s.roles == [] && s.posits == [] && s.codecs == {};
    if !empty && !(required && forall r :: r in BUILTIN_ROLES ==> Builtin(s, r)) then None
    else Some(ReplayedStore(s.roles, s.posits, required))
  }

  /** The whole logical replay of a committed log. */
  function ReplayLogical(batches: seq<seq<PendingRecord>>, normal: Normalizer, parse: Parser): Option<ReplayedStore> {
    var s :- ApplyBatches(NOTHING, batches, normal, parse);
    Finish(s)
  }

  class LogicalReplay {
    var rolesByIdentity: map<Thing, Role>
    var identitiesByName: map<string, Thing>
    var constructIdentities: set<Thing>
    var propositions: set<Proposition>
    var roles: seq<Role>
    var posits: seq<Posit>
    var codecs: set<Codec>

    constructor ()
      ensures State() == NOTHING
    {
      rolesByIdentity := map[];
      identitiesByName := map[];
      constructIdentities := {};
      propositions := {};
      roles := [];
      posits := [];
      codecs := {};
    }

    function State(): ReplayState
      reads this
    {
      ReplayState(rolesByIdentity, identitiesByName, constructIdentities, propositions, roles, posits, codecs)
    }

    /** A refused record leaves a replay nobody goes on with. */
    method Apply(record: PendingRecord, normal: Normalizer, parse: Parser) returns (ok: bool)
      modifies this
      ensures ok <==> ApplyRecord(old(State()), record, normal, parse).Some?
      ensures ok ==> State() == ApplyRecord(old(State()), record, normal, parse).value
    {
      hide DecodeRole;
      hide DecodeCodec;
      hide DecodePosit;
      if record.kind == RECORD_ROLE {
        var role := DecodeRole(record.payload, normal);
        if role.None? || role.value.id in rolesByIdentity || role.value.name in identitiesByName || role.value.id in constructIdentities {
          return false;
        }
        constructIdentities := constructIdentities + {role.value.id};
        identitiesByName := identitiesByName[role.value.name := role.value.id];
        rolesByIdentity := rolesByIdentity[role.value.id := role.value];
        roles := roles + [role.value];
        return true;
      } else if record.kind == RECORD_CODEC {
        var codec := DecodeCodec(record.payload);
        if codec.None? || codec.value in codecs {
          return false;
        }
        codecs := codecs + {codec.value};
        return true;
      } else if record.kind == RECORD_POSIT {
        var p := DecodePosit(record.payload, codecs, parse);
        if p.None? || p.value.id in constructIdentities {
          return false;
        }
        constructIdentities := constructIdentities + {p.value.id};
        if (exists a :: a in p.value.appearances && a.role !in rolesByIdentity) || PropositionOf(p.value) in propositions {
          return false;
        }
        propositions := propositions + {PropositionOf(p.value)};
        posits := posits + [p.value];
        return true;
      }
      return false;
    }

    method Batch(batch: seq<PendingRecord>, normal: Normalizer, parse: Parser) returns (ok: bool)
      modifies this
      ensures ok <==> ApplyBatch(old(State()), batch, normal, parse).Some?
      ensures ok ==> State() == ApplyBatch(old(State()), batch, normal, parse).value
    {
      hide ApplyRecord;
      for i := 0 to |batch|
        invariant ApplyBatch(old(State()), batch[..i], normal, parse) == Some(State())
      {
        assert batch[..i + 1][..i] == batch[..i] && batch[..i + 1][i] == batch[i];
        ok := Apply(batch[i], normal, parse);
        if !ok {
          AppliedPart(old(State()), batch, i + 1, normal, parse);
          return;
        }
      }
      assert batch[..|batch|] == batch;
      return true;
    }
  }

  lemma {:induction false} AppliedPart(s: ReplayState, batch: seq<PendingRecord>, n: nat, normal: Normalizer, parse: Parser)
    requires n <= |batch| && ApplyBatch(s, batch[..n], normal, parse).None?
    ensures ApplyBatch(s, batch, normal, parse).None?
    decreases |batch| - n
  {
    hide ApplyRecord;
    if n < |batch| {
      assert batch[..n + 1][..n] == batch[..n];
      AppliedPart(s, batch, n + 1, normal, parse);
    } else {
      assert batch[..n] == batch;
    }
  }

  // --------------------------------------------------------------- what replay implies

  function RoleMap(roles: seq<Role>): map<Thing, Role> {
    if roles == [] then map[] else RoleMap(roles[..|roles| - 1])[roles[|roles| - 1].id := roles[|roles| - 1]]
  }

  function PositMap(posits: seq<Posit>): map<Thing, Posit> {
    if posits == [] then map[] else PositMap(posits[..|posits| - 1])[posits[|posits| - 1].id := posits[|posits| - 1]]
  }

  /** Roles are listed once each, and the two tables are inverse. */
  ghost predicate RoleTables(roles: seq<Role>, byIdentity: map<Thing, Role>, byName: map<string, Thing>) {
    && byIdentity == RoleMap(roles)
    && (forall id :: id in byIdentity ==> byIdentity[id].id == id)
    && (forall name :: name in byName ==> byName[name] in byIdentity && byIdentity[byName[name]].name == name)
    && (forall id :: id in byIdentity ==> byIdentity[id].name in byName && byName[byIdentity[id].name] == id)
    && (forall i, j :: 0 <= i < j < |roles| ==> roles[i].id != roles[j].id)
  }

  /** Every set is canonical, over known roles. */
  ghost predicate RolesKnown(posits: seq<Posit>, roles: set<Thing>) {
    forall p :: p in posits ==> Canonical(p.appearances) && forall a :: a in p.appearances ==> a.role in roles
  }

  /** The sets and maps of a replay are the ones its lists determine, without repetition. */
  ghost predicate Consistent(s: ReplayState) {
    && RoleTables(s.roles, s.rolesByIdentity, s.identitiesByName)
    && s.constructIdentities == s.rolesByIdentity.Keys + PositMap(s.posits).Keys
    && s.rolesByIdentity.Keys !! PositMap(s.posits).Keys
    && Propositional(s.posits, s.propositions)
    && RolesKnown(s.posits, s.rolesByIdentity.Keys)
  }

  /** Distinct propositions under distinct identities. */
  ghost predicate Propositional(posits: seq<Posit>, propositions: set<Proposition>) {
    && (forall p :: p in posits ==> PropositionOf(p) in propositions)
    && (forall x :: x in propositions ==> exists p :: p in posits && PropositionOf(p) == x)
    && (forall i, j :: 0 <= i < j < |posits| ==> PropositionOf(posits[i]) != PropositionOf(posits[j]) && posits[i].id != posits[j].id)
  }

  lemma {:induction false} PositMapHolds(posits: seq<Posit>)
    ensures forall p :: p in posits ==> p.id in PositMap(posits)
    ensures forall id :: id in PositMap(posits) ==> PositMap(posits)[id] in posits && PositMap(posits)[id].id == id
    ensures (forall i, j :: 0 <= i < j < |posits| ==> posits[i].id != posits[j].id) ==> forall p :: p in posits ==> PositMap(posits)[p.id] == p
  {
    if posits != [] {
      var (init, last) := (posits[..|posits| - 1], posits[|posits| - 1]);
      PositMapHolds(init);
      assert posits == init + [last];
    }
  }

  lemma {:induction false} RoleMapHolds(roles: seq<Role>)
    ensures forall r :: r in roles ==> r.id in RoleMap(roles)
    ensures forall id :: id in RoleMap(roles) ==> RoleMap(roles)[id] in roles && RoleMap(roles)[id].id == id
    ensures (forall i, j :: 0 <= i < j < |roles| ==> roles[i].id != roles[j].id) ==> forall r :: r in roles ==> RoleMap(roles)[r.id] == r
  {
    if roles != [] {
      var (init, last) := (roles[..|roles| - 1], roles[|roles| - 1]);
      RoleMapHolds(init);
      assert roles == init + [last];
    }
  }

  lemma AddRoleConsistent(s: ReplayState, role: Role)
    requires Consistent(s) && AddRole(s, role).Some?
    ensures Consistent(AddRole(s, role).value)
  {
    hide Propositional;
    RoleMapHolds(s.roles);
    RoleMapSnoc(s.roles, role);
    hide RoleMap;
    hide PositMap;
  }

  lemma PropositionalOneMore(posits: seq<Posit>, propositions: set<Proposition>, p: Posit)
    requires Propositional(posits, propositions) && PropositionOf(p) !in propositions
    requires forall q :: q in posits ==> q.id != p.id
    ensures Propositional(posits + [p], propositions + {PropositionOf(p)})
  {
    var more := posits + [p];
    assert more[|posits|] == p;
    forall x | x in propositions + {PropositionOf(p)} ensures exists q :: q in more && PropositionOf(q) == x {
      if x in propositions {
        var q :| q in posits && PropositionOf(q) == x;
        assert q in more;
      } else {
        assert p in more;
      }
    }
    forall i, j | 0 <= i < j < |more| ensures PropositionOf(more[i]) != PropositionOf(more[j]) && more[i].id != more[j].id {
      assert more[i] in posits;
    }
  }

  lemma AddPositConsistent(s: ReplayState, p: Posit)
    requires Consistent(s) && AddPosit(s, p).Some? && Canonical(p.appearances)
    ensures Consistent(AddPosit(s, p).value)
  {
    AddedPosit(s, p);
    hide AddPosit;
    hide PropositionOf;
    hide RoleTables;
    PositMapSnoc(s.posits, p);
    hide PositMap;
    hide Propositional;
    hide RolesKnown;
    DisjointOneMore(s.rolesByIdentity.Keys, PositMap(s.posits).Keys, p.id);
    assert PositMap(s.posits + [p]).Keys == PositMap(s.posits).Keys + {p.id};
  }

  /** What one added posit does to the lists and sets. */
  lemma AddedPosit(s: ReplayState, p: Posit)
    requires Consistent(s) && AddPosit(s, p).Some? && Canonical(p.appearances)
    ensures var t := AddPosit(s, p).value;
            && t.roles == s.roles && t.rolesByIdentity == s.rolesByIdentity && t.identitiesByName == s.identitiesByName
            && t.constructIdentities == s.constructIdentities + {p.id} && p.id !in s.constructIdentities
            && t.posits == s.posits + [p]
            && Propositional(t.posits, t.propositions) && RolesKnown(t.posits, t.rolesByIdentity.Keys)
  {
    hide RoleTables;
    NotListed(s.posits, p.id);
    hide PositMap;
    PropositionalOneMore(s.posits, s.propositions, p);
    hide Propositional;
    RolesKnownOneMore(s.posits, p, s.rolesByIdentity.Keys);
    hide RolesKnown;
    hide PropositionOf;
  }

  lemma DisjointOneMore(roles: set<Thing>, posits: set<Thing>, id: Thing)
    requires roles !! posits && id !in roles + posits
    ensures roles !! (posits + {id}) && roles + posits + {id} == roles + (posits + {id})
  {
  }

  lemma NotListed(posits: seq<Posit>, id: Thing)
    requires id !in PositMap(posits)
    ensures forall q :: q in posits ==> q.id != id
  {
    PositMapHolds(posits);
  }

  lemma RolesKnownOneMore(posits: seq<Posit>, p: Posit, roles: set<Thing>)
    requires RolesKnown(posits, roles) && Canonical(p.appearances) && forall a :: a in p.appearances ==> a.role in roles
    ensures RolesKnown(posits + [p], roles)
  {
  }

  lemma PositMapSnoc(posits: seq<Posit>, p: Posit)
    ensures PositMap(posits + [p]) == PositMap(posits)[p.id := p]
  {
    assert (posits + [p])[..|posits|] == posits;
  }

  lemma RoleMapSnoc(roles: seq<Role>, r: Role)
    ensures RoleMap(roles + [r]) == RoleMap(roles)[r.id := r]
  {
    assert (roles + [r])[..|roles|] == roles;
  }

  lemma DecodedIsCanonical(payload: Bytes, declared: set<Codec>, parse: Parser)
    requires DecodePosit(payload, declared, parse).Some?
    ensures var p := DecodePosit(payload, declared, parse).value;
            Canonical(p.appearances) && parse(p.value.token, p.value.family) == Some(p.value.meaning)
  {
    hide TakeNumber;
    hide TakeUleb;
    hide TakeAppearances;
    hide Ascends;
    var counted := TakeNumber(payload, 8).value.rest;
    var count := TakeUleb(counted).value;
    AscendsIsCanonical(TakeAppearances(count.rest, count.value).value.value);
  }

  lemma ApplyConsistent(s: ReplayState, record: PendingRecord, normal: Normalizer, parse: Parser)
    requires Consistent(s) && ApplyRecord(s, record, normal, parse).Some?
    ensures Consistent(ApplyRecord(s, record, normal, parse).value)
  {
    hide DecodeRole;
    hide DecodeCodec;
    hide DecodePosit;
    if record.kind == RECORD_ROLE {
      AddRoleConsistent(s, DecodeRole(record.payload, normal).value);
    } else if record.kind == RECORD_POSIT {
      DecodedIsCanonical(record.payload, s.codecs, parse);
      AddPositConsistent(s, DecodePosit(record.payload, s.codecs, parse).value);
    }
  }

  lemma {:induction false} BatchConsistent(s: ReplayState, batch: seq<PendingRecord>, normal: Normalizer, parse: Parser)
    requires Consistent(s) && ApplyBatch(s, batch, normal, parse).Some?
    ensures Consistent(ApplyBatch(s, batch, normal, parse).value)
  {
    hide ApplyRecord;
    hide Consistent;
    if batch != [] {
      var init := batch[..|batch| - 1];
      BatchConsistent(s, init, normal, parse);
      ApplyConsistent(ApplyBatch(s, init, normal, parse).value, batch[|batch| - 1], normal, parse);
    }
  }

  /** Whatever log is accepted, roles, names and propositions come out unique and closed. */
  lemma {:induction false} ReplayConsistent(batches: seq<seq<PendingRecord>>, normal: Normalizer, parse: Parser)
    requires ApplyBatches(NOTHING, batches, normal, parse).Some?
    ensures Consistent(ApplyBatches(NOTHING, batches, normal, parse).value)
  {
    hide ApplyBatch;
    hide Consistent;
    if batches == [] {
      NothingConsistent();
    } else {
      var init := batches[..|batches| - 1];
      ReplayConsistent(init, normal, parse);
      BatchConsistent(ApplyBatches(NOTHING, init, normal, parse).value, batches[|batches| - 1], normal, parse);
    }
  }

  ghost predicate EachParses(posits: seq<Posit>, parse: Parser) {
    forall p :: p in posits ==> parse(p.value.token, p.value.family) == Some(p.value.meaning)
  }

  lemma {:induction false} BatchParses(s: ReplayState, batch: seq<PendingRecord>, normal: Normalizer, parse: Parser)
    requires EachParses(s.posits, parse) && ApplyBatch(s, batch, normal, parse).Some?
    ensures EachParses(ApplyBatch(s, batch, normal, parse).value.posits, parse)
  {
    hide DecodeRole;
    hide DecodeCodec;
    hide DecodePosit;
    if batch != [] {
      var (init, record) := (batch[..|batch| - 1], batch[|batch| - 1]);
      BatchParses(s, init, normal, parse);
      var t := ApplyBatch(s, init, normal, parse).value;
      hide ApplyBatch;
      if record.kind == RECORD_POSIT {
        DecodedIsCanonical(record.payload, t.codecs, parse);
      }
    }
  }

  /** Whatever log is accepted, every posit comes out with the meaning its token has. */
  lemma {:induction false} ReplayParses(batches: seq<seq<PendingRecord>>, normal: Normalizer, parse: Parser)
    requires ApplyBatches(NOTHING, batches, normal, parse).Some?
    ensures EachParses(ApplyBatches(NOTHING, batches, normal, parse).value.posits, parse)
  {
    hide ApplyBatch;
    if batches != [] {
      var init := batches[..|batches| - 1];
      ReplayParses(init, normal, parse);
      BatchParses(ApplyBatches(NOTHING, init, normal, parse).value, batches[|batches| - 1], normal, parse);
    }
  }

  lemma NothingConsistent()
    ensures Consistent(NOTHING)
  {
  }
}
