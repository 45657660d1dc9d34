/** The records a command appends, and what replaying them rebuilds. */
module Logging {
  import opened Prelude
  import opened Encoding
  import opened Frames
  import opened Constructs
  import opened Payload
  import opened PositCodec
  import opened Replay
  import opened Keepers

  function RoleRecord(r: Role): PendingRecord {
    PendingRecord(RECORD_ROLE, 1, 0, RolePayload(r))
  }

  function CodecRecord(c: Codec): PendingRecord {
    PendingRecord(RECORD_CODEC, 1, 0, CodecPayload(c))
  }

  function PositRecordOf(p: Posit): PendingRecord {
    PendingRecord(RECORD_POSIT, 1, 0, PositPayload(p))
  }

  function RoleBatch(roles: seq<Role>): seq<PendingRecord> {
    seq(|roles|, i requires 0 <= i < |roles| => RoleRecord(roles[i]))
  }

  function PositBatch(posits: seq<Posit>): seq<PendingRecord> {
    seq(|posits|, i requires 0 <= i < |posits| => PositRecordOf(posits[i]))
  }

  function KeepRoles(k: Kept, roles: seq<Role>): Kept {
    if roles == [] then k else KeepRole(KeepRoles(k, roles[..|roles| - 1]), roles[|roles| - 1])
  }

  function KeepPosits(k: Kept, posits: seq<Posit>): Kept {
    if posits == [] then k else KeepPosit(KeepPosits(k, posits[..|posits| - 1]), posits[|posits| - 1])
  }

  /** Within the machine's widths, with a literal of its family. */
  predicate Encodable(p: Posit, parse: Parser) {
    && 0 < p.id < U64 && |p.appearances| < U64 && Canonical(p.appearances)
    && (forall a :: a in p.appearances ==> a.role < U64 && a.thing < U64)
    && parse(p.value.token, p.value.family) == Some(p.value.meaning) && |LiteralBytes(p.value)| < U64
  }

  /** Replay accepts a posit only with a non-empty set and no genesis identity in it. */
  predicate Persistable(p: Posit) {
    p.appearances != [] && forall a :: a in p.appearances ==> a.role != GENESIS && a.thing != GENESIS
  }

  ghost predicate AllPersistable(k: Kept) {
    forall id :: id in k.posits ==> Persistable(k.posits[id])
  }

  /** A replay that has rebuilt exactly these roles and posits. */
  ghost predicate Matches(r: ReplayState, k: Kept) {
    r.rolesByIdentity == k.roles && PositMap(r.posits) == k.posits && r.codecs == ALL_CODECS && Consistent(r)
  }

  /** Replay rebuilds what is kept, unless something kept can never be replayed. */
  ghost predicate Faithful(r: Option<ReplayState>, k: Kept) {
    if AllPersistable(k) then r.Some? && Matches(r.value, k) else r.None?
  }

  ghost predicate Apart(k: Kept) {
    k.roles.Keys !! k.posits.Keys
  }

  ghost predicate Bounded(k: Kept, bound: Thing) {
    (forall id :: id in k.roles ==> id <= bound) && forall id :: id in k.posits ==> id <= bound
  }

  // ------------------------------------------------- what cannot be read back

  lemma {:induction false} GenesisRefused(appearanceSet: seq<Appearance>, rest: Bytes)
    requires forall a :: a in appearanceSet ==> a.role < U64 && a.thing < U64
    requires exists a :: a in appearanceSet && (a.role == GENESIS || a.thing == GENESIS)
    ensures TakeAppearances(PositCodec.Appearances(appearanceSet) + rest, |appearanceSet|).None?
  {
    hide Little;
    hide Number;
    Ranges();
    var (a, later) := (appearanceSet[0], PositCodec.Appearances(appearanceSet[1..]) + rest);
    assert PositCodec.Appearances(appearanceSet) + rest == Little(a.role, 8) + (Little(a.thing, 8) + later);
    FixedWidthRoundTrip(a.role, 8, Little(a.thing, 8) + later);
    FixedWidthRoundTrip(a.thing, 8, later);
    hide TakeNumber;
    if a.role != GENESIS && a.thing != GENESIS {
      assert appearanceSet == [a] + appearanceSet[1..];
      GenesisRefused(appearanceSet[1..], rest);
    }
  }

  lemma DecodeFails(payload: Bytes, declared: set<Codec>, parse: Parser, id: nat, count: nat, counted: Bytes, listed: Bytes)
    requires TakeNumber(payload, 8) == Some(Parsed(id, counted)) && TakeUleb(counted) == Some(Parsed(count, listed))
    requires count == 0 || TakeAppearances(listed, count).None?
    ensures DecodePosit(payload, declared, parse).None?
  {
    hide TakeNumber;
    hide TakeUleb;
    hide TakeAppearances;
  }

  /** An encodable posit decodes exactly when its set is non-empty and free of genesis identities. */
  lemma DecodesExactlyWhenPersistable(p: Posit, declared: set<Codec>, parse: Parser)
    requires Encodable(p, parse) && declared == ALL_CODECS
    ensures DecodePosit(PositPayload(p), declared, parse) == if Persistable(p) then Some(p) else None
  {
    hide PositPayload;
    hide LiteralBytes;
    hide SelectCodec;
    hide DecodePosit;
    if Persistable(p) {
      EveryCodec(SelectCodec(p.value));
      PositRoundTrip(p, declared, parse);
    } else {
      Unpersistable(p, declared, parse);
    }
  }

  lemma EveryCodec(c: Codec)
    ensures c in ALL_CODECS
  {
  }

  lemma Unpersistable(p: Posit, declared: set<Codec>, parse: Parser)
    requires Encodable(p, parse) && !Persistable(p)
    ensures DecodePosit(PositPayload(p), declared, parse).None?
  {
    hide Little;
    hide Number;
    hide Uleb;
    hide TakeUlebFrom;
    hide LiteralBytes;
    hide SelectCodec;
    hide TimePayload;
    hide PositCodec.Appearances;
    Ranges();
    var codec := SelectCodec(p.value);
    var value := [FamilyIdentifier(p.value.family)] + (Little(CodecIdentifier(codec), 2)
      + (Little(CODEC_VERSION, 2) + (Blob(LiteralBytes(p.value)) + TimePayload(p.time))));
    var listed := PositCodec.Appearances(p.appearances) + value;
    var counted := Uleb(|p.appearances|) + listed;
    assert PositPayload(p) == Little(p.id, 8) + counted;
    FixedWidthRoundTrip(p.id, 8, counted);
    UlebBijection(|p.appearances|, listed, counted);
    if p.appearances != [] {
      GenesisRefused(p.appearances, value);
    }
    DecodeFails(PositPayload(p), declared, parse, p.id, |p.appearances|, counted, listed);
  }

  // -------------------------------------------------------------- one more record

  lemma RoleReplayed(r: ReplayState, k: Kept, role: Role, normal: Normalizer, parse: Parser)
    requires Matches(r, k) && RolesUnique(k) && ValidRole(role, normal)
    requires role.id !in k.roles && role.id !in k.posits && role.name !in k.rolesByName
    ensures ApplyRecord(r, RoleRecord(role), normal, parse).Some?
    ensures Matches(ApplyRecord(r, RoleRecord(role), normal, parse).value, KeepRole(k, role))
  {
    RoleBijection(RolePayload(role), role, normal);
    hide DecodeRole;
    hide RolePayload;
    hide ValidRole;
    NameUnknown(r, k, role.name);
    assert r.constructIdentities == k.roles.Keys + k.posits.Keys;
    hide RolesUnique;
    hide PositMap;
    assert AddRole(r, role).Some?;
    AddRoleConsistent(r, role);
    hide Consistent;
  }

  lemma NameUnknown(r: ReplayState, k: Kept, name: string)
    requires Matches(r, k) && RolesUnique(k) && name !in k.rolesByName
    ensures name !in r.identitiesByName
  {
    assert RoleTables(r.roles, r.rolesByIdentity, r.identitiesByName);
  }

  lemma PropositionUnknown(r: ReplayState, k: Kept, x: Proposition)
    requires Matches(r, k) && PropositionsUnique(k) && x !in k.propositions
    ensures x !in r.propositions
  {
    assert Propositional(r.posits, r.propositions);
    PositMapHolds(r.posits);
    forall p | p in r.posits ensures PropositionOf(p) in k.propositions {
      assert k.posits[p.id] == p;
    }
  }

  lemma PositReplayed(r: ReplayState, k: Kept, p: Posit, normal: Normalizer, parse: Parser)
    requires Matches(r, k) && PropositionsUnique(k) && Encodable(p, parse)
    requires p.id !in k.roles && p.id !in k.posits && PropositionOf(p) !in k.propositions
    requires forall a :: a in p.appearances ==> a.role in k.roles
    ensures ApplyRecord(r, PositRecordOf(p), normal, parse).Some? <==> Persistable(p)
    ensures Persistable(p) ==> Matches(ApplyRecord(r, PositRecordOf(p), normal, parse).value, KeepPosit(k, p))
  {
    DecodesExactlyWhenPersistable(p, r.codecs, parse);
    assert Canonical(p.appearances);
    hide DecodePosit;
    hide PositPayload;
    hide Encodable;
    hide Persistable;
    PropositionUnknown(r, k, PropositionOf(p));
    hide PropositionsUnique;
    hide PropositionOf;
    hide IndexRoles;
    assert r.constructIdentities == k.roles.Keys + k.posits.Keys;
    if Persistable(p) {
      assert AddPosit(r, p).Some?;
      AddPositConsistent(r, p);
      PositMapSnoc(r.posits, p);
      hide Consistent;
      hide PositMap;
    }
  }

  function Then(r: Option<ReplayState>, record: PendingRecord, normal: Normalizer, parse: Parser): Option<ReplayState> {
    var s :- r;
    ApplyRecord(s, record, normal, parse)
  }

  lemma PositFaithful(r: Option<ReplayState>, k: Kept, p: Posit, normal: Normalizer, parse: Parser)
    requires Faithful(r, k) && PropositionsUnique(k) && Encodable(p, parse)
    requires p.id !in k.roles && p.id !in k.posits && PropositionOf(p) !in k.propositions
    requires forall a :: a in p.appearances ==> a.role in k.roles
    ensures Faithful(Then(r, PositRecordOf(p), normal, parse), KeepPosit(k, p))
  {
    hide ApplyRecord;
    hide Persistable;
    hide Encodable;
    if AllPersistable(k) {
      PositReplayed(r.value, k, p, normal, parse);
    }
    hide PropositionsUnique;
    hide Matches;
    hide PropositionOf;
    PersistableOneMore(k, p);
    hide KeepPosit;
    hide AllPersistable;
  }

  lemma PersistableOneMore(k: Kept, p: Posit)
    requires p.id !in k.posits && PropositionOf(p) !in k.propositions
    ensures AllPersistable(KeepPosit(k, p)) <==> AllPersistable(k) && Persistable(p)
  {
    hide Persistable;
    hide IndexRoles;
    var t := KeepPosit(k, p);
    if AllPersistable(t) {
      assert Persistable(t.posits[p.id]);
      forall id | id in k.posits ensures Persistable(k.posits[id]) {
        assert t.posits[id] == k.posits[id];
      }
    }
  }

  lemma RoleFaithful(r: Option<ReplayState>, k: Kept, role: Role, normal: Normalizer, parse: Parser)
    requires Faithful(r, k) && RolesUnique(k) && ValidRole(role, normal)
    requires role.id !in k.roles && role.id !in k.posits && role.name !in k.rolesByName
    ensures Faithful(Then(r, RoleRecord(role), normal, parse), KeepRole(k, role))
  {
    hide ApplyRecord;
    hide Persistable;
    if AllPersistable(k) {
      RoleReplayed(r.value, k, role, normal, parse);
    }
    assert AllPersistable(KeepRole(k, role)) <==> AllPersistable(k);
  }

  // -------------------------------------------------------------- whole batches

  lemma {:induction false} ApplyBatchSnoc(s: ReplayState, batch: seq<PendingRecord>, record: PendingRecord, normal: Normalizer, parse: Parser)
    ensures ApplyBatch(s, batch + [record], normal, parse) == Then(ApplyBatch(s, batch, normal, parse), record, normal, parse)
  {
    hide ApplyRecord;
    assert (batch + [record])[..|batch|] == batch;
  }

  /** Distinct new posits over kept sets, ready to be kept in this order. */
  ghost predicate Fresh(k: Kept, posits: seq<Posit>, parse: Parser) {
    && (forall p :: p in posits ==> Encodable(p, parse) && p.appearances in k.sets && p.id !in k.roles && p.id !in k.posits && PropositionOf(p) !in k.propositions)
    && (forall i, j :: 0 <= i < j < |posits| ==> posits[i].id != posits[j].id && PropositionOf(posits[i]) != PropositionOf(posits[j]))
  }

  /** What keeping fresh posits leaves alone and what it adds. */
  ghost predicate PositsAdded(k: Kept, t: Kept, posits: seq<Posit>) {
    && Sound(t) && t.roles == k.roles && t.rolesByName == k.rolesByName && t.sets == k.sets && t.appearances == k.appearances
    && (forall id :: id in t.posits <==> id in k.posits || exists p :: p in posits && p.id == id)
    && (forall id :: id in k.posits ==> t.posits[id] == k.posits[id])
    && (forall p :: p in posits ==> p.id in t.posits && t.posits[p.id] == p)
  }

  lemma {:induction false} KeepPositsAdds(k: Kept, posits: seq<Posit>, parse: Parser)
    requires Sound(k) && Fresh(k, posits, parse)
    ensures PositsAdded(k, KeepPosits(k, posits), posits)
  {
    hide Sound;
    hide Encodable;
    hide PropositionOf;
    if posits != [] {
      var (init, last) := (posits[..|posits| - 1], posits[|posits| - 1]);
      FreshPart(k, init, last, posits, parse);
      KeepPositsAdds(k, init, parse);
      hide Fresh;
      var t := KeepPosits(k, init);
      NewProposition(k, t, init, last);
      PositKeepsSound(t, last);
      hide IndexRoles;
      OneMorePosit(k, t, init, last);
      assert posits == init + [last];
    }
  }

  lemma FreshPart(k: Kept, init: seq<Posit>, last: Posit, posits: seq<Posit>, parse: Parser)
    requires Fresh(k, posits, parse) && posits == init + [last]
    ensures Fresh(k, init, parse) && last.appearances in k.sets && last.id !in k.posits && last.id !in k.roles
    ensures PropositionOf(last) !in k.propositions && Encodable(last, parse)
    ensures forall p :: p in init ==> p.id != last.id && PropositionOf(p) != PropositionOf(last)
  {
    hide Encodable;
    hide PropositionOf;
    assert posits[|init|] == last;
    forall p | p in init ensures p.id != last.id && PropositionOf(p) != PropositionOf(last) {
      var i :| 0 <= i < |init| && init[i] == p;
      assert posits[i] == p;
    }
    forall i, j | 0 <= i < j < |init| ensures init[i].id != init[j].id && PropositionOf(init[i]) != PropositionOf(init[j]) {
      assert init[i] == posits[i] && init[j] == posits[j];
    }
  }

  lemma NewProposition(k: Kept, t: Kept, init: seq<Posit>, last: Posit)
    requires PositsAdded(k, t, init) && last.id !in k.posits && Sound(k) && PropositionOf(last) !in k.propositions
    requires forall p :: p in init ==> p.id != last.id && PropositionOf(p) != PropositionOf(last)
    ensures last.id !in t.posits && PropositionOf(last) !in t.propositions
  {
    hide Indexed;
    hide RolesUnique;
    hide ReservedIndex;
    hide PropositionOf;
    forall id | id in t.posits ensures PropositionOf(t.posits[id]) != PropositionOf(last) {
      if id !in k.posits {
        var p :| p in init && p.id == id;
        assert t.posits[id] == p;
      }
    }
    assert PropositionsUnique(t);
  }

  lemma OneMorePosit(k: Kept, t: Kept, init: seq<Posit>, last: Posit)
    requires PositsAdded(k, t, init) && last.id !in t.posits && last.id !in k.posits && PropositionOf(last) !in t.propositions && Sound(KeepPosit(t, last))
    ensures PositsAdded(k, KeepPosit(t, last), init + [last])
  {
    hide Sound;
    hide PropositionOf;
    hide IndexRoles;
    var (u, posits) := (KeepPosit(t, last), init + [last]);
    forall id ensures id in u.posits <==> id in k.posits || exists p :: p in posits && p.id == id {
      if id in u.posits && id !in k.posits {
        if id == last.id {
          assert last in posits;
        } else {
          var p :| p in init && p.id == id;
          assert p in posits;
        }
      }
    }
  }

  lemma {:induction false} PositBatchFaithful(s: ReplayState, k: Kept, posits: seq<Posit>, normal: Normalizer, parse: Parser)
    requires Faithful(Some(s), k) && Sound(k) && Fresh(k, posits, parse)
    ensures Faithful(ApplyBatch(s, PositBatch(posits), normal, parse), KeepPosits(k, posits))
  {
    hide Faithful;
    hide Encodable;
    hide PositRecordOf;
    if posits == [] {
      assert PositBatch(posits) == [];
    } else {
      var (init, last) := (posits[..|posits| - 1], posits[|posits| - 1]);
      FreshPart(k, init, last, posits, parse);
      PositBatchFaithful(s, k, init, normal, parse);
      KeepPositsAdds(k, init, parse);
      var t := KeepPosits(k, init);
      hide Fresh;
      NewProposition(k, t, init, last);
      KnownRoles(t, last);
      hide PositsAdded;
      hide Sound;
      hide PropositionOf;
      PositBatchSnoc(init, last);
      assert posits == init + [last];
      ApplyBatchSnoc(s, PositBatch(init), PositRecordOf(last), normal, parse);
      hide ApplyBatch;
      SoundPropositions(t);
      PositFaithful(ApplyBatch(s, PositBatch(init), normal, parse), t, last, normal, parse);
    }
  }

  lemma SoundPropositions(k: Kept)
    requires Sound(k)
    ensures PropositionsUnique(k)
  {
  }

  lemma PositBatchSnoc(init: seq<Posit>, last: Posit)
    ensures PositBatch(init + [last]) == PositBatch(init) + [PositRecordOf(last)]
  {
    hide PositRecordOf;
  }

  lemma KnownRoles(k: Kept, p: Posit)
    requires Sound(k) && p.appearances in k.sets
    ensures forall a :: a in p.appearances ==> a.role in k.roles
  {
    assert Closed(View(k));
    forall a | a in p.appearances ensures a.role in k.roles {
      assert a in View(k).appearances;
      assert a.role in View(k).roleNames;
    }
  }

  /** Distinct new roles. */
  ghost predicate FreshRoles(k: Kept, roles: seq<Role>, normal: Normalizer) {
    && (forall r :: r in roles ==> ValidRole(r, normal) && r.id !in k.roles && r.id !in k.posits && r.name !in k.rolesByName)
    && (forall i, j :: 0 <= i < j < |roles| ==> roles[i].id != roles[j].id && roles[i].name != roles[j].name)
  }

  /** The roles kept under their identities are the old ones and the added ones. */
  ghost predicate IdsAdded(k: map<Thing, Role>, t: map<Thing, Role>, roles: seq<Role>) {
    && (forall id :: id in t <==> id in k || exists r :: r in roles && r.id == id)
    && (forall id :: id in k ==> t[id] == k[id])
    && (forall r :: r in roles ==> t[r.id] == r)
  }

  ghost predicate NamesAdded(k: map<string, Role>, t: map<string, Role>, roles: seq<Role>) {
    && (forall name :: name in t <==> name in k || exists r :: r in roles && r.name == name)
    && (forall name :: name in k ==> t[name] == k[name])
    && (forall r :: r in roles ==> t[r.name] == r)
  }

  ghost predicate RolesAdded(k: Kept, t: Kept, roles: seq<Role>) {
    && Sound(t) && t == k.(roles := t.roles, rolesByName := t.rolesByName)
    && IdsAdded(k.roles, t.roles, roles) && NamesAdded(k.rolesByName, t.rolesByName, roles)
  }

  lemma {:induction false} KeepRolesAdds(k: Kept, roles: seq<Role>, normal: Normalizer)
    requires Sound(k) && FreshRoles(k, roles, normal)
    ensures RolesAdded(k, KeepRoles(k, roles), roles)
  {
    hide Sound;
    hide ValidRole;
    if roles != [] {
      var (init, last) := (roles[..|roles| - 1], roles[|roles| - 1]);
      FreshRolesPart(k, init, last, roles, normal);
      KeepRolesAdds(k, init, normal);
      hide FreshRoles;
      var t := KeepRoles(k, init);
      RoleKeepsSound(t, last);
      OneMoreRole(k, t, init, last);
      assert roles == init + [last];
    }
  }

  lemma FreshRolesPart(k: Kept, init: seq<Role>, last: Role, roles: seq<Role>, normal: Normalizer)
    requires FreshRoles(k, roles, normal) && roles == init + [last]
    ensures FreshRoles(k, init, normal) && ValidRole(last, normal) && last.id !in k.roles && last.id !in k.posits && last.name !in k.rolesByName
    ensures forall r :: r in init ==> r.id != last.id && r.name != last.name
  {
    hide ValidRole;
    assert roles[|init|] == last;
    forall r | r in init ensures r.id != last.id && r.name != last.name {
      var i :| 0 <= i < |init| && init[i] == r;
      assert roles[i] == r;
    }
    forall i, j | 0 <= i < j < |init| ensures init[i].id != init[j].id && init[i].name != init[j].name {
      assert init[i] == roles[i] && init[j] == roles[j];
    }
  }

  lemma IdsOneMore(k: map<Thing, Role>, t: map<Thing, Role>, init: seq<Role>, last: Role)
    requires IdsAdded(k, t, init) && last.id !in k && forall r :: r in init ==> r.id != last.id
    ensures IdsAdded(k, t[last.id := last], init + [last]) && last.id !in t
  {
    var (u, roles) := (t[last.id := last], init + [last]);
    assert last in roles && forall r :: r in init ==> r in roles;
    forall id ensures id in u <==> id in k || exists r :: r in roles && r.id == id {
      if id in u && id !in k && id != last.id {
        var r :| r in init && r.id == id;
        assert r in roles;
      }
    }
  }

  lemma NamesOneMore(k: map<string, Role>, t: map<string, Role>, init: seq<Role>, last: Role)
    requires NamesAdded(k, t, init) && last.name !in k && forall r :: r in init ==> r.name != last.name
    ensures NamesAdded(k, t[last.name := last], init + [last]) && last.name !in t
  {
    var (u, roles) := (t[last.name := last], init + [last]);
    assert last in roles && forall r :: r in init ==> r in roles;
    forall name ensures name in u <==> name in k || exists r :: r in roles && r.name == name {
      if name in u && name !in k && name != last.name {
        var r :| r in init && r.name == name;
        assert r in roles;
      }
    }
  }

  lemma OneMoreRole(k: Kept, t: Kept, init: seq<Role>, last: Role)
    requires RolesAdded(k, t, init) && Sound(KeepRole(t, last)) && last.id !in k.roles && last.name !in k.rolesByName
    requires forall r :: r in init ==> r.id != last.id && r.name != last.name
    ensures RolesAdded(k, KeepRole(t, last), init + [last])
  {
    hide Sound;
    hide IdsAdded;
    hide NamesAdded;
    IdsOneMore(k.roles, t.roles, init, last);
    NamesOneMore(k.rolesByName, t.rolesByName, init, last);
  }

  lemma {:induction false} RoleBatchFaithful(s: ReplayState, k: Kept, roles: seq<Role>, normal: Normalizer, parse: Parser)
    requires Faithful(Some(s), k) && Sound(k) && FreshRoles(k, roles, normal)
    ensures Faithful(ApplyBatch(s, RoleBatch(roles), normal, parse), KeepRoles(k, roles))
  {
    if roles != [] {
      var (init, last) := (roles[..|roles| - 1], roles[|roles| - 1]);
      FreshRolesPart(k, init, last, roles, normal);
      RoleBatchFaithful(s, k, init, normal, parse);
      KeepRolesAdds(k, init, normal);
      var t := KeepRoles(k, init);
      hide FreshRoles;
      hide Faithful;
      hide ValidRole;
      hide Sound;
      assert last.id !in t.roles && last.id !in t.posits && last.name !in t.rolesByName;
      SoundRoles(t);
      hide RolesAdded;
      RoleBatchSnoc(init, last);
      assert roles == init + [last];
      ApplyBatchSnoc(s, RoleBatch(init), RoleRecord(last), normal, parse);
      hide ApplyBatch;
      RoleFaithful(ApplyBatch(s, RoleBatch(init), normal, parse), t, last, normal, parse);
    }
  }

  lemma SoundRoles(k: Kept)
    requires Sound(k)
    ensures RolesUnique(k)
  {
  }

  lemma RoleBatchSnoc(init: seq<Role>, last: Role)
    ensures RoleBatch(init + [last]) == RoleBatch(init) + [RoleRecord(last)]
  {
    hide RoleRecord;
  }
}
