/**
 What a log must say to be accepted, record by record: identities, names, propositions and
 codecs are each said once, and nothing is used before it is said.  The replay accepts
 exactly the lawful logs that are complete, and hands over what they say.
 */
module ReplayLaws {
  import opened Prelude
  import opened Frames
  import opened Constructs
  import opened Payload
  import opened PositCodec
  import opened Replay
  import Logging

  /** What some records say, in their order. */
  datatype Said = Said(roles: seq<Role>, posits: seq<Posit>, codecs: set<Codec>)

  function RoleSaid(record: PendingRecord, normal: Normalizer): Option<Role> {
    if record.kind == RECORD_ROLE then DecodeRole(record.payload, normal) else None
  }

  function CodecSaid(record: PendingRecord): Option<Codec> {
    if record.kind == RECORD_CODEC then DecodeCodec(record.payload) else None
  }

  /** A posit may only use the codecs declared before it. */
  function PositSaid(record: PendingRecord, codecs: set<Codec>, parse: Parser): Option<Posit> {
    if record.kind == RECORD_POSIT then DecodePosit(record.payload, codecs, parse) else None
  }

  function SaidBy(records: seq<PendingRecord>, normal: Normalizer, parse: Parser): Said {
    if records == [] then Said([], [], {})
    else SaidMore(SaidBy(records[..|records| - 1], normal, parse), records[|records| - 1], normal, parse)
  }

  function SaidMore(before: Said, record: PendingRecord, normal: Normalizer, parse: Parser): Said {
    Said(before.roles + Listed(RoleSaid(record, normal)), before.posits + Listed(PositSaid(record, before.codecs, parse)),
      before.codecs + Only(CodecSaid(record)))
  }

  function Listed<T>(o: Option<T>): seq<T> {
    if o.Some? then [o.value] else []
  }

  function Only<T(==)>(o: Option<T>): set<T> {
    if o.Some? then {o.value} else {}
  }

  /** A role of an identity and a name that nothing had before. */
  ghost predicate NewRole(r: Role, before: Said) {
    && (forall q :: q in before.roles ==> q.id != r.id && q.name != r.name)
    && (forall p :: p in before.posits ==> p.id != r.id)
  }

  /** A posit of a new identity that states a new proposition, in roles already declared. */
  ghost predicate NewPosit(p: Posit, before: Said) {
    && (forall q :: q in before.roles ==> q.id != p.id)
    && (forall q :: q in before.posits ==> q.id != p.id && PropositionOf(q) != PropositionOf(p))
    && (forall a :: a in p.appearances ==> exists q :: q in before.roles && q.id == a.role)
  }

  /** A record may stand behind what was said before it. */
  ghost predicate Lawful(record: PendingRecord, before: Said, normal: Normalizer, parse: Parser) {
    || (RoleSaid(record, normal).Some? && NewRole(RoleSaid(record, normal).value, before))
    || (CodecSaid(record).Some? && CodecSaid(record).value !in before.codecs)
    || (PositSaid(record, before.codecs, parse).Some? && NewPosit(PositSaid(record, before.codecs, parse).value, before))
  }

  ghost predicate AllLawful(records: seq<PendingRecord>, normal: Normalizer, parse: Parser) {
    forall i :: 0 <= i < |records| ==> Lawful(records[i], SaidBy(records[..i], normal, parse), normal, parse)
  }

  function Flattened(batches: seq<seq<PendingRecord>>): seq<PendingRecord> {
    if batches == [] then [] else Flattened(batches[..|batches| - 1]) + batches[|batches| - 1]
  }

  /** A replay that was told so much. */
  ghost predicate Told(s: ReplayState, said: Said) {
    Consistent(s) && Lists(s, said)
  }

  ghost predicate Lists(s: ReplayState, said: Said) {
    s.roles == said.roles && s.posits == said.posits && s.codecs == said.codecs
  }

  lemma CodecTold(s: ReplayState, c: Codec, said: Said)
    requires Told(s, said)
    ensures AddCodec(s, c).Some? <==> c !in said.codecs
    ensures AddCodec(s, c).Some? ==> Lists(AddCodec(s, c).value, said.(codecs := said.codecs + {c}))
  {
    hide Consistent;
  }

  lemma RoleTold(s: ReplayState, r: Role, said: Said)
    requires Told(s, said)
    ensures AddRole(s, r).Some? <==> NewRole(r, said)
    ensures AddRole(s, r).Some? ==> Lists(AddRole(s, r).value, said.(roles := said.roles + [r]))
  {
    assert RoleTables(s.roles, s.rolesByIdentity, s.identitiesByName);
    PositMapHolds(s.posits);
    RoleMapHolds(s.roles);
    hide PositMap;
    hide RoleMap;
    hide Propositional;
    hide RolesKnown;
  }

  lemma PositTold(s: ReplayState, p: Posit, said: Said)
    requires Told(s, said)
    ensures AddPosit(s, p).Some? <==> NewPosit(p, said)
    ensures AddPosit(s, p).Some? ==> Lists(AddPosit(s, p).value, said.(posits := said.posits + [p]))
  {
    assert RoleTables(s.roles, s.rolesByIdentity, s.identitiesByName);
    PositMapHolds(s.posits);
    RoleMapHolds(s.roles);
    hide PositMap;
    hide RoleMap;
    hide RolesKnown;
    hide PropositionOf;
  }

  lemma RoleRecordTold(s: ReplayState, said: Said, record: PendingRecord, normal: Normalizer, parse: Parser)
    requires Told(s, said) && record.kind == RECORD_ROLE
    ensures ApplyRecord(s, record, normal, parse).Some? <==> Lawful(record, said, normal, parse)
    ensures ApplyRecord(s, record, normal, parse).Some? ==> Lists(ApplyRecord(s, record, normal, parse).value, SaidMore(said, record, normal, parse))
  {
    hide DecodeRole;
    hide NewRole;
    if RoleSaid(record, normal).Some? {
      RoleTold(s, RoleSaid(record, normal).value, said);
    }
    hide AddRole;
    hide Consistent;
    assert said.posits + [] == said.posits && said.codecs + {} == said.codecs;
  }

  lemma CodecRecordTold(s: ReplayState, said: Said, record: PendingRecord, normal: Normalizer, parse: Parser)
    requires Told(s, said) && record.kind == RECORD_CODEC
    ensures ApplyRecord(s, record, normal, parse).Some? <==> Lawful(record, said, normal, parse)
    ensures ApplyRecord(s, record, normal, parse).Some? ==> Lists(ApplyRecord(s, record, normal, parse).value, SaidMore(said, record, normal, parse))
  {
    hide DecodeCodec;
    if CodecSaid(record).Some? {
      CodecTold(s, CodecSaid(record).value, said);
    }
    hide AddCodec;
    hide Consistent;
    assert said.roles + [] == said.roles && said.posits + [] == said.posits;
  }

  lemma PositRecordTold(s: ReplayState, said: Said, record: PendingRecord, normal: Normalizer, parse: Parser)
    requires Told(s, said) && record.kind == RECORD_POSIT
    ensures ApplyRecord(s, record, normal, parse).Some? <==> Lawful(record, said, normal, parse)
    ensures ApplyRecord(s, record, normal, parse).Some? ==> Lists(ApplyRecord(s, record, normal, parse).value, SaidMore(said, record, normal, parse))
  {
    hide DecodePosit;
    hide NewPosit;
    if PositSaid(record, said.codecs, parse).Some? {
      PositTold(s, PositSaid(record, said.codecs, parse).value, said);
    }
    hide AddPosit;
    hide Consistent;
    assert said.roles + [] == said.roles && said.codecs + {} == said.codecs;
  }

  /** One record: the replay takes it exactly when it is lawful, and is then told what it says. */
  lemma RecordTold(s: ReplayState, said: Said, record: PendingRecord, normal: Normalizer, parse: Parser)
    requires Told(s, said)
    ensures ApplyRecord(s, record, normal, parse).Some? <==> Lawful(record, said, normal, parse)
    ensures ApplyRecord(s, record, normal, parse).Some? ==> Told(ApplyRecord(s, record, normal, parse).value, SaidMore(said, record, normal, parse))
  {
    if record.kind == RECORD_ROLE {
      RoleRecordTold(s, said, record, normal, parse);
    } else if record.kind == RECORD_CODEC {
      CodecRecordTold(s, said, record, normal, parse);
    } else if record.kind == RECORD_POSIT {
      PositRecordTold(s, said, record, normal, parse);
    }
    if ApplyRecord(s, record, normal, parse).Some? {
      ApplyConsistent(s, record, normal, parse);
    }
    hide SaidMore;
    hide Lists;
    hide Consistent;
    hide AddRole;
    hide AddCodec;
    hide AddPosit;
    hide NewRole;
    hide NewPosit;
    hide DecodeRole;
    hide DecodeCodec;
    hide DecodePosit;
  }

  lemma LawfulOneMore(records: seq<PendingRecord>, record: PendingRecord, normal: Normalizer, parse: Parser)
    ensures AllLawful(records + [record], normal, parse)
            <==> AllLawful(records, normal, parse) && Lawful(record, SaidBy(records, normal, parse), normal, parse)
  {
    hide Lawful;
    hide SaidBy;
    var all := records + [record];
    assert all[..|records|] == records && all[|records|] == record;
    assert forall i :: 0 <= i < |records| ==> all[..i] == records[..i] && all[i] == records[i];
    if AllLawful(records, normal, parse) && Lawful(record, SaidBy(records, normal, parse), normal, parse) {
      forall i | 0 <= i < |all| ensures Lawful(all[i], SaidBy(all[..i], normal, parse), normal, parse) {
        assert i < |records| ==> all[..i] == records[..i];
      }
    }
    if AllLawful(all, normal, parse) {
      assert Lawful(all[|records|], SaidBy(all[..|records|], normal, parse), normal, parse);
      forall i | 0 <= i < |records| ensures Lawful(records[i], SaidBy(records[..i], normal, parse), normal, parse) {
        assert Lawful(all[i], SaidBy(all[..i], normal, parse), normal, parse);
      }
    }
  }

  /** Records are all taken exactly when each is lawful where it stands. */
  lemma {:induction false} RecordsTold(records: seq<PendingRecord>, normal: Normalizer, parse: Parser)
    ensures ApplyBatch(NOTHING, records, normal, parse).Some? <==> AllLawful(records, normal, parse)
    ensures ApplyBatch(NOTHING, records, normal, parse).Some? ==> Told(ApplyBatch(NOTHING, records, normal, parse).value, SaidBy(records, normal, parse))
  {
    hide ApplyRecord;
    hide Lawful;
    if records == [] {
      NothingConsistent();
    } else {
      hide Told;
      hide SaidMore;
      hide AllLawful;
      var (init, last) := (records[..|records| - 1], records[|records| - 1]);
      assert records == init + [last];
      RecordsTold(init, normal, parse);
      LawfulOneMore(init, last, normal, parse);
      if ApplyBatch(NOTHING, init, normal, parse).Some? {
        RecordTold(ApplyBatch(NOTHING, init, normal, parse).value, SaidBy(init, normal, parse), last, normal, parse);
      }
    }
  }

  lemma {:induction false} BatchesJoin(s: ReplayState, xs: seq<PendingRecord>, ys: seq<PendingRecord>, normal: Normalizer, parse: Parser)
    ensures ApplyBatch(s, xs + ys, normal, parse)
            == match ApplyBatch(s, xs, normal, parse) case None => None case Some(t) => ApplyBatch(t, ys, normal, parse)
    decreases |ys|
  {
    hide ApplyRecord;
    if ys == [] {
      assert xs + ys == xs;
    } else {
      var (init, last) := (ys[..|ys| - 1], ys[|ys| - 1]);
      BatchesJoin(s, xs, init, normal, parse);
      assert (xs + ys)[..|xs + ys| - 1] == xs + init && (xs + ys)[|xs + ys| - 1] == last;
    }
  }

  lemma {:induction false} BatchesFlatten(s: ReplayState, batches: seq<seq<PendingRecord>>, normal: Normalizer, parse: Parser)
    ensures ApplyBatches(s, batches, normal, parse) == ApplyBatch(s, Flattened(batches), normal, parse)
  {
    if batches != [] {
      var (init, last) := (batches[..|batches| - 1], batches[|batches| - 1]);
      BatchesFlatten(s, init, normal, parse);
      BatchesJoin(s, Flattened(init), last, normal, parse);
    }
  }

  /** Nothing at all, or every codec and every built-in role, as they are built in. */
  ghost predicate Complete(said: Said) {
    said == Said([], [], {}) || ((forall c: Codec :: c in said.codecs) && forall r :: r in BUILTIN_ROLES ==> r in said.roles)
  }

  lemma BuiltinTold(s: ReplayState, said: Said, r: Role)
    requires Told(s, said) && r.reserved
    ensures Builtin(s, r) <==> r in said.roles
  {
    RoleMapHolds(s.roles);
    assert RoleTables(s.roles, s.rolesByIdentity, s.identitiesByName);
    hide RoleMap;
    hide Propositional;
    hide RolesKnown;
  }

  lemma FinishTold(s: ReplayState, said: Said)
    requires Told(s, said)
    ensures Finish(s).Some? <==> Complete(said)
    ensures Finish(s).Some? ==> Finish(s).value == ReplayedStore(said.roles, said.posits, said != Said([], [], {}))
  {
    forall c: Codec ensures c in ALL_CODECS {
      Logging.EveryCodec(c);
    }
    assert RawUtf8 in ALL_CODECS;
    forall r | r in BUILTIN_ROLES ensures Builtin(s, r) <==> r in said.roles {
      AllReserved(r);
      BuiltinTold(s, said, r);
    }
    hide Consistent;
    hide Builtin;
    hide ALL_CODECS;
    hide BUILTIN_ROLES;
  }

  lemma AllReserved(r: Role)
    requires r in BUILTIN_ROLES
    ensures r.reserved
  {
  }

  /**
   A log replays exactly when every record is lawful where it stands and what they say is
   complete; the store that comes out holds what was said, in the order it was said.
   */
  lemma ReplaysLawfulLogs(batches: seq<seq<PendingRecord>>, normal: Normalizer, parse: Parser)
    ensures var (records, replayed) := (Flattened(batches), ReplayLogical(batches, normal, parse));
            var said := SaidBy(records, normal, parse);
            && (replayed.Some? <==> AllLawful(records, normal, parse) && Complete(said))
            && (replayed.Some? ==> replayed.value == ReplayedStore(said.roles, said.posits, said != Said([], [], {})))
  {
    var records := Flattened(batches);
    BatchesFlatten(NOTHING, batches, normal, parse);
    RecordsTold(records, normal, parse);
    hide ApplyBatches;
    hide ApplyBatch;
    hide SaidBy;
    hide AllLawful;
    hide Complete;
    hide Told;
    if ApplyBatch(NOTHING, records, normal, parse).Some? {
      FinishTold(ApplyBatch(NOTHING, records, normal, parse).value, SaidBy(records, normal, parse));
    }
    hide Finish;
  }
}
