/**
 Inputs on which a property fails: stores that import validation lets through, what their
 import makes of them, and a database that commands build and replay refuses.
 */
module Examples {
  import opened Prelude
  import opened Encoding
  import opened Decimals
  import Utf8
  import opened Times
  import opened Constructs
  import opened Payload
  import opened PositCodec
  import opened Frames
  import opened Replay
  import opened Logging
  import opened Databases
  import opened Restart
  import opened Transfer
  import opened SelfReference
  import opened FamilyOrder
  import opened Assertions
  import Effect
  import Keepers

  const FROM := Role(6, "from", false)
  const TO := Role(7, "to", false)

  function Word(token: string): Literal {
    Literal(token, StringFamily, 0)
  }

  lemma BuiltinsKept(more: seq<Role>)
    ensures forall b :: b in BUILTIN_ROLES ==> HasBuiltin(BUILTIN_ROLES + more, b)
  {
    forall b | b in BUILTIN_ROLES ensures HasBuiltin(BUILTIN_ROLES + more, b) {
      assert b in BUILTIN_ROLES + more;
    }
  }

  const ROLES: seq<Role> := BUILTIN_ROLES + [FROM, TO]

  lemma TheRoles()
    ensures RolesUnique(ROLES) && (forall b :: b in BUILTIN_ROLES ==> HasBuiltin(ROLES, b))
    ensures IsRole(ROLES, 6) && IsRole(ROLES, 7) && forall id :: id > 7 ==> NotARole(ROLES, id)
  {
    BuiltinsKept([FROM, TO]);
    assert FROM in ROLES && TO in ROLES;
  }

  // ------------------------------------------------------------- a contested store

  /** Two posits over one set that both appear in, at different years. */
  function Contesting(id: Thing, year: int): Posit
    requires 0 <= year < 3000
  {
    Posit(id, [Appearance(10, 6), Appearance(11, 7)], Word("x"), Year(year))
  }

  function ContestedStore(): LogicalStore {
    LogicalStore(ROLES, [Contesting(10, 1), Contesting(11, 2)])
  }

  lemma YearsInOrder(a: int, b: int)
    requires 0 <= a < b < 3000
    ensures DefinitelyBefore(Year(a), Year(b))
  {
  }

  lemma TheyContest()
    ensures Contests(Contesting(10, 1), Contesting(11, 2))
  {
    var (p, q) := (Contesting(10, 1), Contesting(11, 2));
    YearsInOrder(1, 2);
    hide DefinitelyBefore;
    assert p.appearances[0] in p.appearances && q.appearances[1] in q.appearances;
    assert Among(p.appearances, 10) && Among(q.appearances, 11);
  }

  lemma ContestedStoreIsImportable()
    ensures Importable(ContestedStore())
    ensures var posits := ContestedStore().posits; Contests(posits[0], posits[1])
  {
    TheRoles();
    hide IsRole;
    hide NotARole;
    hide RolesUnique;
    hide HasBuiltin;
    hide ROLES;
    TheyContest();
    hide Contests;
  }

  // ----------------------------------------------------------------- a mixed store

  /** The integer 1 and the JSON value 1, of two Things. */
  function MixedStore(): LogicalStore {
    LogicalStore(ROLES,
                 [Posit(10, [Appearance(8, 6)], Literal("1", IntegerFamily, 1), Year(1)),
                  Posit(11, [Appearance(9, 6)], Literal("1", JsonFamily, 1), Year(1))])
  }

  lemma MixedStoreIsImportable()
    ensures Importable(MixedStore())
    ensures var posits := MixedStore().posits; Mixes(posits[0], posits[1])
  {
    var s := MixedStore();
    TheRoles();
    hide IsRole;
    hide NotARole;
    hide RolesUnique;
    hide HasBuiltin;
    hide ROLES;
  }

  // ------------------------------------------------------------- a nameless role

  function NamelessStore(): LogicalStore {
    LogicalStore(BUILTIN_ROLES + [Role(6, "", false)], [])
  }

  lemma NamelessStoreIsImportable(normal: Normalizer)
    ensures Importable(NamelessStore()) && !CanonicalNames(NamelessStore(), normal)
  {
    BuiltinsKept([Role(6, "", false)]);
    assert Role(6, "", false) in NamelessStore().roles;
  }

  // ---------------------------------------------------------- an unpersistable posit

  lemma EmptySetIsKept(k: Keepers.Kept, bound: Thing, log: Option<seq<seq<PendingRecord>>>, normal: Normalizer, parse: Parser)
    requires InOrder(k, bound, log, normal, parse)
    ensures InOrder(Keepers.KeepSet(k, []), bound, log, normal, parse) && [] in Keepers.KeepSet(k, []).sets
    ensures Keepers.KeepSet(k, []).propositions == k.propositions
  {
    hide Keepers.Sound;
    hide Recorded;
    SetStep(k, []);
    SideInOrder(k, Keepers.KeepSet(k, []), bound, log, normal, parse);
  }

  method NewDatabase(normal: Normalizer, parse: Parser) returns (db: Database)
    requires Stable(normal) && PlainNames(normal)
    ensures fresh(db) && fresh(db.generator) && db.Valid() && db.persistent && db.normal == normal && db.parse == parse
    ensures db.generator.lowerBound == 5 && db.posits == map[]
  {
    hide Stable;
    hide PlainNames;
    hide InOrder;
    hide RoleMap;
    db := new Database.Blank(normal, parse, true);
    var _ := Bootstrap(db, true);
  }

  /** Keeps the empty set. */
  method KeepEmptySet(db: Database)
    requires db.Valid()
    modifies db
    ensures db.Valid() && [] in db.State().sets
  {
    hide Stable;
    hide InOrder;
    EmptySetIsKept(db.State(), db.generator.lowerBound, db.Logged(), db.normal, db.parse);
    NothingRepeats();
    hide Sorted;
    hide Keepers.KeepSet;
    hide RepeatsRole;
    var _ := db.CreateAppearanceSet([]);
  }

  /** A new database that keeps a posit over the empty set; replay refuses its log. */
  method KeepUnpersistable(normal: Normalizer, parse: Parser, word: Literal) returns (db: Database)
    requires Stable(normal) && PlainNames(normal) && ReadyLiteral(word, parse)
    ensures fresh(db) && db.Valid() && db.persistent && !AllPersistable(db.State())
    ensures ReplayLogical(db.batches, normal, parse).None?
  {
    hide Stable;
    hide PlainNames;
    hide InOrder;
    hide ReadyLiteral;
    hide Keepers.Sound;
    hide ReplayLogical;
    hide AllPersistable;
    hide PositsAnswered;
    hide PositsKept;
    hide Asked;
    hide SomeNewTarget;
    db := NewDatabase(normal, parse);
    KeepEmptySet(db);
    ghost var k := db.State();
    var request := PositRequest([], word, BeginningOfTime);
    assert Ready(k, request, parse);
    var created, added := db.CreateLiteralPositsWithAssertions([request], [], true);
    KeptUnpersistable(k, db.State(), 5, [request], created.value.0);
    ReplayRebuildsTheDatabase(db.State(), db.generator.lowerBound, db.batches, normal, parse);
  }

  lemma NothingRepeats()
    ensures Sorted([]) == [] && !RepeatsRole(Sorted([]))
  {
  }

  lemma KeptUnpersistable(k: Keepers.Kept, t: Keepers.Kept, bound: Thing, requests: seq<PositRequest>, posits: seq<Posit>)
    requires PositsAnswered(k, t, bound, requests, posits) && |requests| == 1 && requests[0].appearances == []
    ensures !AllPersistable(t)
  {
    assert PositGranted(k, t, bound, requests[0], posits[0]);
    assert !Persistable(t.posits[posits[0].id]);
  }

  // -------------------------------------------- an assertion whose proposition is preempted

  lemma SoundInOrder(k: Keepers.Kept, t: Keepers.Kept, appearanceSet: AppearanceSet, bound: Thing, log: Option<seq<seq<PendingRecord>>>, normal: Normalizer, parse: Parser)
    requires InOrder(k, bound, log, normal, parse) && KeptAndSided(k, t, appearanceSet)
    ensures InOrder(t, bound, log, normal, parse) && appearanceSet in t.sets && k.sets <= t.sets && t.posits == k.posits
  {
    hide Keepers.Sound;
    hide Recorded;
    SideInOrder(k, t, bound, log, normal, parse);
  }

  /** Keeps the set of an assertion, in any database. */
  method KeepSetOf(db: Database, target: Thing, positor: Thing)
    requires db.Valid()
    modifies db
    ensures db.Valid() && AssertionSet(target, positor) in db.State().sets
    ensures db.State().posits == old(db.State().posits) && old(db.State().sets) <= db.State().sets
  {
    hide Stable;
    hide InOrder;
    hide Keepers.Sound;
    hide HasBuiltins;
    hide KeptAndSided;
    ghost var k := db.State();
    OrderParts(k, db.generator.lowerBound, db.Logged(), db.normal, db.parse);
    var created := db.KeepAssertion(target, positor);
    SoundInOrder(k, db.State(), created.value, db.generator.lowerBound, db.Logged(), db.normal, db.parse);
  }

  /** Only the one request was asked for, so only its token is kept. */
  ghost predicate OnlyToken(k: Keepers.Kept, token: string) {
    forall id :: id in k.posits ==> k.posits[id].value.token == token
  }

  lemma OnlyAsked(k: Keepers.Kept, t: Keepers.Kept, requests: seq<PositRequest>, token: string, added: seq<Posit>, bound: Thing, upTo: Thing)
    requires k.posits == map[] && PositsKept(k, t, added) && Asked(added, requests, bound, upTo)
    requires forall r :: r in requests ==> r.value.token == token
    ensures OnlyToken(t, token)
  {
    hide RequestedProposition;
    hide PropositionOf;
    forall p | p in added ensures p.value.token == token {
      var i: nat :| FirstAsked(requests, bound, i, p);
      assert requests[i] in requests;
    }
  }

  lemma SameToken(k: Keepers.Kept, t: Keepers.Kept, token: string)
    requires OnlyToken(k, token) && t.posits == k.posits
    ensures OnlyToken(t, token)
  {
  }

  lemma TokenIsNew(k: Keepers.Kept, token: string, x: Proposition)
    requires Keepers.Sound(k) && OnlyToken(k, token) && x.token != token
    ensures x !in k.propositions
  {
    assert Keepers.PropositionsUnique(k);
    hide Keepers.Sound;
  }

  /** Asking again for what is kept is answered with the kept posit. */
  lemma AskedAgain(k: Keepers.Kept, t: Keepers.Kept, bound: Thing, requests: seq<PositRequest>, posits: seq<Posit>, p: Posit)
    requires Keepers.Sound(k) && PositsAnswered(k, t, bound, requests, posits) && requests != []
    requires p.id in k.posits && k.posits[p.id] == p && PropositionOf(p) == RequestedProposition(requests[0])
    ensures posits != [] && posits[0].id == p.id
  {
    assert Keepers.PropositionsUnique(k);
    hide Keepers.Sound;
    assert PositGranted(k, t, bound, requests[0], posits[0]);
  }
  /** One target of a new database. */
  method KeepOne(db: Database, word: Literal) returns (request: PositRequest, p: Posit)
    requires db.Valid() && db.persistent && db.generator.lowerBound == 5 && db.posits == map[] && ReadyLiteral(word, db.parse)
    modifies db, db.generator
    ensures db.Valid() && db.generator.lowerBound == 6 && OnlyToken(db.State(), word.token) && Ready(db.State(), request, db.parse)
    ensures p.id in db.State().posits && db.State().posits[p.id] == p && PropositionOf(p) == RequestedProposition(request) && request.value == word && p.id < 7
  {
    hide Stable;
    hide InOrder;
    hide ReadyLiteral;
    hide Keepers.Sound;
    hide PositsKept;
    hide Asked;
    hide SomeNewTarget;
    hide SomeNewAssertion;
    hide SidesKept;
    hide OnlyToken;
    KeepSetOf(db, 3, 4);
    ghost var k := db.State();
    request := PositRequest(AssertionSet(3, 4), word, Year(1));
    assert Ready(k, request, db.parse);
    var created, added := db.CreateLiteralPositsWithAssertions([request], [], true);
    p := created.value.0[0];
    OnlyAsked(k, db.State(), [request] + AssertionRequests([], created.value.0), word.token, added, 5, 6);
    assert PositGranted(k, db.State(), 5, request, p);
    IdentitiesBounded(db.State(), db.generator.lowerBound, db.Logged(), db.normal, db.parse);
    SetsStay(k, db.State(), request, [], created.value.0);
  }

  lemma SetsStay(k: Keepers.Kept, t: Keepers.Kept, request: PositRequest, assertions: seq<AssertionSpec>, answers: seq<Posit>)
    requires (forall s :: s in assertions ==> s.targetIndex < |answers|) && SidesKept(k, t, AssertionRequests(assertions, answers))
    ensures request.appearances in k.sets ==> request.appearances in t.sets
  {
  }

  lemma ItIsPreempted(k: Keepers.Kept, token: string, request: PositRequest, taken: PositRequest, spec: AssertionSpec, target: Thing)
    requires Keepers.Sound(k) && OnlyToken(k, token) && request.value.token == token
    requires taken == PositRequest(AssertionSet(target, spec.positor), taken.value, spec.time)
    requires spec.certainty.token == taken.value.token != token && taken.value.family != CertaintyFamily
    ensures Preempted(k, [request, taken], PropositionMade(spec, target))
  {
    var (targets, x) := ([request, taken], PropositionMade(spec, target));
    TokenIsNew(k, token, x);
    hide Keepers.Sound;
    hide OnlyToken;
    assert FirstFor(targets, 1, x) && targets[1].value == taken.value;
    assert HasAlready(k, targets, x, taken.value);
  }

  /**
   A database in which an assertion is answered by a posit that is no assertion: the same
   command asks first for a posit over the assertion's set, with the token of its
   certainty in another family.  Information in effect is refused from then on.
   */
  method AssertPreempted(normal: Normalizer, parse: Parser, word: Literal, odd: Literal, certainty: Literal) returns (db: Database, made: Posit)
    requires Stable(normal) && PlainNames(normal) && ReadyLiteral(word, parse) && ReadyLiteral(odd, parse) && ReadyLiteral(certainty, parse)
    requires word.token != odd.token == certainty.token && odd.family != CertaintyFamily == certainty.family
    ensures fresh(db) && db.Valid()
    ensures forall cut: Effect.Cut :: OverBy(Year(2), cut.assertion) ==> Effect.Malformed(db.State().posits, cut, made.id)
  {
    hide Stable;
    hide PlainNames;
    hide InOrder;
    hide ReadyLiteral;
    hide Keepers.Sound;
    hide OnlyToken;
    hide PositsAnswered;
    hide Preempted;
    hide OverBy;
    hide Effect.Malformed;
    hide Effect.Evident;
    db := NewDatabase(normal, parse);
    var request, target := KeepOne(db, word);
    ghost var before := db.State();
    KeepSetOf(db, target.id, 3);
    var taken := PositRequest(AssertionSet(target.id, 3), odd, Year(2));
    var spec := AssertionSpec(0, 3, certainty, Year(2));
    ghost var k := db.State();
    OrderParts(k, db.generator.lowerBound, db.Logged(), db.normal, db.parse);
    SameToken(before, k, word.token);
    assert Ready(k, taken, db.parse);
    var created := MakeAssertions(db, [request, taken], [spec], true);
    AskedAgain(k, db.State(), 6, [request, taken], created.value.0, target);
    made := created.value.1[0];
    ItIsPreempted(k, word.token, request, taken, spec, target.id);
    hide Ready;
    hide PropositionOf;
    hide RequestedProposition;
    forall cut: Effect.Cut | OverBy(Year(2), cut.assertion) ensures Effect.Malformed(db.State().posits, cut, made.id) {
      assert AssertionMeans(k, db.State(), [request, taken], [spec][0], Target([spec], created.value.0, 0), created.value.1[0], cut);
    }
  }

  // ----------------------------------------------------- what an import makes of them

  /** The posits of a database that was restored from an imported store. */
  ghost predicate Holds(k: Keepers.Kept, t: LogicalStore) {
    Keepers.Sound(k) && forall p :: p in t.posits ==> p.id in k.posits && k.posits[p.id] == p
  }

  lemma ImageInItself(p: Posit, q: Posit, m: map<Thing, Thing>)
    requires CoversPosit(m, p) && SamePosit(p, q, m) && InItself(p)
    ensures InItself(q)
  {
    var a :| a in p.appearances && a.thing == p.id;
    assert Appearance(m[a.thing], m[a.role]) in q.appearances;
  }

  lemma SameImages(p: Posit, q: Posit, pp: Posit, qq: Posit, m: map<Thing, Thing>)
    requires CoversPosit(m, p) && CoversPosit(m, q) && SamePosit(p, pp, m) && SamePosit(q, qq, m) && p.appearances == q.appearances
    ensures pp.appearances == qq.appearances
  {
    forall a ensures a in pp.appearances <==> a in qq.appearances {
    }
    CanonicalUnique(pp.appearances, qq.appearances);
  }

  /** Importing a store whose posits contest each other makes a contested database. */
  lemma ImportIsContested(s: LogicalStore, t: LogicalStore, m: map<Thing, Thing>, k: Keepers.Kept, i: nat, j: nat)
    requires Isomorphic(s, t, m) && i < |s.posits| && j < |s.posits| && Contests(s.posits[i], s.posits[j]) && Holds(k, t)
    ensures Contested(Keepers.View(k)) && !OrdersAgree(Keepers.View(k))
  {
    hide Keepers.Sound;
    hide InItself;
    hide SamePosit;
    var (p, q, pp, qq) := (s.posits[i], s.posits[j], t.posits[i], t.posits[j]);
    assert p in s.posits && q in s.posits && pp in t.posits && qq in t.posits;
    assert SamePosit(p, pp, m) && SamePosit(q, qq, m);
    ImageInItself(p, pp, m);
    ImageInItself(q, qq, m);
    SameImages(p, q, pp, qq, m);
    SameTimes(p, pp, m);
    SameTimes(q, qq, m);
    ViewOf(k);
    assert Contests(Keepers.View(k).posits[pp.id], Keepers.View(k).posits[qq.id]);
    hide OrdersAgree;
    hide Contested;
    EveryOrderAgrees(Keepers.View(k));
  }

  lemma SameTimes(p: Posit, q: Posit, m: map<Thing, Thing>)
    requires CoversPosit(m, p) && SamePosit(p, q, m)
    ensures q.time == p.time && q.value == p.value
  {
  }

  lemma ViewOf(k: Keepers.Kept)
    requires Keepers.Sound(k)
    ensures Closed(Keepers.View(k)) && Keepers.View(k).posits == k.posits
  {
  }

  /** Importing a store with mixed values makes a database in which orders carry different families. */
  lemma ImportIsMixed(s: LogicalStore, t: LogicalStore, m: map<Thing, Thing>, k: Keepers.Kept, i: nat, j: nat)
    requires Isomorphic(s, t, m) && i < |s.posits| && j < |s.posits| && Mixes(s.posits[i], s.posits[j]) && Holds(k, t)
    ensures Mixed(Keepers.View(k)) && !CarriedOrdersAgree(Keepers.View(k))
  {
    hide Keepers.Sound;
    hide SamePosit;
    var (p, q, pp, qq) := (s.posits[i], s.posits[j], t.posits[i], t.posits[j]);
    assert p in s.posits && q in s.posits && pp in t.posits && qq in t.posits;
    assert SamePosit(p, pp, m) && SamePosit(q, qq, m);
    SameTimes(p, pp, m);
    SameTimes(q, qq, m);
    ViewOf(k);
    assert Mixes(Keepers.View(k).posits[pp.id], Keepers.View(k).posits[qq.id]);
    hide CarriedOrdersAgree;
    hide Mixed;
    EveryCarriedOrderAgrees(Keepers.View(k));
  }

  // ------------------------------------------------------------- imported and opened

  /** So few identities that an import cannot run out of them. */
  ghost predicate Small(s: LogicalStore) {
    6 + 2 * |Foreign(s)| < U64
  }

  lemma {:induction false} FewNumbers(xs: set<Thing>, n: nat)
    requires forall x :: x in xs ==> x < n
    ensures |xs| <= n
  {
    if n > 0 {
      var rest := xs - {n - 1};
      FewNumbers(rest, n - 1);
      if n - 1 in xs {
        assert xs == rest + {n - 1};
      } else {
        assert xs == rest;
      }
    } else {
      assert xs == {};
    }
  }

  lemma FewIdentities(s: LogicalStore)
    requires forall id :: id in Foreign(s) ==> id < 12
    ensures Small(s)
  {
    hide Foreign;
    FewNumbers(Foreign(s), 12);
  }

  lemma ImageIdentities(s: LogicalStore, t: LogicalStore, m: map<Thing, Thing>)
    requires Importable(s) && Isomorphic(s, t, m)
    ensures forall i, j :: 0 <= i < j < |t.posits| ==> t.posits[i].id != t.posits[j].id
  {
    forall i, j | 0 <= i < j < |t.posits| ensures t.posits[i].id != t.posits[j].id {
      assert SamePosit(s.posits[i], t.posits[i], m) && SamePosit(s.posits[j], t.posits[j], m);
      assert s.posits[i] in s.posits && s.posits[j] in s.posits && s.posits[i].id != s.posits[j].id;
    }
  }

  /** Imports a store into a new one and opens what was written. */
  method ImportAndOpen(s: LogicalStore, normal: Normalizer, parse: Parser) returns (db: Database, ghost t: LogicalStore, ghost m: map<Thing, Thing>)
    requires Writeable(s, parse) && SortedSets(s) && Importable(s) && CanonicalNames(s, normal) && Small(s)
    requires Stable(normal) && PlainNames(normal)
    ensures fresh(db) && db.Valid() && Isomorphic(s, t, m) && Holds(db.State(), t)
  {
    hide Writeable;
    hide SortedSets;
    hide Importable;
    hide CanonicalNames;
    hide Foreign;
    hide Isomorphic;
    hide Stable;
    hide PlainNames;
    hide ReplayLogical;
    hide InOrder;
    hide Keepers.Sound;
    hide PositMap;
    hide RoleMap;
    hide Retained;
    hide Attained;
    hide JustBootstrapped;
    hide InOrderOf;
    hide LeastImages;
    var imported := ImportStore(s, normal, parse);
    var (batches, image, renaming) := imported.value;
    t, m := image, renaming;
    var opening := OpenDatabase(batches, normal, parse, true);
    db := opening.value;
    ImageIdentities(s, t, m);
    PositMapHolds(t.posits);
    OrderParts(db.State(), db.generator.lowerBound, db.Logged(), db.normal, db.parse);
  }

  /** What the two stores need of the outside: plain names that are their own canonical form. */
  ghost predicate PlainWorld(normal: Normalizer) {
    Stable(normal) && PlainNames(normal) && normal("from") == "from" && normal("to") == "to"
  }

  /** A database in which orders disagree, from the import of a store that validation accepts. */
  method ImportContested(normal: Normalizer, parse: Parser) returns (db: Database)
    requires PlainWorld(normal) && parse("x", StringFamily) == Some(0)
    ensures fresh(db) && db.Valid() && Contested(Keepers.View(db.State())) && !OrdersAgree(Keepers.View(db.State()))
  {
    var s := ContestedStore();
    ContestedStoreIsImportable();
    ContestedStoreIsWriteable(normal, parse);
    hide ContestedStore;
    hide Writeable;
    hide SortedSets;
    hide Importable;
    hide CanonicalNames;
    hide Small;
    hide Isomorphic;
    hide InOrder;
    hide Stable;
    hide PlainNames;
    hide Contests;
    hide Contested;
    hide OrdersAgree;
    ghost var t, m;
    db, t, m := ImportAndOpen(s, normal, parse);
    hide Holds;
    ImportIsContested(s, t, m, db.State(), 0, 1);
  }

  /** A database in which orders carry different families, from such an import too. */
  method ImportMixed(normal: Normalizer, parse: Parser) returns (db: Database)
    requires PlainWorld(normal) && parse("1", IntegerFamily) == Some(1) && parse("1", JsonFamily) == Some(1)
    ensures fresh(db) && db.Valid() && Mixed(Keepers.View(db.State())) && !CarriedOrdersAgree(Keepers.View(db.State()))
  {
    var s := MixedStore();
    MixedStoreIsImportable();
    MixedStoreIsWriteable(normal, parse);
    hide MixedStore;
    hide Writeable;
    hide SortedSets;
    hide Importable;
    hide CanonicalNames;
    hide Small;
    hide Isomorphic;
    hide InOrder;
    hide Stable;
    hide PlainNames;
    hide Mixes;
    hide Mixed;
    hide CarriedOrdersAgree;
    ghost var t, m;
    db, t, m := ImportAndOpen(s, normal, parse);
    hide Holds;
    ImportIsMixed(s, t, m, db.State(), 0, 1);
  }

  /** A role of the stores above. */
  ghost predicate ModestRole(r: Role, normal: Normalizer) {
    r.id < 12 && ShortText(r.name) && r.name != "" && normal(r.name) == r.name
  }

  lemma RolesAreModest(normal: Normalizer)
    requires PlainWorld(normal)
    ensures forall r :: r in ROLES ==> ModestRole(r, normal)
  {
    forall r | r in ROLES ensures ModestRole(r, normal) {
      EncodedLength(r.name);
    }
  }

  lemma {:induction false} UlebLength(n: nat)
    ensures |Uleb(n)| <= 1 + n / 128
  {
    if n >= 128 {
      UlebLength(n / 128);
    }
  }

  lemma LiteralIsShort(value: Literal)
    requires |value.token| == 1
    ensures |LiteralBytes(value)| < U64
  {
    EncodedLength(value.token);
    hide Utf8.Encode;
    hide Parse;
    LiteralRoundTrip(value);
    if SelectCodec(value).CanonicalI64? {
      var n := Parse(value.token, MIN_I64, MAX_I64).value;
      UlebLength(Zigzag(n));
      hide Uleb;
    }
  }

  /** A posit of the stores above: few identities, a set in order, a short literal of its family. */
  ghost predicate Modest(q: Posit, parse: Parser) {
    && q.id < 12 && |q.appearances| <= 2 && |q.value.token| == 1 && parse(q.value.token, q.value.family) == Some(q.value.meaning)
    && Canonical(q.appearances) && forall a :: a in q.appearances ==> a.role < 12 && a.thing < 12
  }

  lemma ModestRolesFit(s: LogicalStore, normal: Normalizer)
    requires forall r :: r in s.roles ==> ModestRole(r, normal)
    ensures (forall r :: r in s.roles ==> r.id < U64 && ShortText(r.name)) && CanonicalNames(s, normal)
  {
    hide ShortText;
  }

  lemma ModestPositsFit(s: LogicalStore, parse: Parser)
    requires forall q :: q in s.posits ==> Modest(q, parse)
    ensures (forall q :: q in s.posits ==> Encodable(q.(id := 1), parse) && q.id < U64) && SortedSets(s)
  {
    forall q | q in s.posits ensures Encodable(q.(id := 1), parse) && q.id < U64 && PositCodec.Ordered(q.appearances) {
      ModestPositIsEncodable(q, parse);
    }
    hide Encodable;
    hide PositCodec.Ordered;
  }

  lemma ModestStoreIsWriteable(s: LogicalStore, normal: Normalizer, parse: Parser)
    requires (forall r :: r in s.roles ==> ModestRole(r, normal)) && forall q :: q in s.posits ==> Modest(q, parse)
    ensures Writeable(s, parse) && SortedSets(s) && CanonicalNames(s, normal) && Small(s)
  {
    ModestRolesFit(s, normal);
    ModestPositsFit(s, parse);
    ModestIdentities(s, normal, parse);
    hide Modest;
    hide ModestRole;
    hide ShortText;
    hide Encodable;
    hide CanonicalNames;
    hide SortedSets;
    hide Foreign;
    FewIdentities(s);
  }

  lemma ModestPositIsEncodable(q: Posit, parse: Parser)
    requires Modest(q, parse)
    ensures Encodable(q.(id := 1), parse) && q.id < U64 && PositCodec.Ordered(q.appearances)
  {
    hide LiteralBytes;
    LiteralIsShort(q.value);
    assert q.(id := 1).value == q.value;
  }

  lemma ModestIdentities(s: LogicalStore, normal: Normalizer, parse: Parser)
    requires (forall r :: r in s.roles ==> ModestRole(r, normal)) && forall q :: q in s.posits ==> Modest(q, parse)
    ensures forall id :: id in Foreign(s) ==> id < 12
  {
  }

  lemma ContestedStoreIsWriteable(normal: Normalizer, parse: Parser)
    requires PlainWorld(normal) && parse("x", StringFamily) == Some(0)
    ensures var s := ContestedStore(); Writeable(s, parse) && SortedSets(s) && CanonicalNames(s, normal) && Small(s) && |s.posits| == 2
  {
    RolesAreModest(normal);
    hide ModestRole;
    hide ROLES;
    hide Writeable;
    hide CanonicalNames;
    hide Small;
    ModestStoreIsWriteable(ContestedStore(), normal, parse);
  }

  lemma MixedStoreIsWriteable(normal: Normalizer, parse: Parser)
    requires PlainWorld(normal) && parse("1", IntegerFamily) == Some(1) && parse("1", JsonFamily) == Some(1)
    ensures var s := MixedStore(); Writeable(s, parse) && SortedSets(s) && CanonicalNames(s, normal) && Small(s) && |s.posits| == 2
  {
    RolesAreModest(normal);
    hide ModestRole;
    hide ROLES;
    hide Writeable;
    hide CanonicalNames;
    hide Small;
    ModestStoreIsWriteable(MixedStore(), normal, parse);
  }

  lemma NamelessRoles()
    ensures forall r :: r in NamelessStore().roles ==> r.id < 12 && ShortText(r.name)
  {
    forall r | r in NamelessStore().roles ensures r.id < 12 && ShortText(r.name) {
      EncodedLength(r.name);
    }
  }

  lemma FewRoles(s: LogicalStore, parse: Parser)
    requires s.posits == [] && forall r :: r in s.roles ==> r.id < 12 && ShortText(r.name)
    ensures Writeable(s, parse) && SortedSets(s) && Small(s)
  {
    hide ShortText;
    forall id | id in Foreign(s) ensures id < 12 {
    }
    hide Foreign;
    FewIdentities(s);
    hide Small;
  }

  lemma NamelessStoreIsWriteable(parse: Parser)
    ensures var s := NamelessStore(); Writeable(s, parse) && SortedSets(s) && Small(s)
  {
    var s := NamelessStore();
    NamelessRoles();
    assert s.posits == [];
    hide NamelessStore;
    FewRoles(s, parse);
  }

  /** The import of a store with a nameless role writes it, and then cannot replay it. */
  method ImportNameless(normal: Normalizer, parse: Parser) returns (error: ImportError)
    ensures error == Unreplayable
  {
    var s := NamelessStore();
    NamelessStoreIsImportable(normal);
    NamelessStoreIsWriteable(parse);
    hide NamelessStore;
    hide Writeable;
    hide SortedSets;
    hide Importable;
    hide CanonicalNames;
    hide Foreign;
    hide Isomorphic;
    hide ReplayLogical;
    var imported := ImportStore(s, normal, parse);
    return imported.error;
  }
}
