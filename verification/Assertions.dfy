/**
 What an assertion command makes is what information in effect reads: evidence about the
 target it names, from its positor, with its certainty.  A proposition is known by its
 token alone, so the one exception is an assertion whose proposition already has a literal
 of another family.
 */
module Assertions {
  import opened Prelude
  import opened Encoding
  import opened Frames
  import opened Times
  import opened Constructs
  import opened Payload
  import opened Replay
  import Keepers
  import opened Logging
  import opened Databases
  import Effect

  lemma EnvelopeOfAssertion(target: Thing, positor: Thing)
    ensures Effect.Envelope(AssertionSet(target, positor)) == Some((target, positor))
    ensures SaysAscertained(AssertionSet(target, positor), target, positor)
  {
    AssertionSorts(target, positor);
    Effect.EnvelopeMeans(AssertionSet(target, positor), target, positor);
  }

  /** The two roles an assertion is made with are the built-in ones of these names. */
  lemma AssertionRoles()
    ensures Role(POSIT_ROLE, "posit", true) in BUILTIN_ROLES && Role(ASCERTAINS_ROLE, "ascertains", true) in BUILTIN_ROLES
  {
    assert BUILTIN_ROLES[0] in BUILTIN_ROLES && BUILTIN_ROLES[1] in BUILTIN_ROLES;
  }

  /** Target n is the first that asks for a proposition. */
  ghost predicate FirstFor(targets: seq<PositRequest>, n: nat, x: Proposition) {
    n < |targets| && RequestedProposition(targets[n]) == x && forall j :: 0 <= j < n ==> RequestedProposition(targets[j]) != x
  }

  /** The literal a proposition already has before any assertion is made: the kept one, or that of the first target asking for it. */
  ghost predicate HasAlready(k: Keepers.Kept, targets: seq<PositRequest>, x: Proposition, value: Literal) {
    if x in k.propositions then k.propositions[x] in k.posits && k.posits[k.propositions[x]].value == value
    else exists n: nat :: FirstFor(targets, n, x) && targets[n].value == value
  }

  /** It already has a literal that is no certainty. */
  ghost predicate Preempted(k: Keepers.Kept, targets: seq<PositRequest>, x: Proposition) {
    exists value :: HasAlready(k, targets, x, value) && value.family != CertaintyFamily
  }

  /** What a command that made assertions promised of the state before it and after it. */
  ghost predicate Made(k: Keepers.Kept, t: Keepers.Kept, bound: Thing, upTo: Thing, parse: Parser, targets: seq<PositRequest>, assertions: seq<AssertionSpec>,
      answers: seq<Posit>, made: seq<Posit>, added: seq<Posit>) {
    && Keepers.Sound(k) && Bounded(k, bound) && AllParse(k, parse) && Keepers.Sound(t) && AllParse(t, parse)
    && (forall s :: s in assertions ==> s.targetIndex < |answers| && s.certainty.family == CertaintyFamily && ReadyLiteral(s.certainty, parse))
    && PositsKept(k, t, added) && PositsAnswered(k, t, bound, targets, answers)
    && PositsAnswered(k, t, bound, AssertionRequests(assertions, answers), made) && Asserted(assertions, answers, made)
    && Asked(added, targets + AssertionRequests(assertions, answers), bound, upTo)
  }

  lemma FirstIsOne(targets: seq<PositRequest>, n: nat, m: nat, x: Proposition)
    requires FirstFor(targets, n, x) && FirstFor(targets, m, x)
    ensures n == m
  {
  }

  /** A posit that a command kept is what the first request for its proposition asks for. */
  lemma NewIsFirst(k: Keepers.Kept, t: Keepers.Kept, bound: Thing, upTo: Thing, asked: seq<PositRequest>, added: seq<Posit>, request: PositRequest, p: Posit)
    requires PositsKept(k, t, added) && Asked(added, asked, bound, upTo) && Bounded(k, bound)
    requires PositGranted(k, t, bound, request, p) && RequestedProposition(request) !in k.propositions
    ensures exists n: nat :: FirstAsked(asked, bound, n, p)
  {
    var q :| q in added && q.id == p.id;
    assert q == p;
  }

  lemma NewCarries(k: Keepers.Kept, bound: Thing, targets: seq<PositRequest>, requests: seq<PositRequest>, n: nat, p: Posit)
    requires FirstAsked(targets + requests, bound, n, p) && PropositionOf(p) !in k.propositions
    requires forall r :: r in requests ==> r.value.family == CertaintyFamily
    ensures Preempted(k, targets, PropositionOf(p)) <==> p.value.family != CertaintyFamily
  {
    var (all, x) := (targets + requests, PropositionOf(p));
    if n < |targets| {
      assert targets[n] == all[n] && forall j :: 0 <= j < n ==> all[j] == targets[j];
      assert FirstFor(targets, n, x);
      assert HasAlready(k, targets, x, p.value);
      forall m: nat | FirstFor(targets, m, x) ensures m == n {
        FirstIsOne(targets, m, n, x);
      }
    } else {
      assert all[n] == requests[n - |targets|];
      assert p.value.family == CertaintyFamily;
      forall m: nat ensures !FirstFor(targets, m, x) {
        assert m < |targets| ==> all[m] == targets[m];
      }
    }
  }

  lemma KnownCarries(k: Keepers.Kept, targets: seq<PositRequest>, p: Posit)
    requires Keepers.PropositionsUnique(k) && p.id in k.posits && k.posits[p.id] == p
    ensures Preempted(k, targets, PropositionOf(p)) <==> p.value.family != CertaintyFamily
  {
    assert HasAlready(k, targets, PropositionOf(p), p.value);
  }

  /** The assertion's proposition, once its target has an identity. */
  function PropositionMade(spec: AssertionSpec, target: Thing): Proposition {
    Proposition(AssertionSet(target, spec.positor), spec.certainty.token, spec.time)
  }

  /** A request answered with certainties asked for carries one exactly when its proposition was not preempted. */
  lemma AnswerCarries(k: Keepers.Kept, t: Keepers.Kept, bound: Thing, upTo: Thing, targets: seq<PositRequest>, requests: seq<PositRequest>, added: seq<Posit>,
      request: PositRequest, p: Posit)
    requires Keepers.PropositionsUnique(k) && Bounded(k, bound) && PositsKept(k, t, added) && Asked(added, targets + requests, bound, upTo)
    requires PositGranted(k, t, bound, request, p) && forall r :: r in requests ==> r.value.family == CertaintyFamily
    ensures p.value.family == CertaintyFamily <==> !Preempted(k, targets, RequestedProposition(request))
  {
    if RequestedProposition(request) in k.propositions {
      KnownCarries(k, targets, p);
    } else {
      NewIsFirst(k, t, bound, upTo, targets + requests, added, request, p);
      hide Asked;
      hide PositsKept;
      hide FirstAsked;
      hide Preempted;
      var n: nat :| FirstAsked(targets + requests, bound, n, p);
      NewCarries(k, bound, targets, requests, n, p);
    }
  }

  lemma SameMeaning(t: Keepers.Kept, p: Posit, certainty: Literal, parse: Parser)
    requires AllParse(t, parse) && p.id in t.posits && t.posits[p.id] == p && ReadyLiteral(certainty, parse)
    requires p.value.token == certainty.token && p.value.family == certainty.family
    ensures p.value.meaning == certainty.meaning
  {
  }

  lemma AskedAreCertainties(assertions: seq<AssertionSpec>, answers: seq<Posit>)
    requires forall s :: s in assertions ==> s.targetIndex < |answers| && s.certainty.family == CertaintyFamily
    ensures forall r :: r in AssertionRequests(assertions, answers) ==> r.value.family == CertaintyFamily
  {
    var requests := AssertionRequests(assertions, answers);
    forall r | r in requests ensures r.value.family == CertaintyFamily {
      var i :| 0 <= i < |requests| && requests[i] == r;
      assert assertions[i] in assertions;
    }
  }

  lemma GrantedAt(k: Keepers.Kept, t: Keepers.Kept, bound: Thing, assertions: seq<AssertionSpec>, answers: seq<Posit>, made: seq<Posit>, i: nat)
    requires Keepers.Sound(k) && i < |assertions| && (forall s :: s in assertions ==> s.targetIndex < |answers|)
    requires PositsAnswered(k, t, bound, AssertionRequests(assertions, answers), made)
    ensures assertions[i] in assertions && Keepers.PropositionsUnique(k)
    ensures var request := AssertionRequests(assertions, answers)[i];
            && PositGranted(k, t, bound, request, made[i]) && made[i].id in t.posits && t.posits[made[i].id] == made[i]
            && RequestedProposition(request) == PropositionMade(assertions[i], answers[assertions[i].targetIndex].id)
            && made[i].value.token == assertions[i].certainty.token
  {
    assert Keepers.PropositionsUnique(k);
    hide Keepers.Sound;
    assert assertions[i] in assertions;
  }

  /** The answer carries the certainty exactly when its proposition was not preempted. */
  lemma CarriesCertainty(k: Keepers.Kept, t: Keepers.Kept, bound: Thing, upTo: Thing, parse: Parser, targets: seq<PositRequest>, assertions: seq<AssertionSpec>,
      answers: seq<Posit>, made: seq<Posit>, added: seq<Posit>, i: nat)
    requires Made(k, t, bound, upTo, parse, targets, assertions, answers, made, added) && i < |assertions|
    ensures made[i].id in t.posits && t.posits[made[i].id] == made[i] && assertions[i].targetIndex < |answers|
    ensures made[i].value.family == CertaintyFamily <==> !Preempted(k, targets, PropositionMade(assertions[i], answers[assertions[i].targetIndex].id))
    ensures made[i].value.family == CertaintyFamily ==> made[i].value.meaning == assertions[i].certainty.meaning
  {
    GrantedAt(k, t, bound, assertions, answers, made, i);
    AskedAreCertainties(assertions, answers);
    hide Keepers.Sound;
    hide PositsKept;
    hide PositsAnswered;
    hide PositGranted;
    hide Asserted;
    hide Asked;
    hide Preempted;
    hide AllParse;
    hide ReadyLiteral;
    hide Bounded;
    AnswerCarries(k, t, bound, upTo, targets, AssertionRequests(assertions, answers), added, AssertionRequests(assertions, answers)[i], made[i]);
    if made[i].value.family == CertaintyFamily {
      SameMeaning(t, made[i], assertions[i].certainty, parse);
    }
  }

  /**
   At cuts no earlier than its times, an assertion is evidence about the target it names,
   from its positor, with its certainty, exactly when its proposition was not preempted; if it
   was, the answer is a malformed assertion, which refuses every question at such a cut.
   */
  ghost predicate AssertionMeans(k: Keepers.Kept, t: Keepers.Kept, targets: seq<PositRequest>, spec: AssertionSpec, target: Posit, p: Posit, cut: Effect.Cut) {
    var preempted := Preempted(k, targets, PropositionMade(spec, target.id));
    && (Effect.Evident(t.posits, cut, Effect.Evidence(p, target, spec.positor, spec.certainty.meaning))
        <==> !preempted && OverBy(spec.time, cut.assertion) && OverBy(target.time, cut.appearance))
    && (preempted && OverBy(spec.time, cut.assertion) ==> Effect.Malformed(t.posits, cut, p.id))
  }

  lemma AssertionsAreEvidence(k: Keepers.Kept, t: Keepers.Kept, bound: Thing, upTo: Thing, parse: Parser, targets: seq<PositRequest>, assertions: seq<AssertionSpec>,
      answers: seq<Posit>, made: seq<Posit>, added: seq<Posit>, i: nat, cut: Effect.Cut)
    requires Made(k, t, bound, upTo, parse, targets, assertions, answers, made, added) && i < |assertions|
    ensures assertions[i].targetIndex < |answers| && AssertionMeans(k, t, targets, assertions[i], answers[assertions[i].targetIndex], made[i], cut)
  {
    hide Keepers.Sound;
    CarriesCertainty(k, t, bound, upTo, parse, targets, assertions, answers, made, added, i);
    var (spec, target) := (assertions[i], answers[assertions[i].targetIndex]);
    hide Preempted;
    hide OverBy;
    assert Ascertains(made[i], target.id, spec.positor, spec.certainty.token, spec.time);
    assert PositGranted(k, t, bound, targets[spec.targetIndex], target);
    hide PositsKept;
    hide Asked;
    hide AllParse;
    hide ReadyLiteral;
    hide PositsAnswered;
    hide Asserted;
  }

  /** Whatever a command asserted is evidence at later cuts, unless its proposition was preempted. */
  method MakeAssertions(db: Database, targets: seq<PositRequest>, assertions: seq<AssertionSpec>, durable: bool)
    returns (created: Result<(seq<Posit>, seq<Posit>), CommandError>)
    requires db.Valid() && db.generator.lowerBound + |targets| + |assertions| < U64
    requires forall r :: r in targets ==> Ready(db.State(), r, db.parse)
    requires forall s :: s in assertions ==> s.positor < U64 && ReadyLiteral(s.certainty, db.parse)
    modifies db, db.generator
    ensures db.Valid() && (created.Ok? ==> |created.value.1| == |assertions| && forall s :: s in assertions ==> s.targetIndex < |created.value.0|)
    ensures created.Ok? ==>
              forall i, cut :: 0 <= i < |assertions| ==>
                AssertionMeans(old(db.State()), db.State(), targets, assertions[i], Target(assertions, created.value.0, i), created.value.1[i], cut)
    ensures created.Err? ==> (exists s :: s in assertions && (s.targetIndex >= |targets| || s.certainty.family != CertaintyFamily)) || (db.persistent && !durable)
    ensures created.Ok? ==> PositsAnswered(old(db.State()), db.State(), old(db.generator.lowerBound), targets, created.value.0)
  {
    hide Stable;
    hide InOrder;
    hide Ready;
    hide ReadyLiteral;
    hide PositsAnswered;
    hide PositsKept;
    hide SidesKept;
    hide Asked;
    hide Asserted;
    hide PositBatch;
    hide SomeNewTarget;
    hide SomeNewAssertion;
    hide ThingsWithin;
    hide PositorsWithin;
    hide AllYounger;
    hide PositSideUnchanged;
    hide AssertionMeans;
    ghost var added;
    ghost var (k, bound) := (db.State(), db.generator.lowerBound);
    KeptInOrder(k, bound, db.Logged(), db.normal, db.parse);
    created, added := db.CreateLiteralPositsWithAssertions(targets, assertions, durable);
    KeptInOrder(db.State(), db.generator.lowerBound, db.Logged(), db.normal, db.parse);
    if created.Ok? {
      forall i, cut | 0 <= i < |assertions|
        ensures AssertionMeans(k, db.State(), targets, assertions[i], Target(assertions, created.value.0, i), created.value.1[i], cut)
      {
        assert assertions[i] in assertions;
        AssertionsAreEvidence(k, db.State(), bound, db.generator.lowerBound, db.parse, targets, assertions, created.value.0, created.value.1, added, i, cut);
      }
    }
  }

  function Target(assertions: seq<AssertionSpec>, answers: seq<Posit>, i: nat): Posit
    requires i < |assertions| && forall s :: s in assertions ==> s.targetIndex < |answers|
  {
    assert assertions[i] in assertions;
    answers[assertions[i].targetIndex]
  }

  lemma KeptInOrder(k: Keepers.Kept, bound: Thing, log: Option<seq<seq<PendingRecord>>>, normal: Normalizer, parse: Parser)
    requires InOrder(k, bound, log, normal, parse)
    ensures Keepers.Sound(k) && Bounded(k, bound) && AllParse(k, parse)
  {
  }
}
