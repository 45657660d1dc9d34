/**
 Databases built by commands alone.  A command names only Things that already exist, so
 every posit is younger than the Things of its set; and in such a database every pattern
 joins independently of the order its branch runs in.
 */
module Lineage {
  import opened Prelude
  import opened Constructs
  import opened Encoding
  import opened Frames
  import opened Payload
  import opened Replay
  import opened SelfReference
  import Keepers
  import opened Logging
  import opened Databases
  import opened Restart

  /** What a command over existing Things, a failed command or a restart does to the posits. */
  ghost predicate Step(k: Keepers.Kept, t: Keepers.Kept) {
    Keepers.Sound(t) && (t.posits == k.posits || exists added: seq<Posit> :: PositsKept(k, t, added) && AllYounger(added))
  }

  /** The databases of a run, from one without posits. */
  ghost predicate Lives(states: seq<Keepers.Kept>) {
    && states != [] && states[0].posits == map[] && Keepers.Sound(states[0])
    && forall i :: 0 <= i < |states| - 1 ==> StepAt(states, i)
  }

  ghost predicate StepAt(states: seq<Keepers.Kept>, i: nat)
    requires i + 1 < |states|
  {
    Step(states[i], states[i + 1])
  }

  // ----------------------------------------------------------------- the commands step

  datatype Command =
    | AddRoles(requests: seq<(string, bool)>)
    | AddPosits(targets: seq<PositRequest>, assertions: seq<AssertionSpec>)

  /** What a caller provides: sets that are kept, literals of their family, and Things that exist. */
  ghost predicate Askable(db: Database, c: Command)
    reads db, db.generator
  {
    match c
    case AddRoles(requests) =>
      db.generator.lowerBound + |requests| < U64 && forall q :: q in requests ==> ShortText(db.normal(q.0))
    case AddPosits(targets, assertions) =>
      && db.generator.lowerBound + |targets| + |assertions| < U64
      && (forall r :: r in targets ==> Ready(db.State(), r, db.parse))
      && (forall s :: s in assertions ==> s.positor < U64 && ReadyLiteral(s.certainty, db.parse))
      && ThingsWithin(targets, db.generator.lowerBound) && PositorsWithin(assertions, db.generator.lowerBound)
  }

  /** The same roles and posits, which is what a log records. */
  ghost predicate SameConstructs(k: Keepers.Kept, t: Keepers.Kept) {
    t.roles == k.roles && t.posits == k.posits
  }

  /** The constructs of one batch are added: roles, or posits. */
  ghost predicate Adds(k: Keepers.Kept, t: Keepers.Kept, records: seq<PendingRecord>) {
    || (t.posits == k.posits && exists added: seq<Role> :: records == RoleBatch(added) && t.roles == k.roles + RoleMap(added))
    || (t.roles == k.roles && exists added: seq<Posit> :: records == PositBatch(added) && t.posits == k.posits + PositMap(added))
  }

  /** Nothing is logged and nothing changes, or one batch is logged for what is added. */
  ghost predicate Continued(k: Keepers.Kept, t: Keepers.Kept, log: Option<seq<seq<PendingRecord>>>, longer: Option<seq<seq<PendingRecord>>>) {
    (longer == log && SameConstructs(k, t)) || exists batch :: Adds(k, t, batch) && longer == Appended(log, batch)
  }

  lemma RoleMapAdds(k: map<Thing, Role>, t: map<Thing, Role>, added: seq<Role>)
    requires IdsAdded(k, t, added)
    ensures t == k + RoleMap(added)
  {
    RoleMapHolds(added);
    hide RoleMap;
  }

  lemma RolesAdd(k: Keepers.Kept, t: Keepers.Kept, added: seq<Role>)
    requires RolesAdded(k, t, added)
    ensures Adds(k, t, RoleBatch(added)) && t.posits == k.posits
  {
    hide RoleMap;
    hide RoleBatch;
    hide Keepers.Sound;
    hide NamesAdded;
    RoleMapAdds(k.roles, t.roles, added);
    hide IdsAdded;
  }

  lemma PositsAdd(k: Keepers.Kept, t: Keepers.Kept, added: seq<Posit>)
    requires PositsKept(k, t, added)
    ensures Adds(k, t, PositBatch(added))
  {
    PositMapHolds(added);
    hide PositMap;
    hide PositBatch;
    assert t.posits == k.posits + PositMap(added);
  }

  /** Every command takes a step, whether it succeeds, is refused or finds the store failing. */
  method Execute(db: Database, c: Command, durable: bool)
    requires db.Valid() && Askable(db, c)
    modifies db, db.generator
    ensures db.Valid() && Step(old(db.State()), db.State())
    ensures Continued(old(db.State()), db.State(), old(db.Logged()), db.Logged())
  {
    hide Stable;
    hide InOrder;
    hide Keepers.Sound;
    hide Ready;
    hide ReadyLiteral;
    hide ThingsWithin;
    hide PositorsWithin;
    hide RolesAdded;
    hide RolesAnswered;
    hide RolesRefused;
    hide PositsAnswered;
    hide PositsKept;
    hide Asked;
    hide SomeUnknown;
    hide SomeNewTarget;
    hide SomeNewAssertion;
    hide AllYounger;
    hide Adds;
    hide RoleBatch;
    hide PositBatch;
    ghost var k := db.State();
    match c {
      case AddRoles(requests) =>
        var created, added := db.CreateRoles(requests, durable);
        if created.Ok? {
          RolesAdd(k, db.State(), added);
        }
      case AddPosits(targets, assertions) =>
        var created, added := db.CreateLiteralPositsWithAssertions(targets, assertions, durable);
        if created.Err? {
          SideKeepsConstructs(k, db.State());
        } else {
          PositsAdd(k, db.State(), added);
        }
    }
    OrderParts(db.State(), db.generator.lowerBound, db.Logged(), db.normal, db.parse);
  }

  lemma SideKeepsConstructs(k: Keepers.Kept, t: Keepers.Kept)
    requires PositSideUnchanged(k, t)
    ensures SameConstructs(k, t)
  {
  }

  /** A restart takes a step too. */
  method Restarted(db: Database, durable: bool) returns (again: Database)
    requires db.Valid() && db.persistent && AllPersistable(db.State()) && PlainNames(db.normal)
    ensures again.Valid() && Step(db.State(), again.State())
  {
    hide Stable;
    hide InOrder;
    hide Keepers.Sound;
    hide AllPersistable;
    hide PlainNames;
    again := Reopen(db, durable);
    OrderParts(again.State(), again.generator.lowerBound, again.Logged(), again.normal, again.parse);
  }

  // ------------------------------------------------------------------ and whole runs

  ghost predicate Descended(k: Keepers.Kept) {
    forall id :: id in k.posits ==> Younger(k.posits[id])
  }

  lemma StepDescends(k: Keepers.Kept, t: Keepers.Kept)
    requires Step(k, t) && Descended(k)
    ensures Descended(t)
  {
    hide Younger;
    hide Keepers.Sound;
    if t.posits != k.posits {
      var added: seq<Posit> :| PositsKept(k, t, added) && AllYounger(added);
      forall id | id in t.posits ensures Younger(t.posits[id]) {
        if id !in k.posits {
          var p :| p in added && p.id == id;
        }
      }
    }
  }

  lemma {:induction false} LifeDescends(states: seq<Keepers.Kept>)
    requires Lives(states)
    ensures forall i :: 0 <= i < |states| ==> Descended(states[i])
  {
    hide Step;
    hide Keepers.Sound;
    if |states| > 1 {
      var before := states[..|states| - 1];
      assert Lives(before) by {
        assert before[0] == states[0];
        forall i | 0 <= i < |before| - 1 ensures StepAt(before, i) {
          assert StepAt(states, i);
        }
      }
      LifeDescends(before);
      assert Descended(before[|before| - 1]);
      assert StepAt(states, |states| - 2);
      StepDescends(states[|states| - 2], states[|states| - 1]);
    }
  }

  lemma {:induction false} LifeIsSound(states: seq<Keepers.Kept>, i: nat)
    requires Lives(states) && i < |states|
    ensures Keepers.Sound(states[i])
  {
    hide Keepers.Sound;
    if i > 0 {
      assert StepAt(states, i - 1);
    }
  }

  lemma ViewIsClosed(k: Keepers.Kept)
    requires Keepers.Sound(k)
    ensures Closed(Keepers.View(k)) && Keepers.View(k).posits == k.posits
  {
  }

  /** Throughout a run of commands over existing Things, all orders of all branches agree. */
  lemma CommandedDatabasesAgree(states: seq<Keepers.Kept>, i: nat)
    requires Lives(states) && i < |states|
    ensures var s := Keepers.View(states[i]);
            OrdersAgree(s) && forall p, own :: SelfReference.Askable(p, own) ==> JoinsAlone(s, p, own)
  {
    hide Keepers.Sound;
    hide JoinsAlone;
    hide OrdersAgree;
    hide Lives;
    hide Keepers.View;
    LifeDescends(states);
    LifeIsSound(states, i);
    ViewIsClosed(states[i]);
    hide Closed;
    YoungerIsUncontested(Keepers.View(states[i]));
    EveryPatternJoins(Keepers.View(states[i]));
    EveryOrderAgrees(Keepers.View(states[i]));
  }
}
