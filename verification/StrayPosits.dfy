/**
 The inputs on which bitmap access fails and a full scan does not: the scan finds nothing
 there, so the failure never hides a row.
 */
module StrayPosits {
  import opened Prelude
  import opened Times
  import opened Constructs
  import opened Bindings
  import opened Matching
  import opened Patterns
  import opened JoinOrder
  import opened LatestPatterns
  import opened IndexAccess
  import opened Evaluation

  lemma StraySelectsNothing(s: Snapshot, ctx: Context, p: PositPattern, cut: Option<Time>, b: Binding)
    requires Closed(s) && p.posit.Some? && p.posit.value in b && b[p.posit.value].Identity?() && b[p.posit.value].id !in s.posits
    ensures SelectedRows(ctx, p, AllPosits(s), cut, b) == []
  {
    hide SelectedRows;
    hide OnPosit;
    hide DistinctIds;
    var rows := SelectedRows(ctx, p, AllPosits(s), cut, b);
    if rows != [] {
      var q := rows[0].posit;
      SelectedFrom(ctx, p, AllPosits(s), cut, b, rows[0]);
      PositConstrains(ctx, p, b, q, p.posit.value);
      AllPositsDistinct(s);
    }
  }

  /** Where bitmap access meets a stray posit variable, the pattern has no rows. */
  lemma StrayFindsNothing(s: Snapshot, p: PositPattern, input: Binding)
    requires Closed(s) && p.effect.None? && StrayPosit(s, p, StructuralInput(p, input))
    ensures Relation(s, p, input) == []
  {
    hide SelectedRows;
    hide Closed;
    var b := StructuralInput(p, input);
    StrayMeans(s, p, b);
    hide StrayPosit;
    hide OnlyPositBound;
    var ctx := Context(s.roleNames, input);
    StraySelectsNothing(s, ctx, p, None, b);
    if p.cutoff.Some? && ResolvedCutoff(p.cutoff.value, input).Ok? {
      StraySelectsNothing(s, ctx, p, Some(ResolvedCutoff(p.cutoff.value, input).value), b);
    }
  }

  /** Any posit whose identity is already bound. */
  function BoundPosit(name: string): PositPattern {
    PositPattern(Some(name), SetPattern(None, [], false, true), AnyValue, AnyTime, None, false, None)
  }

  /** Recalling as a posit any Thing that is none is such an input. */
  lemma RecalledThingIsStray(s: Snapshot, name: string, thing: Thing)
    requires Closed(s) && thing !in s.posits
    ensures StrayPosit(s, BoundPosit(name), map[name := ThingValue(thing)])
    ensures Relation(s, BoundPosit(name), map[name := ThingValue(thing)]) == []
  {
    var (p, input) := (BoundPosit(name), map[name := ThingValue(thing)]);
    assert StructuralInput(p, input) == input;
    assert StrayPosit(s, p, input);
    StrayFindsNothing(s, p, input);
  }
}
