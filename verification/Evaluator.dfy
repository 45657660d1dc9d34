/**
 Evaluating a pattern and a branch.  The loops thread partial rows through matching,
 cutoff, reduction, fields and the final join with the input.
 */
module Evaluator {
  import opened Prelude
  import opened Sequences
  import opened Times
  import opened Constructs
  import opened Temporal
  import opened Effect
  import opened Bindings
  import opened Matching
  import opened Patterns
  import opened JoinOrder
  import opened LatestPatterns
  import opened IndexAccess
  import opened Evaluation
  import opened Branches
  import opened Families
  import Answers

  const MAX_ASSERTION_CANDIDATES := 1_000_000
  const MAX_TEMPORAL_COMPARISONS := 20_000_000

  // ---------------------------------------------------------------- typed rows

  lemma ContributionTyped(ctx: Context, member: Member, a: Appearance, domains: map<string, Domain>)
    requires TypedMember(member, domains)
    ensures Contribution(ctx, member, a).Some? ==> Typed(Contribution(ctx, member, a).value, domains)
  {
  }

  lemma {:induction false} InducedTyped(ctx: Context, members: seq<Member>, stored: AppearanceSet, index: nat, chosen: seq<nat>, row: Binding, domains: map<string, Domain>)
    requires index <= |members| && |chosen| == |members| - index && forall k :: 0 <= k < |chosen| ==> chosen[k] < |stored|
    requires Induced(ctx, members, stored, index, chosen) == Some(row)
    requires forall m :: m in members ==> TypedMember(m, domains)
    ensures Typed(row, domains)
    decreases |chosen|
  {
    hide Merge;
    hide Contribution;
    hide TypedMember;
    if chosen != [] {
      assert members[index] in members;
      var own := Contribution(ctx, members[index], stored[chosen[0]]).value;
      var rest := Induced(ctx, members, stored, index + 1, chosen[1..]).value;
      InducedTyped(ctx, members, stored, index + 1, chosen[1..], rest, domains);
      ContributionTyped(ctx, members[index], stored[chosen[0]], domains);
      MergeTyped(own, rest, domains);
    }
  }

  lemma OwnMatchTyped(ctx: Context, pattern: SetPattern, stored: AppearanceSet, row: Binding, domains: map<string, Domain>)
    requires TypedPattern(pattern, domains) && row in OwnMatches(ctx, pattern, stored)
    ensures Typed(row, domains)
  {
    hide Matches;
    hide Merge;
    hide TypedMember;
    var own := SetBinding(pattern, stored);
    assert Typed(own, domains);
    if !pattern.any {
      var rows := VisitedRows(ctx, pattern.members, stored);
      ExtendMembers(own, rows, row);
      var m :| m in rows && Merge(own, m) == Some(row);
      DistinctMembers(Matches(ctx, pattern.members, stored, 0, {}));
      var chosen := MatchIsInduced(ctx, pattern.members, stored, 0, {}, m);
      InducedTyped(ctx, pattern.members, stored, 0, chosen, m, domains);
      MergeTyped(own, m, domains);
    }
  }

  ghost predicate AllTyped(rows: seq<Binding>, domains: map<string, Domain>) {
    forall row :: row in rows ==> Typed(row, domains)
  }

  lemma AllMatchesTyped(ctx: Context, pattern: SetPattern, stored: AppearanceSet, input: Binding, domains: map<string, Domain>)
    requires TypedPattern(pattern, domains) && Typed(input, domains)
    ensures AllTyped(Extend(input, OwnMatches(ctx, pattern, stored)), domains)
  {
    hide OwnMatches;
    hide Merge;
    hide FlatMap;
    forall x | x in Extend(input, OwnMatches(ctx, pattern, stored)) ensures Typed(x, domains) {
      ExtendMembers(input, OwnMatches(ctx, pattern, stored), x);
      var row :| row in OwnMatches(ctx, pattern, stored) && Merge(input, row) == Some(x);
      OwnMatchTyped(ctx, pattern, stored, row, domains);
      MergeTyped(input, row, domains);
    }
  }

  // --------------------------------------------------------------- one posit

  ghost predicate AllCarry(rows: seq<Row>) {
    forall row :: row in rows ==> Carries(row)
  }

  ghost predicate RowsTyped(rows: seq<Row>, domains: map<string, Domain>) {
    forall row :: row in rows ==> Typed(row.binding, domains)
  }

  /** A binding under given families. */
  function Dressed(o: Option<Binding>, families: FamilyMap): Option<Row> {
    if o.None? then None else Some(Row(o.value, families))
  }

  /** The pattern's value literal, if any, can be compared with the posit's value. */
  predicate Comparable(p: PositPattern, q: Posit) {
    p.value.ValueLiteral? ==> Nominal(q.value, p.value.literal).Ok?
  }

  /** Binds one optional name. */
  method BindOptional(row: Row, ghost own: Option<Binding>, name: string, value: Value, ghost domains: map<string, Domain>)
    returns (bound: Result<Option<Row>, QueryError>)
    requires Carries(row) && value.Proper() && own == Some(map[name := value.Compared()])
    ensures bound.Ok? ==> bound.value == Dressed(Join(Some(row.binding), own), Named(name, value) + row.families)
    ensures bound.Ok? && bound.value.Some? ==> Carries(bound.value.value)
    ensures Typed(row.binding, domains) && name in domains && Fits(value.Compared(), domains[name]) ==> bound.Ok?
  {
    hide Merge;
    hide Carries;
    if Typed(row.binding, domains) && name in domains && Fits(value.Compared(), domains[name]) {
      BindTyped(row.binding, name, value.Compared(), domains);
    }
    bound := Bind(row, name, value);
  }

  lemma FieldTyped(p: PositPattern, q: Posit, domains: map<string, Domain>)
    requires TypedPosit(p, domains)
    ensures PositBinding(p.posit, q.id).Some? ==> Typed(PositBinding(p.posit, q.id).value, domains)
    ensures ValueBinding(p.value, q.value).Some? ==> Typed(ValueBinding(p.value, q.value).value, domains)
    ensures TimeBinding(p.time, q.time).Some? ==> Typed(TimeBinding(p.time, q.time).value, domains)
  {
  }

  lemma JoinTyped(a: Option<Binding>, b: Option<Binding>, domains: map<string, Domain>)
    requires a.Some? ==> Typed(a.value, domains)
    requires b.Some? ==> Typed(b.value, domains)
    ensures Join(a, b).Some? ==> Typed(Join(a, b).value, domains)
  {
    if a.Some? && b.Some? {
      MergeTyped(a.value, b.value, domains);
    }
  }

  lemma FieldsTyped(p: PositPattern, q: Posit, input: Binding, domains: map<string, Domain>)
    ensures TypedPosit(p, domains) && Typed(input, domains) ==>
              var (posit, value, time) := (PositBinding(p.posit, q.id), ValueBinding(p.value, q.value), TimeBinding(p.time, q.time));
              && (Join(Some(input), posit).Some? ==> Typed(Join(Some(input), posit).value, domains))
              && (Join(Join(Some(input), posit), value).Some? ==> Typed(Join(Join(Some(input), posit), value).value, domains))
              && (Join(Join(Join(Some(input), posit), value), time).Some? ==> Typed(Join(Join(Join(Some(input), posit), value), time).value, domains))
  {
    if TypedPosit(p, domains) && Typed(input, domains) {
      var (posit, value, time) := (PositBinding(p.posit, q.id), ValueBinding(p.value, q.value), TimeBinding(p.time, q.time));
      FieldTyped(p, q, domains);
      hide TypedPosit;
      hide PositBinding;
      hide ValueBinding;
      hide TimeBinding;
      hide Merge;
      JoinTyped(Some(input), posit, domains);
      JoinTyped(Join(Some(input), posit), value, domains);
      JoinTyped(Join(Join(Some(input), posit), value), time, domains);
    }
  }

  lemma NothingNamed(families: FamilyMap, name: string, bound: BoundValue)
    ensures Named(name, Bare(bound)) + families == families && map[] + families == families
  {
  }

  /** The value slot of a pattern: nothing, a variable, or a literal to compare with. */
  method MatchValueSlot(slot: ValueSlot, value: Literal, row: Row, ghost domains: map<string, Domain>) returns (matched: Result<Option<Row>, QueryError>)
    requires Carries(row)
    ensures matched.Ok? ==> matched.value == Dressed(Join(Some(row.binding), ValueBinding(slot, value)), SlotFamilies(slot, value) + row.families)
    ensures matched.Ok? && matched.value.Some? ==> Carries(matched.value.value)
    ensures (&& Typed(row.binding, domains) && (slot.ValueVariable? ==> slot.name in domains && domains[slot.name] == LiteralDomain)
             && (slot.ValueLiteral? ==> Nominal(value, slot.literal).Ok?)) ==> matched.Ok?
  {
    hide Merge;
    hide Carries;
    hide Typed;
    MergeEmpty(row.binding);
    assert map[] + row.families == row.families;
    match slot {
      case AnyValue =>
        return Ok(Some(row));
      case ValueVariable(name) =>
        matched := BindOptional(row, ValueBinding(slot, value), name, Carrying(value.token, value.family), domains);
      case ValueLiteral(literal) =>
        var equal := Nominal(value, literal);
        if equal.Err? {
          return Err(equal.error);
        }
        return Ok(if equal.value then Some(row) else None);
    }
  }

  /** The time slot: nothing, a variable, or the very time. */
  method MatchTimeSlot(slot: TimeSlot, time: Time, row: Row, ghost domains: map<string, Domain>) returns (matched: Result<Option<Row>, QueryError>)
    requires Carries(row)
    ensures matched.Ok? ==> matched.value == Dressed(Join(Some(row.binding), TimeBinding(slot, time)), row.families)
    ensures matched.Ok? && matched.value.Some? ==> Carries(matched.value.value)
    ensures Typed(row.binding, domains) && (slot.TimeVariable? ==> slot.name in domains && domains[slot.name] == TimeDomain) ==> matched.Ok?
  {
    hide Merge;
    hide Carries;
    hide Typed;
    MergeEmpty(row.binding);
    match slot {
      case AnyTime =>
        return Ok(Some(row));
      case TimeVariable(name) =>
        NothingNamed(row.families, name, TimeValue(time));
        matched := BindOptional(row, TimeBinding(slot, time), name, Bare(TimeValue(time)), domains);
      case TimeLiteral(literal) =>
        return Ok(if time == literal then Some(row) else None);
    }
  }

  /** The posit, value and time slots: what they bind, with the posit's family unless one is there. */
  method MatchFields(p: PositPattern, q: Posit, input: Row, ghost domains: map<string, Domain>)
    returns (matched: Result<Option<Row>, QueryError>)
    requires Carries(input)
    ensures matched.Ok? ==> matched.value == Dressed(Join(Some(input.binding), FieldBinding(p, q)), AfterFields(input.families, p, q))
    ensures matched.Ok? && matched.value.Some? ==> Carries(matched.value.value)
    ensures Typed(input.binding, domains) && TypedPosit(p, domains) && Comparable(p, q) ==> matched.Ok?
    ensures Typed(input.binding, domains) && TypedPosit(p, domains) && matched.Ok? && matched.value.Some? ==>
              Typed(matched.value.value.binding, domains)
  {
    hide Merge;
    hide Carries;
    hide Named;
    ghost var (posit, value, time) := (PositBinding(p.posit, q.id), ValueBinding(p.value, q.value), TimeBinding(p.time, q.time));
    JoinAssociates(Some(input.binding), Join(posit, value), time);
    JoinAssociates(Some(input.binding), posit, value);
    FieldsTyped(p, q, input.binding, domains);
    hide Typed;
    hide ValueBinding;
    hide TimeBinding;
    hide SlotFamilies;
    var row := input;
    MergeEmpty(row.binding);
    if p.posit.Some? {
      NothingNamed(row.families, p.posit.value, PositValue(q.id));
      var bound := BindOptional(row, posit, p.posit.value, Bare(PositValue(q.id)), domains);
      if bound.Err? || bound.value.None? {
        return bound;
      }
      row := bound.value.value;
    }
    var valued := MatchValueSlot(p.value, q.value, row, domains);
    if valued.Err? || valued.value.None? {
      return valued;
    }
    matched := MatchTimeSlot(p.time, q.time, valued.value.value, domains);
  }

  // ------------------------------------------------------------------- the scan

  ghost predicate MatchesCarry(rows: seq<CarriedMatch>) {
    forall c :: c in rows ==> Carries(c.row)
  }

  ghost predicate MatchesTyped(rows: seq<CarriedMatch>, domains: map<string, Domain>) {
    forall c :: c in rows ==> Typed(c.row.binding, domains)
  }

  lemma HoldOneMore(q: Posit, bindings: seq<Binding>, x: Binding, families: FamilyMap)
    ensures FlatMap(Tag(q, bindings + [x]), Holding(families)) == FlatMap(Tag(q, bindings), Holding(families)) + [CarriedMatch(q, Row(x, families))]
  {
    FlatMapSnoc(bindings, x, Tagging(q));
    FlatMapSnoc(Tag(q, bindings), StructuralMatch(q, x), Holding(families));
  }

  lemma HoldNothing(q: Posit, families: FamilyMap)
    ensures FlatMap(Tag(q, []), Holding(families)) == []
  {
  }

  /** Matches of one posit under given families. */
  method HoldAll(q: Posit, bindings: seq<Binding>, families: FamilyMap) returns (held: seq<CarriedMatch>)
    ensures held == FlatMap(Tag(q, bindings), Holding(families))
    ensures forall c :: c in held ==> c.row.binding in bindings && c.row.families == families
  {
    HoldNothing(q, families);
    hide FlatMap;
    hide Tag;
    held := [];
    for i := 0 to |bindings|
      invariant held == FlatMap(Tag(q, bindings[..i]), Holding(families))
      invariant forall c :: c in held ==> c.row.binding in bindings && c.row.families == families
    {
      assert bindings[..i + 1] == bindings[..i] + [bindings[i]] && bindings[i] in bindings;
      HoldOneMore(q, bindings[..i], bindings[i], families);
      held := held + [CarriedMatch(q, Row(bindings[i], families))];
    }
    assert bindings[..|bindings|] == bindings;
  }

  lemma ScannedCarry(ctx: Context, p: PositPattern, q: Posit, own: Row, bindings: seq<Binding>, held: seq<CarriedMatch>)
    requires WellFormed(p.appearances) && Carries(own) && bindings == Extend(own.binding, OwnMatches(ctx, p.appearances, q.appearances))
    requires forall c :: c in held ==> c.row.binding in bindings && c.row.families == own.families
    ensures MatchesCarry(held)
  {
    hide OwnMatches;
    hide Extend;
    hide Carries;
    hide WellFormed;
    forall c | c in held ensures Carries(c.row) {
      MatchCarries(ctx, p.appearances, q.appearances, own, c.row.binding);
    }
  }

  /** The structural matches of one posit that extend the input; families stay as they are. */
  method ScanPosit(ctx: Context, p: PositPattern, q: Posit, own: Row, ghost domains: map<string, Domain>)
    returns (scanned: Result<seq<CarriedMatch>, QueryError>)
    requires WellFormed(p.appearances) && Carries(own) && Recallable(p.appearances.members, ctx.recalled, own.binding)
    ensures scanned.Ok? ==> scanned.value == FlatMap(Structural(ctx, p, own.binding)(q), Holding(own.families)) && MatchesCarry(scanned.value)
    ensures Typed(own.binding, domains) && TypedPattern(p.appearances, domains) ==> scanned.Ok? && MatchesTyped(scanned.value, domains)
  {
    hide OwnMatches;
    hide Extend;
    hide FlatMap;
    hide Tag;
    hide Recallable;
    hide Typed;
    hide TypedPattern;
    hide WellFormed;
    hide Carries;
    var matched := MatchAppearanceSet(ctx, p.appearances, q.appearances, own.binding, domains);
    if matched.Err? {
      return Err(matched.error);
    }
    if Typed(own.binding, domains) && TypedPattern(p.appearances, domains) {
      AllMatchesTyped(ctx, p.appearances, q.appearances, own.binding, domains);
    }
    var held := HoldAll(q, matched.value, own.families);
    ScannedCarry(ctx, p, q, own, matched.value, held);
    return Ok(held);
  }

  /** What a scan holds: the matches of the posits that are over by the cut. */
  lemma HeldMeans(ctx: Context, p: PositPattern, posits: seq<Posit>, cut: Option<Time>, own: Row, c: CarriedMatch)
    ensures c in FlatMap(StructuralRows(ctx, p, posits, cut, own.binding), Holding(own.families)) <==>
            && c.posit in posits && (cut.Some? ==> OverBy(c.posit.time, cut.value))
            && c.row.families == own.families && c.row.binding in Extend(own.binding, OwnMatches(ctx, p.appearances, c.posit.appearances))
  {
    hide StructuralRows;
    hide OwnMatches;
    hide Extend;
    hide FlatMap;
    hide OverBy;
    var (rows, m) := (StructuralRows(ctx, p, posits, cut, own.binding), StructuralMatch(c.posit, c.row.binding));
    FlatMapMembers(rows, Holding(own.families), c);
    Answers.StructuralMeans(ctx, p, posits, cut, own.binding, m);
    if c.row.families == own.families && m in rows {
      assert c in Holding(own.families)(m);
    }
  }

  /** Exactly the matches of the posits that are over by the cut, under the families the input has. */
  ghost predicate HoldsMatches(ctx: Context, p: PositPattern, posits: seq<Posit>, cut: Option<Time>, own: Row, rows: seq<CarriedMatch>) {
    forall c :: c in rows <==>
                  && c.posit in posits && (cut.Some? ==> OverBy(c.posit.time, cut.value))
                  && c.row.families == own.families && c.row.binding in Extend(own.binding, OwnMatches(ctx, p.appearances, c.posit.appearances))
  }

  lemma ScanHolds(ctx: Context, p: PositPattern, posits: seq<Posit>, cut: Option<Time>, own: Row, rows: seq<CarriedMatch>)
    requires rows == FlatMap(StructuralRows(ctx, p, posits, cut, own.binding), Holding(own.families))
    ensures HoldsMatches(ctx, p, posits, cut, own, rows)
  {
    forall c ensures c in rows <==>
                       && c.posit in posits && (cut.Some? ==> OverBy(c.posit.time, cut.value))
                       && c.row.families == own.families && c.row.binding in Extend(own.binding, OwnMatches(ctx, p.appearances, c.posit.appearances))
    {
      HeldMeans(ctx, p, posits, cut, own, c);
    }
  }

  lemma NothingHeld(ctx: Context, p: PositPattern, posits: seq<Posit>, cut: Option<Time>, own: Row)
    ensures FlatMap(StructuralRows(ctx, p, posits[..0], cut, own.binding), Holding(own.families)) == []
  {
    assert posits[..0] == [];
  }

  /** One more posit: its matches, if the cut lets it in. */
  lemma HeldStep(ctx: Context, p: PositPattern, posits: seq<Posit>, cut: Option<Time>, own: Row, i: nat)
    requires i < |posits|
    ensures FlatMap(StructuralRows(ctx, p, posits[..i + 1], cut, own.binding), Holding(own.families))
            == FlatMap(StructuralRows(ctx, p, posits[..i], cut, own.binding), Holding(own.families))
               + if cut.Some? && !DefinitelyAtOrBefore(posits[i].time, cut.value) then []
                 else FlatMap(Structural(ctx, p, own.binding)(posits[i]), Holding(own.families))
  {
    hide FlatMap;
    hide Keep;
    hide Structural;
    hide DefinitelyAtOrBefore;
    var q := posits[i];
    assert posits[..i + 1] == posits[..i] + [q];
    KeepSnoc(posits[..i], q, Within(cut));
    FlatMapSnoc(Keep(posits[..i], Within(cut)), q, Structural(ctx, p, own.binding));
    FlatMapConcat(StructuralRows(ctx, p, posits[..i], cut, own.binding), Structural(ctx, p, own.binding)(q), Holding(own.families));
  }

  /** Eligible posits, each with the structural matches that extend the input. */
  method StructuralScan(ctx: Context, p: PositPattern, posits: seq<Posit>, cut: Option<Time>, own: Row, ghost domains: map<string, Domain>)
    returns (scanned: Result<seq<CarriedMatch>, QueryError>)
    requires WellFormed(p.appearances) && Carries(own) && Recallable(p.appearances.members, ctx.recalled, own.binding)
    ensures scanned.Ok? ==>
              && scanned.value == FlatMap(StructuralRows(ctx, p, posits, cut, own.binding), Holding(own.families))
              && MatchesCarry(scanned.value) && HoldsMatches(ctx, p, posits, cut, own, scanned.value)
    ensures Typed(own.binding, domains) && TypedPattern(p.appearances, domains) ==> scanned.Ok? && MatchesTyped(scanned.value, domains)
  {
    hide Recallable;
    hide Typed;
    hide TypedPattern;
    hide WellFormed;
    hide Carries;
    hide Tag;
    hide Extend;
    hide FlatMap;
    hide HoldsMatches;
    hide StructuralRows;
    hide Structural;
    var out := [];
    NothingHeld(ctx, p, posits, cut, own);
    for i := 0 to |posits|
      invariant out == FlatMap(StructuralRows(ctx, p, posits[..i], cut, own.binding), Holding(own.families)) && MatchesCarry(out)
      invariant Typed(own.binding, domains) && TypedPattern(p.appearances, domains) ==> MatchesTyped(out, domains)
    {
      var q := posits[i];
      HeldStep(ctx, p, posits, cut, own, i);
      if cut.Some? && !DefinitelyAtOrBefore(q.time, cut.value) {
        continue;
      }
      var more := ScanPosit(ctx, p, q, own, domains);
      if more.Err? {
        return Err(more.error);
      }
      out := out + more.value;
    }
    assert posits[..|posits|] == posits;
    ScanHolds(ctx, p, posits, cut, own, out);
    return Ok(out);
  }

  /** Fields applied to every candidate. */
  method FieldScan(p: PositPattern, rows: seq<CarriedMatch>, ghost domains: map<string, Domain>)
    returns (scanned: Result<seq<CarriedMatch>, QueryError>)
    requires MatchesCarry(rows)
    ensures scanned.Ok? ==> scanned.value == FlatMap(rows, FieldingCarried(p)) && MatchesCarry(scanned.value)
    ensures MatchesTyped(rows, domains) && TypedPosit(p, domains) && (forall c :: c in rows ==> Comparable(p, c.posit)) ==>
              scanned.Ok? && MatchesTyped(scanned.value, domains)
  {
    hide FieldBinding;
    hide Merge;
    hide Typed;
    hide TypedPosit;
    hide Comparable;
    hide AfterFields;
    hide Carries;
    var kept := [];
    for i := 0 to |rows|
      invariant kept == FlatMap(rows[..i], FieldingCarried(p)) && MatchesCarry(kept)
      invariant MatchesTyped(rows, domains) && TypedPosit(p, domains) ==> MatchesTyped(kept, domains)
    {
      assert rows[..i + 1] == rows[..i] + [rows[i]] && rows[i] in rows;
      FlatMapSnoc(rows[..i], rows[i], FieldingCarried(p));
      var matched := MatchFields(p, rows[i].posit, rows[i].row, domains);
      if matched.Err? {
        return Err(matched.error);
      }
      if matched.value.Some? {
        kept := kept + [CarriedMatch(rows[i].posit, matched.value.value)];
      }
    }
    assert rows[..|rows|] == rows;
    return Ok(kept);
  }

  /** One temporal snapshot a set, with a callback that never refuses. */
  method ReduceMatches(rows: seq<CarriedMatch>) returns (reduced: seq<CarriedMatch>)
    ensures reduced == Maximal(rows, CarriedSet, CarriedTime)
    ensures forall c :: c in reduced ==> c in rows
  {
    var meter := new Meter(4 * |rows|, None);
    var retained := RetainMaximalByKey(rows, CarriedSet, CarriedTime, meter);
    reduced := retained.value;
    MaximalKeeps(rows, CarriedSet, CarriedTime);
    forall c | c in reduced ensures c in rows {
      KeepMembers(rows, Undominated(rows, CarriedSet, CarriedTime), c);
    }
  }

  function Valued(row: Row, name: string): (value: Value)
    requires Carries(row) && name in row.binding
    ensures value.Proper() && value.Compared() == row.binding[name]
    ensures Named(name, value) == if name in row.families then map[name := row.families[name]] else map[]
  {
    if name in row.families then Carrying(row.binding[name].token, row.families[name]) else Bare(row.binding[name])
  }

  lemma WithoutAllOrNothing(input: Binding)
    ensures Without(input, input.Keys) == map[] && Without(input, {}) == input
  {
  }

  lemma WithoutOneMore(input: Binding, done: set<string>, name: string)
    requires name in input && name !in done && done <= input.Keys
    ensures Merge(Without(input, input.Keys - done), map[name := input[name]]) == Some(Without(input, input.Keys - (done + {name})))
  {
    assert Merged(Without(input, input.Keys - done), map[name := input[name]]) == Without(input, input.Keys - (done + {name}));
  }

  lemma MergeOneMore(row: Binding, input: Binding, done: set<string>, name: string)
    requires name in input && name !in done && done <= input.Keys
    ensures Join(Merge(row, Without(input, input.Keys - done)), Some(map[name := input[name]]))
            == Merge(row, Without(input, input.Keys - (done + {name})))
  {
    var (some, one) := (Without(input, input.Keys - done), map[name := input[name]]);
    JoinAssociates(Some(row), Some(some), Some(one));
    WithoutOneMore(input, done, name);
    hide Without;
    hide Merge;
  }

  lemma FamiliesOneMore(families: FamilyMap, input: Row, left: set<string>, name: string)
    requires Carries(input) && name in input.binding && name in left
    ensures Named(name, Valued(input, name)) + ((input.families - left) + families) == (input.families - (left - {name})) + families
  {
    var (f, g) := (Named(name, Valued(input, name)) + ((input.families - left) + families), (input.families - (left - {name})) + families);
    assert f.Keys == g.Keys;
    assert forall n :: n in f ==> f[n] == g[n];
  }

  /** Rebinds every input variable on a row; a mismatch drops the row, and the row's own families stay. */
  method JoinInput(row: Row, input: Row, ghost domains: map<string, Domain>)
    returns (joined: Result<Option<Row>, QueryError>)
    requires Carries(row) && Carries(input)
    ensures joined.Ok? ==> joined.value == Dressed(Merge(input.binding, row.binding), input.families + row.families)
    ensures joined.Ok? && joined.value.Some? ==> Carries(joined.value.value)
    ensures Typed(row.binding, domains) && Typed(input.binding, domains) ==> joined.Ok?
  {
    hide Carries;
    hide Named;
    hide Merge;
    hide Without;
    var out := row;
    var left := input.binding.Keys;
    MergeEmpty(row.binding);
    WithoutAllOrNothing(input.binding);
    NoFamiliesLeft(row, input);
    while left != {}
      invariant left <= input.binding.Keys && Carries(out)
      invariant Merge(row.binding, Without(input.binding, left)) == Some(out.binding)
      invariant out.families == (input.families - left) + row.families
      invariant Typed(row.binding, domains) && Typed(input.binding, domains) ==> Typed(out.binding, domains)
    {
      var name :| name in left;
      ghost var done := input.binding.Keys - left;
      MergeOneMore(row.binding, input.binding, done, name);
      assert input.binding.Keys - done == left && input.binding.Keys - (done + {name}) == left - {name};
      FamiliesOneMore(row.families, input, left, name);
      if Typed(out.binding, domains) && Typed(input.binding, domains) {
        BindTyped(out.binding, name, input.binding[name], domains);
      }
      var bound := Bind(out, name, Valued(input, name));
      if bound.Err? {
        return Err(bound.error);
      }
      if bound.value.None? {
        NotJoinable(row.binding, input.binding, left - {name});
        return Ok(None);
      }
      out := bound.value.value;
      left := left - {name};
    }
    assert input.families - {} == input.families;
    MergeCommutes(row.binding, input.binding);
    return Ok(Some(out));
  }

  lemma NoFamiliesLeft(row: Row, input: Row)
    requires Carries(input)
    ensures (input.families - input.binding.Keys) + row.families == row.families
  {
  }

  lemma NotJoinable(row: Binding, input: Binding, left: set<string>)
    requires Merge(row, Without(input, left)).None?
    ensures Merge(input, row).None?
  {
    MergeCommutes(input, row);
    if Merge(row, input).Some? {
      assert Joinable(row, Without(input, left));
    }
  }

  lemma MergeTypedIf(a: Binding, b: Binding, domains: map<string, Domain>)
    ensures Typed(a, domains) && Typed(b, domains) && Merge(a, b).Some? ==> Typed(Merge(a, b).value, domains)
  {
    if Typed(a, domains) && Typed(b, domains) {
      MergeTyped(a, b, domains);
    }
  }

  /** The final join with the input. */
  method JoinScan(rows: seq<CarriedMatch>, input: Row, ghost domains: map<string, Domain>)
    returns (joined: Result<seq<Row>, QueryError>)
    requires MatchesCarry(rows) && Carries(input)
    ensures joined.Ok? ==> joined.value == FlatMap(rows, JoinedWith(input)) && AllCarry(joined.value)
    ensures MatchesTyped(rows, domains) && Typed(input.binding, domains) ==> joined.Ok? && RowsTyped(joined.value, domains)
  {
    hide Merge;
    hide Typed;
    hide Carries;
    var out := [];
    for i := 0 to |rows|
      invariant out == FlatMap(rows[..i], JoinedWith(input)) && AllCarry(out)
      invariant MatchesTyped(rows, domains) && Typed(input.binding, domains) ==> RowsTyped(out, domains)
    {
      MergeTypedIf(input.binding, rows[i].row.binding, domains);
      assert rows[..i + 1] == rows[..i] + [rows[i]] && rows[i] in rows;
      FlatMapSnoc(rows[..i], rows[i], JoinedWith(input));
      var row := JoinInput(rows[i].row, input, domains);
      if row.Err? {
        return Err(row.error);
      }
      if row.value.Some? {
        out := out + [row.value.value];
      }
    }
    assert rows[..|rows|] == rows;
    return Ok(out);
  }

  lemma RecallableInput(p: PositPattern, input: Binding, b: Binding)
    requires Dependencies(p) <= input.Keys && forall n :: n in Dependencies(p) ==> n in b && b[n] == input[n]
    ensures Recallable(p.appearances.members, input, b)
    ensures SameRecall(OneOfNames(p.appearances.members), b, input)
    ensures AllOneOfBound(p.appearances.members, b)
  {
    forall m | m in p.appearances.members ensures Agreeing(m.thing, input, b) && AllBound(m.thing, b) {
      if m.thing.OneOf? {
        forall i | 0 <= i < |m.thing.names| ensures m.thing.names[i] in OneOfNames(p.appearances.members) {
        }
      }
    }
  }

  lemma HoldingDresses(families: FamilyMap)
    ensures Dresses(Holding(families))
  {
  }

  lemma CarriedlyDresses(p: PositPattern, families: FamilyMap)
    ensures Dresses(Carriedly(p, families))
  {
    assert forall m :: Carriedly(p, families)(m) == [Carried(p, families)(m)];
  }

  /** The rows of a scan: candidates, structural matches, and the reduction before or after the fields. */
  method SelectRows(s: Snapshot, p: PositPattern, cut: Option<Time>, input: Binding, own: Row, access: Access, ghost domains: map<string, Domain>)
    returns (selected: Result<seq<CarriedMatch>, QueryError>)
    requires Indexed(s) && WellFormed(p.appearances) && (cut.Some? <==> p.cutoff.Some?) && Carries(own)
    requires Dependencies(p) <= input.Keys && forall n :: n in Dependencies(p) ==> n in own.binding && own.binding[n] == input[n]
    ensures selected.Ok? ==>
              && selected.value == FlatMap(SelectedRows(Context(s.roleNames, input), p, AllPosits(s), cut, own.binding), Carriedly(p, own.families))
              && MatchesCarry(selected.value)
    ensures access.Bitmap? && StrayPosit(s, p, own.binding) ==> selected.Err?
    ensures Typed(own.binding, domains) && TypedPosit(p, domains) && AllComparable(s, p) && !(access.Bitmap? && StrayPosit(s, p, own.binding)) ==>
              selected.Ok? && MatchesTyped(selected.value, domains)
  {
    hide Indexed;
    hide WellFormed;
    hide Recallable;
    hide Typed;
    hide TypedPosit;
    hide StrayPosit;
    hide Dependencies;
    hide Comparable;
    hide AllPosits;
    hide Carries;
    hide FieldingCarried;
    hide Carriedly;
    hide Holding;
    hide FieldRows;
    hide StructuralRows;
    hide Dresses;
    var ctx := Context(s.roleNames, input);
    RecallableInput(p, input, own.binding);
    TypedPositPattern(p, domains);
    var posits := CandidatePosits(s, p, own.binding, access, input, domains);
    if posits.Err? {
      return Err(posits.error);
    }
    var rows := StructuralScan(ctx, p, posits.value, cut, own, domains);
    if rows.Err? {
      return rows;
    }
    ghost var structural := StructuralRows(ctx, p, posits.value, cut, own.binding);
    RowsComparable(s, ctx, p, posits.value, cut, own.binding);
    HeldPosits(structural, own.families);
    HoldingDresses(own.families);
    CarriedlyDresses(p, own.families);
    ReducedDressed(structural, Holding(own.families));
    FieldsCarried(p, structural, own.families);
    FieldsCarried(p, Reduced(structural), own.families);
    ReducedDressed(FieldRows(p, structural), Carriedly(p, own.families));
    hide Reduced;
    var candidates := rows.value;
    if cut.Some? && !p.latest {
      candidates := ReduceMatches(candidates);
    }
    selected := FieldScan(p, candidates, domains);
    if selected.Ok? && cut.Some? && p.latest {
      var reduced := ReduceMatches(selected.value);
      selected := Ok(reduced);
    }
    assert selected.Ok? ==>
             selected.value == FlatMap(SelectedRows(ctx, p, posits.value, cut, own.binding), Carriedly(p, own.families));
  }

  lemma HeldPosits(rows: seq<StructuralMatch>, families: FamilyMap)
    ensures forall c :: c in FlatMap(rows, Holding(families)) ==> exists m :: m in rows && m.posit == c.posit
  {
    forall c | c in FlatMap(rows, Holding(families)) ensures exists m :: m in rows && m.posit == c.posit {
      FlatMapMembers(rows, Holding(families), c);
    }
  }

  lemma TypedPositPattern(p: PositPattern, domains: map<string, Domain>)
    ensures TypedPosit(p, domains) ==> TypedPattern(p.appearances, domains)
  {
  }

  ghost predicate AllComparable(s: Snapshot, p: PositPattern) {
    forall q :: q in AllPosits(s) ==> Comparable(p, q)
  }

  lemma RowsComparable(s: Snapshot, ctx: Context, p: PositPattern, posits: seq<Posit>, cut: Option<Time>, b: Binding)
    requires forall q :: q in posits ==> q in AllPosits(s)
    ensures AllComparable(s, p) ==> forall row :: row in StructuralRows(ctx, p, posits, cut, b) ==> Comparable(p, row.posit)
  {
    hide OwnMatches;
    hide Comparable;
    hide AllPosits;
    forall row | row in StructuralRows(ctx, p, posits, cut, b) ensures row.posit in posits {
      FlatMapMembers(Keep(posits, Within(cut)), Structural(ctx, p, b), row);
      var q :| q in Keep(posits, Within(cut)) && row in Structural(ctx, p, b)(q);
      TagBindings(q, Extend(b, OwnMatches(ctx, p.appearances, q.appearances)));
      KeepMembers(posits, Within(cut), q);
    }
  }

  // --------------------------------------------------------------- in-effect patterns

  /** Fields applied to the matches of one posit. */
  method FieldsOnPosit(p: PositPattern, q: Posit, bindings: seq<Binding>, families: FamilyMap, ghost domains: map<string, Domain>)
    returns (rows: Result<seq<Row>, QueryError>)
    requires forall x :: x in bindings ==> Carries(Row(x, families))
    ensures rows.Ok? ==>
              rows.value == FlatMap(ExtendOption(FieldBinding(p, q), bindings), Dressing(AfterFields(families, p, q))) && AllCarry(rows.value)
    ensures AllTyped(bindings, domains) && TypedPosit(p, domains) && Comparable(p, q) ==> rows.Ok? && RowsTyped(rows.value, domains)
  {
    hide FieldBinding;
    hide Merge;
    hide Typed;
    hide TypedPosit;
    hide Comparable;
    hide Carries;
    hide AfterFields;
    ghost var after := AfterFields(families, p, q);
    var out := [];
    FlatMapNothing(Dressing(after));
    for i := 0 to |bindings|
      invariant out == FlatMap(ExtendOption(FieldBinding(p, q), bindings[..i]), Dressing(after)) && AllCarry(out)
      invariant AllTyped(bindings, domains) && TypedPosit(p, domains) ==> RowsTyped(out, domains)
    {
      var x := bindings[i];
      assert bindings[..i + 1] == bindings[..i] + [x] && x in bindings;
      ExtendOptionSnoc(FieldBinding(p, q), bindings[..i], x);
      DressedSnoc(ExtendOption(FieldBinding(p, q), bindings[..i]), Join(Some(x), FieldBinding(p, q)), after);
      var field := MatchFields(p, q, Row(x, families), domains);
      if field.Err? {
        return Err(field.error);
      }
      if field.value.Some? {
        out := out + [field.value.value];
      }
    }
    assert bindings[..|bindings|] == bindings;
    return Ok(out);
  }

  /** The rows of one posit under a row: its matches, then its fields. */
  method EvaluateOnPosit(ctx: Context, p: PositPattern, q: Posit, input: Row, ghost domains: map<string, Domain>)
    returns (rows: Result<seq<Row>, QueryError>)
    requires WellFormed(p.appearances) && Carries(input) && Recallable(p.appearances.members, ctx.recalled, input.binding)
    ensures rows.Ok? ==>
              rows.value == FlatMap(OnPosit(ctx, p, q, input.binding), Dressing(AfterFields(input.families, p, q))) && AllCarry(rows.value)
    ensures Typed(input.binding, domains) && TypedPosit(p, domains) && Comparable(p, q) ==> rows.Ok? && RowsTyped(rows.value, domains)
  {
    TypedPositPattern(p, domains);
    hide OwnMatches;
    hide Extend;
    hide Recallable;
    hide FieldBinding;
    hide Typed;
    hide TypedPattern;
    hide TypedPosit;
    hide Comparable;
    hide WellFormed;
    hide Carries;
    hide AfterFields;
    var matched := MatchAppearanceSet(ctx, p.appearances, q.appearances, input.binding, domains);
    if matched.Err? {
      return Err(matched.error);
    }
    if Typed(input.binding, domains) && TypedPosit(p, domains) {
      AllMatchesTyped(ctx, p.appearances, q.appearances, input.binding, domains);
    }
    forall x | x in matched.value ensures Carries(Row(x, input.families)) {
      MatchCarries(ctx, p.appearances, q.appearances, input, x);
    }
    rows := FieldsOnPosit(p, q, matched.value, input.families, domains);
  }

  lemma DressedSnoc(bindings: seq<Binding>, o: Option<Binding>, families: FamilyMap)
    ensures FlatMap(bindings + Emit(o), Dressing(families))
            == FlatMap(bindings, Dressing(families)) + (if o.Some? then [Row(o.value, families)] else [])
  {
    if o.Some? {
      FlatMapSnoc(bindings, o.value, Dressing(families));
    } else {
      assert bindings + [] == bindings;
      assert FlatMap(bindings, Dressing(families)) + [] == FlatMap(bindings, Dressing(families));
    }
  }

  lemma ExtendOptionSnoc(o: Option<Binding>, rows: seq<Binding>, x: Binding)
    ensures ExtendOption(o, rows + [x]) == ExtendOption(o, rows) + Emit(Join(Some(x), o))
  {
    if o.Some? {
      FlatMapSnoc(rows, x, Extending(o.value));
      MergeCommutes(o.value, x);
    }
  }

  lemma RecallableVia(members: seq<Member>, recalled: Binding, b: Binding, row: Binding)
    requires Recallable(members, recalled, b) && forall n :: n in b ==> n in row && Compatible(row[n], b[n])
    ensures Recallable(members, recalled, row)
  {
    forall m | m in members ensures Agreeing(m.thing, recalled, row) && AllBound(m.thing, row) {
      assert Agreeing(m.thing, recalled, b) && AllBound(m.thing, b);
    }
  }

  predicate TypedEvidence(p: PositPattern, via: Option<PositPattern>, evidence: Evidence, domains: map<string, Domain>) {
    && TypedPosit(p, domains) && Comparable(p, evidence.target)
    && (via.Some? ==> TypedPosit(via.value, domains) && Comparable(via.value, evidence.assertion))
  }

  lemma {:induction false} DressedMembers(bindings: seq<Binding>, families: FamilyMap)
    ensures FlatMap(bindings, Dressing(families)) == seq(|bindings|, i requires 0 <= i < |bindings| => Row(bindings[i], families))
  {
    if bindings != [] {
      DressedMembers(bindings[..|bindings| - 1], families);
    }
  }

  /** The envelope of an assertion under every row its target left. */
  method EvaluateVia(ctx: Context, via: PositPattern, assertion: Posit, targets: seq<Row>, ghost bindings: seq<Binding>, ghost families: FamilyMap,
      ghost domains: map<string, Domain>)
    returns (rows: Result<seq<Row>, QueryError>)
    requires WellFormed(via.appearances) && AllCarry(targets) && targets == FlatMap(bindings, Dressing(families))
    requires forall b :: b in bindings ==> Recallable(via.appearances.members, ctx.recalled, b)
    ensures rows.Ok? ==>
              && rows.value == FlatMap(FlatMap(bindings, ViaRows(ctx, via, assertion)), Dressing(AfterFields(families, via, assertion)))
              && AllCarry(rows.value)
    ensures RowsTyped(targets, domains) && TypedPosit(via, domains) && Comparable(via, assertion) ==> rows.Ok? && RowsTyped(rows.value, domains)
  {
    hide OnPosit;
    hide Recallable;
    hide Typed;
    hide TypedPosit;
    hide Comparable;
    hide WellFormed;
    hide Carries;
    hide AfterFields;
    ghost var after := AfterFields(families, via, assertion);
    DressedMembers(bindings, families);
    var out := [];
    FlatMapNothing(Dressing(after));
    FlatMapNothing(ViaRows(ctx, via, assertion));
    hide FlatMap;
    for i := 0 to |targets|
      invariant out == FlatMap(FlatMap(bindings[..i], ViaRows(ctx, via, assertion)), Dressing(after)) && AllCarry(out)
      invariant RowsTyped(targets, domains) && TypedPosit(via, domains) && Comparable(via, assertion) ==> RowsTyped(out, domains)
    {
      assert targets[i] == Row(bindings[i], families) && targets[i] in targets;
      assert bindings[..i + 1] == bindings[..i] + [bindings[i]] && bindings[i] in bindings;
      FlatMapSnoc(bindings[..i], bindings[i], ViaRows(ctx, via, assertion));
      FlatMapConcat(FlatMap(bindings[..i], ViaRows(ctx, via, assertion)), OnPosit(ctx, via, assertion, bindings[i]), Dressing(after));
      var more := EvaluateOnPosit(ctx, via, assertion, targets[i], domains);
      if more.Err? {
        return more;
      }
      out := out + more.value;
    }
    assert bindings[..|targets|] == bindings;
    return Ok(out);
  }

  /** One effective assertion: its target, then the envelope itself when asked for. */
  method EvaluateEvidence(ctx: Context, p: PositPattern, via: Option<PositPattern>, evidence: Evidence, input: Row, ghost domains: map<string, Domain>)
    returns (rows: Result<seq<Row>, QueryError>)
    requires WellFormed(p.appearances) && Carries(input) && Recallable(p.appearances.members, ctx.recalled, input.binding)
    requires via.Some? ==> WellFormed(via.value.appearances) && Recallable(via.value.appearances.members, ctx.recalled, input.binding)
    ensures rows.Ok? ==> rows.value == CarriedEvidence(ctx, p, via, input)(evidence) && AllCarry(rows.value)
    ensures Typed(input.binding, domains) && TypedEvidence(p, via, evidence, domains) ==> rows.Ok? && RowsTyped(rows.value, domains)
  {
    hide OnPosit;
    hide Recallable;
    hide Typed;
    hide TypedPosit;
    hide Comparable;
    hide WellFormed;
    hide Carries;
    hide AfterFields;
    hide FlatMap;
    ghost var bindings := OnPosit(ctx, p, evidence.target, input.binding);
    rows := EvaluateOnPosit(ctx, p, evidence.target, input, domains);
    if rows.Err? {
      return rows;
    }
    if via.None? {
      assert OnEvidence(ctx, p, via, input.binding)(evidence) == bindings;
      return rows;
    }
    forall b | b in bindings ensures Recallable(via.value.appearances.members, ctx.recalled, b) {
      OnPositExtends(ctx, p, evidence.target, input.binding, b);
      RecallableVia(via.value.appearances.members, ctx.recalled, input.binding, b);
    }
    rows := EvaluateVia(ctx, via.value, evidence.assertion, rows.value, bindings, AfterFields(input.families, p, evidence.target), domains);
    assert OnEvidence(ctx, p, via, input.binding)(evidence) == FlatMap(bindings, ViaRows(ctx, via.value, evidence.assertion));
  }

  /** What an in-effect pattern needs in order to succeed: resolved cuts, evidence within the limits, and comparable types. */
  ghost predicate EffectReady(s: Snapshot, p: PositPattern, effect: EffectPattern, input: Binding, domains: map<string, Domain>) {
    var (assertionCut, appearanceCut) := (ResolvedCutoff(effect.assertionCutoff, input), ResolvedCutoff(effect.appearanceCutoff, input));
    && Typed(input, domains) && assertionCut.Ok? && appearanceCut.Ok?
    && (var cut := Cut(assertionCut.value, appearanceCut.value);
        && WithinEffectLimits(s, cut)
        && forall e :: e in SliceAt(s, cut) ==> TypedEvidence(p, effect.via, e, domains))
  }

  /** The candidates are well formed and few enough to be resolved. */
  ghost predicate WithinEffectLimits(s: Snapshot, cut: Cut) {
    var eligible := EligibleRows(s.posits, cut, SortedOf(CandidateIdentities(s)));
    && eligible.Ok? && |SortedOf(CandidateIdentities(s))| <= MAX_ASSERTION_CANDIDATES
    && Comparisons(eligible.value) <= MAX_TEMPORAL_COMPARISONS
  }

  /** Every effective assertion in turn. */
  method EvaluateSlice(ctx: Context, p: PositPattern, via: Option<PositPattern>, evidence: seq<Evidence>, input: Row, ghost domains: map<string, Domain>)
    returns (rows: Result<seq<Row>, QueryError>)
    requires WellFormed(p.appearances) && Carries(input) && Recallable(p.appearances.members, ctx.recalled, input.binding)
    requires via.Some? ==> WellFormed(via.value.appearances) && Recallable(via.value.appearances.members, ctx.recalled, input.binding)
    ensures rows.Ok? ==> rows.value == CarriedEffect(ctx, p, via, evidence, input) && AllCarry(rows.value)
    ensures Typed(input.binding, domains) && (forall e :: e in evidence ==> TypedEvidence(p, via, e, domains)) ==>
              rows.Ok? && RowsTyped(rows.value, domains)
  {
    hide Recallable;
    hide Carries;
    hide WellFormed;
    hide Typed;
    hide TypedEvidence;
    hide CarriedEvidence;
    var out := [];
    for i := 0 to |evidence|
      invariant out == FlatMap(evidence[..i], CarriedEvidence(ctx, p, via, input)) && AllCarry(out)
      invariant Typed(input.binding, domains) && (forall e :: e in evidence ==> TypedEvidence(p, via, e, domains)) ==> RowsTyped(out, domains)
    {
      assert evidence[..i + 1] == evidence[..i] + [evidence[i]] && evidence[i] in evidence;
      FlatMapSnoc(evidence[..i], evidence[i], CarriedEvidence(ctx, p, via, input));
      var more := EvaluateEvidence(ctx, p, via, evidence[i], input, domains);
      if more.Err? {
        return more;
      }
      out := out + more.value;
    }
    assert evidence[..|evidence|] == evidence;
    return Ok(out);
  }

  /** Evaluates an in-effect pattern; it succeeds whenever its evidence is ready. */
  method EvaluateEffect(s: Snapshot, p: PositPattern, effect: EffectPattern, input: Row, ghost domains: map<string, Domain>)
    returns (rows: Result<seq<Row>, QueryError>)
    requires Indexed(s) && WellBuilt(p) && Carries(input) && p.effect == Some(effect) && Dependencies(p) <= input.binding.Keys
    ensures rows.Ok? ==> rows.value == CarriedRelation(s, p, input) && AllCarry(rows.value)
    ensures EffectReady(s, p, effect, input.binding, domains) ==> rows.Ok? && RowsTyped(rows.value, domains)
  {
    hide OnPosit;
    hide Recallable;
    hide Indexed;
    hide EffectiveRows;
    hide EligibleRows;
    hide Carries;
    hide WellFormed;
    hide Typed;
    hide TypedEvidence;
    hide Dependencies;
    hide Visits;
    hide Comparisons;
    var assertionCut := ResolvedCutoff(effect.assertionCutoff, input.binding);
    var appearanceCut := ResolvedCutoff(effect.appearanceCutoff, input.binding);
    if assertionCut.Err? || appearanceCut.Err? {
      return Err(if assertionCut.Err? then assertionCut.error else appearanceCut.error);
    }
    var cut := Cut(assertionCut.value, appearanceCut.value);
    var meter := new Meter(7 * MAX_ASSERTION_CANDIDATES + MAX_TEMPORAL_COMPARISONS, Some(MAX_TEMPORAL_COMPARISONS));
    IndexedClosed(s);
    ghost var eligible := EligibleRows(s.posits, cut, SortedOf(CandidateIdentities(s)));
    if eligible.Ok? {
      ComparisonsAtMost(eligible.value);
    }
    var slice := Resolve(s, cut, MAX_ASSERTION_CANDIDATES, meter);
    if slice.Err? {
      return Err(EvidenceFailed);
    }
    var evidence := slice.value.rows;
    assert evidence == SliceAt(s, cut);
    hide SliceAt;
    var ctx := Context(s.roleNames, input.binding);
    RecallableInput(p, input.binding, input.binding);
    if effect.via.Some? {
      RecallableViaInput(p, effect.via.value, input.binding);
    }
    rows := EvaluateSlice(ctx, p, effect.via, evidence, input, domains);
  }

  lemma IndexedClosed(s: Snapshot)
    requires Indexed(s)
    ensures Closed(s)
  {
  }

  lemma RecallableViaInput(p: PositPattern, via: PositPattern, input: Binding)
    requires p.effect.Some? && p.effect.value.via == Some(via) && Dependencies(p) <= input.Keys
    ensures Recallable(via.appearances.members, input, input)
  {
    assert Dependencies(via) <= Dependencies(p);
    RecallableInput(via, input, input);
  }

  // ---------------------------------------------------------------- whole patterns

  /** Cutoff variables bound to times, and a via-free, well-typed pattern: nothing but evidence and comparisons can fail. */
  predicate Resolvable(p: PositPattern, input: Binding) {
    p.cutoff.Some? ==> ResolvedCutoff(p.cutoff.value, input).Ok?
  }

  /**
   Evaluates a pattern under an input.  Whatever the access path, a result is the
   relation of the pattern with its families; a well-typed scan over comparable values
   fails only when bitmap access meets a stray posit variable.
   */
  method EvaluatePattern(s: Snapshot, p: PositPattern, input: Row, access: Access, ghost domains: map<string, Domain>)
    returns (rows: Result<seq<Row>, QueryError>)
    requires Indexed(s) && WellBuilt(p) && Carries(input) && Dependencies(p) <= input.binding.Keys
    ensures rows.Ok? ==> rows.value == CarriedRelation(s, p, input) && AllCarry(rows.value)
    ensures rows.Ok? ==> Plain(rows.value) == Relation(s, p, input.binding)
    ensures p.effect.None? && Typed(input.binding, domains) && TypedPosit(p, domains) && AllComparable(s, p) && Resolvable(p, input.binding) ==>
              && (rows.Err? <==> access.Bitmap? && StrayPosit(s, p, StructuralInput(p, input.binding)))
              && (rows.Ok? ==> RowsTyped(rows.value, domains))
    ensures p.effect.Some? && EffectReady(s, p, p.effect.value, input.binding, domains) ==> rows.Ok? && RowsTyped(rows.value, domains)
  {
    PlainRelation(s, p, input);
    hide RowsTyped;
    hide Indexed;
    hide SelectedRows;
    hide Typed;
    hide TypedPosit;
    hide StrayPosit;
    hide AllComparable;
    hide Carries;
    hide EffectReady;
    hide Relation;
    hide Plain;
    if p.effect.Some? {
      rows := EvaluateEffect(s, p, p.effect.value, input, domains);
      return;
    }
    var cut: Option<Time> := None;
    if p.cutoff.Some? {
      var resolved := ResolvedCutoff(p.cutoff.value, input.binding);
      if resolved.Err? {
        return Err(resolved.error);
      }
      cut := Some(resolved.value);
    }
    var own := StructuralRow(p, input);
    StructuralTyped(p, input.binding, domains);
    StructuralCarries(p, input);
    var selected := SelectRows(s, p, cut, input.binding, own, access, domains);
    if selected.Err? {
      return Err(selected.error);
    }
    rows := JoinScan(selected.value, input, domains);
  }

  lemma StructuralTyped(p: PositPattern, input: Binding, domains: map<string, Domain>)
    ensures Typed(input, domains) ==> Typed(StructuralInput(p, input), domains)
  {
  }

  lemma StructuralCarries(p: PositPattern, input: Row)
    requires Carries(input)
    ensures Carries(StructuralRow(p, input))
  {
    hide Deferred;
  }

  /** A scan over comparable values whose variables, its cutoff's included, have the right domains. */
  ghost predicate Scannable(s: Snapshot, p: PositPattern, domains: map<string, Domain>) {
    && p.effect.None? && TypedPosit(p, domains) && AllComparable(s, p)
    && (p.cutoff.Some? && p.cutoff.value.CutoffVariable? ==>
          p.cutoff.value.name in domains && domains[p.cutoff.value.name] == TimeDomain)
  }

  /** Well-typed patterns under full scans: nothing can fail. */
  ghost predicate Unfailing(s: Snapshot, patterns: seq<PositPattern>, start: seq<Row>, access: seq<Access>, domains: map<string, Domain>) {
    && RowsTyped(start, domains) && (forall p :: p in patterns ==> Scannable(s, p, domains))
    && forall a :: a in access ==> a.FullScan?
  }

  lemma ScansResolve(s: Snapshot, p: PositPattern, input: Binding, domains: map<string, Domain>)
    requires Scannable(s, p, domains) && Typed(input, domains) && Dependencies(p) <= input.Keys
    ensures Resolvable(p, input)
  {
    if p.cutoff.Some? && p.cutoff.value.CutoffVariable? {
      var n := p.cutoff.value.name;
      assert n in Dependencies(p) && n in input;
    }
  }

  ghost predicate RowsBind(rows: seq<Row>, names: set<string>) {
    AllBind(Plain(rows), names)
  }

  lemma RowBinds(rows: seq<Row>, names: set<string>, k: nat)
    requires RowsBind(rows, names) && k < |rows|
    ensures names <= rows[k].binding.Keys
  {
    FlatMapMembers(rows, BindingIn(), rows[k].binding);
    assert rows[k] in rows;
  }

  lemma StepRowsBind(s: Snapshot, p: PositPattern, rows: seq<Row>, names: set<string>)
    requires WellBuilt(p) && RowsBind(rows, names)
    ensures RowsBind(FlatMap(rows, CarriedStep(s, p)), names + Introduced(p))
  {
    PlainStep(s, p, rows);
    StepAllBind(s, p, Plain(rows), names);
  }

  /** One pattern of a branch under every row so far. */
  method RunPattern(s: Snapshot, p: PositPattern, current: seq<Row>, access: Access, ghost domains: map<string, Domain>, ghost now: set<string>)
    returns (joined: Result<seq<Row>, QueryError>)
    requires Indexed(s) && WellBuilt(p) && AllCarry(current) && RowsBind(current, now) && Dependencies(p) <= now
    ensures joined.Ok? ==> joined.value == FlatMap(current, CarriedStep(s, p)) && AllCarry(joined.value)
    ensures joined.Ok? ==> RowsBind(joined.value, now + Introduced(p))
    ensures RowsTyped(current, domains) && Scannable(s, p, domains) && access.FullScan? ==> joined.Ok? && RowsTyped(joined.value, domains)
  {
    hide Indexed;
    hide CarriedRelation;
    hide Dependencies;
    hide Introduced;
    hide RowsBind;
    hide WellBuilt;
    hide Carries;
    hide Typed;
    hide TypedPosit;
    hide AllComparable;
    hide Resolvable;
    hide StrayPosit;
    var rows := [];
    for k := 0 to |current|
      invariant rows == FlatMap(current[..k], CarriedStep(s, p)) && AllCarry(rows)
      invariant RowsTyped(current, domains) && Scannable(s, p, domains) && access.FullScan? ==> RowsTyped(rows, domains)
    {
      assert current[..k + 1] == current[..k] + [current[k]];
      assert current[k] in current;
      RowBinds(current, now, k);
      FlatMapSnoc(current[..k], current[k], CarriedStep(s, p));
      if RowsTyped(current, domains) && Scannable(s, p, domains) {
        ScansResolve(s, p, current[k].binding, domains);
      }
      var more := EvaluatePattern(s, p, current[k], access, domains);
      if more.Err? {
        return more;
      }
      rows := rows + more.value;
    }
    assert current[..|current|] == current;
    StepRowsBind(s, p, current, now);
    return Ok(rows);
  }

  /** Runs the patterns of a branch in order, each under every row so far. */
  method RunBranch(s: Snapshot, patterns: seq<PositPattern>, start: seq<Row>, access: seq<Access>, ghost domains: map<string, Domain>, ghost available: set<string>)
    returns (rows: Result<seq<Row>, QueryError>)
    requires Indexed(s) && |access| == |patterns| && AllCarry(start) && RowsBind(start, available) && Ordered(patterns, available)
    requires forall p :: p in patterns ==> WellBuilt(p)
    ensures rows.Ok? ==> rows.value == CarriedRun(s, patterns, start)
    ensures Unfailing(s, patterns, start, access, domains) ==> rows.Ok?
  {
    hide Indexed;
    hide CarriedStep;
    hide Dependencies;
    hide Introduced;
    hide WellBuilt;
    hide RowsBind;
    hide RowsTyped;
    hide AllCarry;
    hide Scannable;
    var current := start;
    ghost var now := available;
    for i := 0 to |patterns|
      invariant CarriedRun(s, patterns, start) == CarriedRun(s, patterns[i..], current)
      invariant Ordered(patterns[i..], now) && AllCarry(current) && RowsBind(current, now)
      invariant Unfailing(s, patterns, start, access, domains) ==> RowsTyped(current, domains)
    {
      var p := patterns[i];
      assert p in patterns && patterns[i..][0] == p && patterns[i..][1..] == patterns[i + 1..];
      assert access[i] in access;
      if current == [] {
        RunNothing(s, patterns[i..]);
        return Ok([]);
      }
      var joined := RunPattern(s, p, current, access[i], domains, now);
      if joined.Err? {
        return joined;
      }
      current := joined.value;
      now := now + Introduced(p);
    }
    return Ok(current);
  }

  lemma {:induction false} RunNothing(s: Snapshot, patterns: seq<PositPattern>)
    ensures CarriedRun(s, patterns, []) == []
  {
    if patterns != [] {
      RunNothing(s, patterns[1..]);
    }
  }

  // ------------------------------------------------------------- whole queries

  /** The part of a row that union branches share. */
  function Shared(names: set<string>): Row -> seq<Row> {
    (row: Row) => [Row(Without(row.binding, row.binding.Keys - names), row.families - (row.families.Keys - names))]
  }

  ghost function UnionRows(s: Snapshot, branches: seq<seq<PositPattern>>, names: set<string>): seq<Row> {
    if branches == [] then []
    else UnionRows(s, branches[..|branches| - 1], names) + FlatMap(CarriedRun(s, branches[|branches| - 1], [NO_ROW]), Shared(names))
  }

  /** A row says what a longer one says of the shared names, and nothing else. */
  ghost predicate IsShare(row: Row, whole: Row, names: set<string>) {
    && row.binding.Keys == whole.binding.Keys * names && (forall n :: n in row.binding ==> row.binding[n] == whole.binding[n])
    && row.families.Keys == whole.families.Keys * names && (forall n :: n in row.families ==> row.families[n] == whole.families[n])
  }

  lemma SharedIsShare(row: Row, whole: Row, names: set<string>)
    ensures row in Shared(names)(whole) <==> IsShare(row, whole, names)
  {
    if IsShare(row, whole, names) {
      var shared := Shared(names)(whole)[0];
      assert row.binding == shared.binding && row.families == shared.families;
    }
  }

  /** A whole row of some branch. */
  ghost predicate RowOfBranch(s: Snapshot, branches: seq<seq<PositPattern>>, whole: Row) {
    exists i :: 0 <= i < |branches| && whole in CarriedRun(s, branches[i], [NO_ROW])
  }

  /** The union holds what each row of each branch says of the shared names. */
  lemma {:induction false} UnionMeans(s: Snapshot, branches: seq<seq<PositPattern>>, names: set<string>, row: Row)
    ensures row in UnionRows(s, branches, names) <==> exists whole :: RowOfBranch(s, branches, whole) && IsShare(row, whole, names)
  {
    hide Shared;
    hide CarriedRun;
    hide IsShare;
    if branches != [] {
      var (init, last) := (branches[..|branches| - 1], branches[|branches| - 1]);
      assert branches == init + [last];
      UnionMeans(s, init, names, row);
      var run := CarriedRun(s, last, [NO_ROW]);
      FlatMapMembers(run, Shared(names), row);
      forall whole ensures RowOfBranch(s, branches, whole) <==> RowOfBranch(s, init, whole) || whole in run {
        BranchOneMore(s, init, last, whole);
      }
      forall whole | whole in run ensures row in Shared(names)(whole) <==> IsShare(row, whole, names) {
        SharedIsShare(row, whole, names);
      }
      hide RowOfBranch;
    }
  }

  lemma BranchOneMore(s: Snapshot, branches: seq<seq<PositPattern>>, last: seq<PositPattern>, whole: Row)
    ensures RowOfBranch(s, branches + [last], whole) <==> RowOfBranch(s, branches, whole) || whole in CarriedRun(s, last, [NO_ROW])
  {
    hide CarriedRun;
    var more := branches + [last];
    assert more[|branches|] == last && forall i :: 0 <= i < |branches| ==> more[i] == branches[i];
  }

  /** Runs every branch from an empty row and keeps the variables the branches share. */
  method RunBranches(s: Snapshot, branches: seq<seq<PositPattern>>, names: set<string>, access: seq<seq<Access>>, ghost domains: map<string, Domain>)
    returns (rows: Result<seq<Row>, QueryError>)
    requires Indexed(s) && |access| == |branches| && forall i :: 0 <= i < |branches| ==> |access[i]| == |branches[i]|
    requires forall b :: b in branches ==> Ordered(b, {}) && forall p :: p in b ==> WellBuilt(p)
    ensures rows.Ok? ==> rows.value == UnionRows(s, branches, names)
    ensures rows.Ok? ==> forall row :: row in rows.value <==> exists whole :: RowOfBranch(s, branches, whole) && IsShare(row, whole, names)
    ensures (forall i :: 0 <= i < |branches| ==> Unfailing(s, branches[i], [NO_ROW], access[i], domains)) ==> rows.Ok?
  {
    hide Indexed;
    hide CarriedRun;
    hide Ordered;
    hide WellBuilt;
    hide Unfailing;
    hide Shared;
    hide RowOfBranch;
    hide IsShare;
    var out := [];
    EmptyStart();
    for i := 0 to |branches|
      invariant out == UnionRows(s, branches[..i], names)
    {
      assert branches[i] in branches && branches[..i + 1][..i] == branches[..i];
      var branch := RunBranch(s, branches[i], [NO_ROW], access[i], domains, {});
      if branch.Err? {
        return branch;
      }
      var kept := [];
      for k := 0 to |branch.value|
        invariant kept == FlatMap(branch.value[..k], Shared(names))
      {
        assert branch.value[..k + 1] == branch.value[..k] + [branch.value[k]];
        FlatMapSnoc(branch.value[..k], branch.value[k], Shared(names));
        kept := kept + Shared(names)(branch.value[k]);
      }
      assert branch.value[..|branch.value|] == branch.value;
      out := out + kept;
    }
    assert branches[..|branches|] == branches;
    forall row ensures row in out <==> exists whole :: RowOfBranch(s, branches, whole) && IsShare(row, whole, names) {
      UnionMeans(s, branches, names, row);
    }
    return Ok(out);
  }

  lemma EmptyStart()
    ensures AllCarry([NO_ROW]) && RowsBind([NO_ROW], {})
  {
  }

  /** Whether a negated block has a match under an outer row. */
  method BlockHasMatch(s: Snapshot, patterns: seq<PositPattern>, outer: Row, access: seq<Access>, ghost domains: map<string, Domain>)
    returns (found: Result<bool, QueryError>)
    requires Indexed(s) && |access| == |patterns| && Carries(outer) && Ordered(patterns, outer.binding.Keys)
    requires forall p :: p in patterns ==> WellBuilt(p)
    ensures Unfailing(s, patterns, [outer], access, domains) ==> found.Ok?
    ensures found.Ok? ==> found.value == (Run(s, patterns, [outer.binding]) != [])
  {
    OuterBinds(outer);
    PlainRun(s, patterns, [outer]);
    var rows := RunBranch(s, patterns, [outer], access, domains, outer.binding.Keys);
    if rows.Err? {
      return Err(rows.error);
    }
    PlainNonempty(rows.value);
    return Ok(rows.value != []);
  }

  lemma OuterBinds(outer: Row)
    ensures Plain([outer]) == [outer.binding] && RowsBind([outer], outer.binding.Keys)
  {
    FlatMapOne(outer, BindingIn());
  }

  lemma PlainNonempty(rows: seq<Row>)
    ensures Plain(rows) != [] <==> rows != []
  {
    if rows != [] {
      FlatMapMembers(rows, BindingIn(), rows[0].binding);
      assert rows[0] in rows;
    }
  }
}
