/**
 Posit patterns and the relation each one denotes: which posits it reads, how it
 reduces them to a temporal snapshot, and which bindings it produces from an input.
 */
module Patterns {
  import opened Prelude
  import opened Sequences
  import opened Times
  import opened Constructs
  import opened Temporal
  import opened Effect
  import opened Bindings
  import opened Matching

  datatype ValueSlot = AnyValue | ValueVariable(name: string) | ValueLiteral(literal: Literal)

  datatype TimeSlot = AnyTime | TimeVariable(name: string) | TimeLiteral(time: Time)

  datatype Cutoff = CutoffAt(time: Time) | CutoffVariable(name: string)

  datatype EffectPattern = EffectPattern(assertionCutoff: Cutoff, appearanceCutoff: Cutoff, via: Option<PositPattern>)

  datatype PositPattern = PositPattern(
    posit: Option<string>,
    appearances: SetPattern,
    value: ValueSlot,
    time: TimeSlot,
    cutoff: Option<Cutoff>,
    latest: bool,
    effect: Option<EffectPattern>)

  // ------------------------------------------------------------------- names

  function NamesOf(name: Option<string>): set<string> {
    if name.Some? then {name.value} else {}
  }

  function CutoffNames(c: Cutoff): set<string> {
    if c.CutoffVariable? then {c.name} else {}
  }

  function OneOfNames(members: seq<Member>): set<string> {
    set m, i | m in members && m.thing.OneOf? && 0 <= i < |m.thing.names| :: m.thing.names[i]
  }

  /** The variables a pattern must find bound before it runs. */
  function Dependencies(p: PositPattern): set<string>
    decreases p
  {
    (if p.cutoff.Some? then CutoffNames(p.cutoff.value) else {})
    + (if p.effect.None? then {}
       else CutoffNames(p.effect.value.assertionCutoff) + CutoffNames(p.effect.value.appearanceCutoff)
            + (if p.effect.value.via.None? then {} else Dependencies(p.effect.value.via.value)))
    + OneOfNames(p.appearances.members)
  }

  function ValueNames(v: ValueSlot): set<string> {
    if v.ValueVariable? then {v.name} else {}
  }

  function TimeNames(t: TimeSlot): set<string> {
    if t.TimeVariable? then {t.name} else {}
  }

  /** The posit, value and time variables: what a temporal pattern binds only after its reduction. */
  function FieldNames(p: PositPattern): set<string> {
    NamesOf(p.posit) + ValueNames(p.value) + TimeNames(p.time)
  }

  /** The variables an appearance set binds. */
  function StructuralNames(p: SetPattern): set<string> {
    NamesOf(p.binding) + MemberNames(p.members, 0)
  }

  /** The variables a pattern binds. */
  function Introduced(p: PositPattern): set<string>
    decreases p
  {
    FieldNames(p) + StructuralNames(p.appearances)
    + if p.effect.Some? && p.effect.value.via.Some? then Introduced(p.effect.value.via.value) else {}
  }

  /** Field variables that an outer binding may not constrain before the reduction. */
  function Deferred(p: PositPattern): set<string> {
    if p.cutoff.None? then {}
    else FieldNames(p) - (Dependencies(p) + StructuralNames(p.appearances))
  }

  function Without(b: Binding, names: set<string>): Binding {
    map n | n in b && n !in names :: b[n]
  }

  /** The part of an input that structural matching sees. */
  function StructuralInput(p: PositPattern, input: Binding): Binding {
    if p.cutoff.Some? then Without(input, Deferred(p)) else input
  }

  // ---------------------------------------------------------------- literals

  function Nominal(a: Literal, b: Literal): Result<bool, QueryError> {
    var numeric := {IntegerFamily, DecimalFamily};
    if a.family in numeric && b.family in numeric then Ok(a.meaning == b.meaning)
    else if a.family != b.family then Err(Incomparable(a.token))
    else if a.family.TimeFamily? then Ok(a.token == b.token)
    else Ok(a.meaning == b.meaning)
  }

  function ValueBinding(slot: ValueSlot, value: Literal): Option<Binding> {
    match slot
    case AnyValue => Some(map[])
    case ValueVariable(name) => Some(map[name := LiteralValue(value.token)])
    case ValueLiteral(literal) => if Nominal(value, literal) == Ok(true) then Some(map[]) else None
  }

  function TimeBinding(slot: TimeSlot, time: Time): Option<Binding> {
    match slot
    case AnyTime => Some(map[])
    case TimeVariable(name) => Some(map[name := TimeValue(time)])
    case TimeLiteral(literal) => if time == literal then Some(map[]) else None
  }

  function PositBinding(name: Option<string>, id: Thing): Option<Binding> {
    if name.Some? then Some(map[name.value := PositValue(id)]) else Some(map[])
  }

  /** What the posit, value and time slots contribute for a posit; None when a literal slot rejects it. */
  function FieldBinding(p: PositPattern, q: Posit): Option<Binding> {
    Join(Join(PositBinding(p.posit, q.id), ValueBinding(p.value, q.value)), TimeBinding(p.time, q.time))
  }

  // --------------------------------------------------------------- relations

  function ResolvedCutoff(c: Cutoff, input: Binding): Result<Time, QueryError> {
    match c
    case CutoffAt(time) => Ok(time)
    case CutoffVariable(name) =>
      if name !in input then Err(InvalidRecall(name))
      else if !input[name].TimeValue? then Err(VariableDomain(name))
      else Ok(input[name].time)
  }

  datatype StructuralMatch = StructuralMatch(posit: Posit, binding: Binding)

  function SetOf(row: StructuralMatch): AppearanceSet {
    row.posit.appearances
  }

  function TimeOf(row: StructuralMatch): Time {
    row.posit.time
  }

  function BindingOf(row: StructuralMatch): seq<Binding> {
    [row.binding]
  }

  /** Rows of one posit. */
  ghost function Tag(q: Posit, bindings: seq<Binding>): seq<StructuralMatch> {
    FlatMap(bindings, Tagging(q))
  }

  function Tagging(q: Posit): Binding -> seq<StructuralMatch> {
    (b: Binding) => [StructuralMatch(q, b)]
  }

  function Within(cut: Option<Time>): Posit -> bool {
    (q: Posit) => cut.Some? ==> DefinitelyAtOrBefore(q.time, cut.value)
  }

  ghost function Structural(ctx: Context, p: PositPattern, b: Binding): Posit -> seq<StructuralMatch> {
    (q: Posit) => Tag(q, Extend(b, OwnMatches(ctx, p.appearances, q.appearances)))
  }

  ghost function StructuralRows(ctx: Context, p: PositPattern, posits: seq<Posit>, cut: Option<Time>, b: Binding): seq<StructuralMatch> {
    FlatMap(Keep(posits, Within(cut)), Structural(ctx, p, b))
  }

  function Fielding(p: PositPattern): StructuralMatch -> seq<StructuralMatch> {
    (row: StructuralMatch) =>
      match Join(Some(row.binding), FieldBinding(p, row.posit))
      case Some(b) => [StructuralMatch(row.posit, b)]
      case None => []
  }

  ghost function FieldRows(p: PositPattern, rows: seq<StructuralMatch>): seq<StructuralMatch> {
    FlatMap(rows, Fielding(p))
  }

  ghost function Reduced(rows: seq<StructuralMatch>): seq<StructuralMatch> {
    Maximal(rows, SetOf, TimeOf)
  }

  /** The rows a pattern selects from posits: reduction before the fields, or after them for `latest`. */
  ghost function SelectedRows(ctx: Context, p: PositPattern, posits: seq<Posit>, cut: Option<Time>, b: Binding): seq<StructuralMatch> {
    var structural := StructuralRows(ctx, p, posits, cut, b);
    if cut.None? then FieldRows(p, structural)
    else if !p.latest then FieldRows(p, Reduced(structural))
    else Reduced(FieldRows(p, structural))
  }

  ghost function ScanRelation(ctx: Context, p: PositPattern, posits: seq<Posit>, cut: Option<Time>, input: Binding): seq<Binding> {
    Extend(input, FlatMap(SelectedRows(ctx, p, posits, cut, StructuralInput(p, input)), BindingOf))
  }

  /** Bindings of one pattern on one posit: its matches, then its fields. */
  ghost function OnPosit(ctx: Context, p: PositPattern, q: Posit, b: Binding): seq<Binding> {
    ExtendOption(FieldBinding(p, q), Extend(b, OwnMatches(ctx, p.appearances, q.appearances)))
  }

  ghost function ViaRows(ctx: Context, via: PositPattern, assertion: Posit): Binding -> seq<Binding> {
    (b: Binding) => OnPosit(ctx, via, assertion, b)
  }

  ghost function OnEvidence(ctx: Context, p: PositPattern, via: Option<PositPattern>, b: Binding): Evidence -> seq<Binding> {
    (row: Evidence) =>
      if via.None? then OnPosit(ctx, p, row.target, b)
      else FlatMap(OnPosit(ctx, p, row.target, b), ViaRows(ctx, via.value, row.assertion))
  }

  ghost function EffectRelation(ctx: Context, p: PositPattern, via: Option<PositPattern>, rows: seq<Evidence>, input: Binding): seq<Binding> {
    FlatMap(rows, OnEvidence(ctx, p, via, input))
  }

  ghost function PositsOf(s: Snapshot, ids: seq<Thing>): seq<Posit>
    requires forall id :: id in ids ==> id in s.posits
  {
    seq(|ids|, i requires 0 <= i < |ids| => s.posits[ids[i]])
  }

  /** All posits in ascending identity order. */
  ghost function AllPosits(s: Snapshot): seq<Posit> {
    PositsOf(s, SortedOf(s.posits.Keys))
  }

  /** The information in effect at a cut; nothing when some evidence is malformed. */
  ghost function SliceAt(s: Snapshot, cut: Cut): seq<Evidence> {
    match EligibleRows(s.posits, cut, SortedOf(CandidateIdentities(s)))
    case Ok(eligible) => EffectiveRows(eligible)
    case Err(_) => []
  }

  /** The relation of a pattern under an input: what a full evaluation returns. */
  ghost function Relation(s: Snapshot, p: PositPattern, input: Binding): seq<Binding> {
    var ctx := Context(s.roleNames, input);
    if p.effect.Some? then
      var assertionCut := ResolvedCutoff(p.effect.value.assertionCutoff, input);
      var appearanceCut := ResolvedCutoff(p.effect.value.appearanceCutoff, input);
      if assertionCut.Err? || appearanceCut.Err? then []
      else EffectRelation(ctx, p, p.effect.value.via, SliceAt(s, Cut(assertionCut.value, appearanceCut.value)), input)
    else if p.cutoff.None? then ScanRelation(ctx, p, AllPosits(s), None, input)
    else
      match ResolvedCutoff(p.cutoff.value, input)
      case Err(_) => []
      case Ok(cut) => ScanRelation(ctx, p, AllPosits(s), Some(cut), input)
  }
}
