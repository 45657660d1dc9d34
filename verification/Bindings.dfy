/**
 Variable bindings.  Extending a binding is a partial join on bindings; the join is
 commutative, associative and idempotent, which is what frees a query from the
 order its patterns run in.
 */
module Bindings {
  import opened Prelude
  import opened Sequences
  import opened Times
  import opened Constructs

  datatype Domain = ThingDomain | RoleDomain | PositDomain | SetDomain | LiteralDomain | TimeDomain

  /** What bound values are compared by: of a literal, its token and not its family. */
  datatype BoundValue =
    | ThingValue(id: Thing)
    | RoleValue(role: Thing)
    | PositValue(id: Thing)
    | SetValue(appearanceSet: AppearanceSet)
    | LiteralValue(token: string)
    | TimeValue(time: Time)
  {
    function DomainOf(): Domain {
      match this
      case ThingValue(_) => ThingDomain
      case RoleValue(_) => RoleDomain
      case PositValue(_) => PositDomain
      case SetValue(_) => SetDomain
      case LiteralValue(_) => LiteralDomain
      case TimeValue(_) => TimeDomain
    }

    predicate Identity?() {
      ThingValue? || PositValue?
    }
  }

  type Binding = map<string, BoundValue>

  datatype QueryError =
    | VariableDomain(name: string)
    | InvalidRecall(name: string)
    | Incomparable(token: string)
    | MissingPosit(id: Thing)
    | Unresolvable
    | EvidenceFailed

  /**
   A binding as the engine carries it: a bound literal also has the family it was first
   bound under.  Comparing two bindings never looks at the families.
   */
  datatype Row = Row(binding: Binding, families: map<string, Family>)

  const NO_ROW := Row(map[], map[])

  /** The families are those of the bound literals. */
  ghost predicate Carries(row: Row) {
    forall n :: n in row.families <==> n in row.binding && row.binding[n].LiteralValue?
  }

  datatype Value = Bare(bound: BoundValue) | Carrying(token: string, family: Family)
  {
    function Compared(): BoundValue {
      match this
      case Bare(bound) => bound
      case Carrying(token, _) => LiteralValue(token)
    }

    predicate Proper() {
      Bare? ==> !bound.LiteralValue?
    }
  }

  /** A value names the family it is bound under, if it has one. */
  function Named(name: string, value: Value): map<string, Family> {
    if value.Carrying? then map[name := value.family] else map[]
  }

  // ------------------------------------------------------------ partial join

  /** Equal, or the same identity seen once as a Thing and once as a posit. */
  predicate Compatible(a: BoundValue, b: BoundValue) {
    a == b || (a.Identity?() && b.Identity?() && a.id == b.id)
  }

  /** A posit is the more specific view of an identity. */
  function Sharper(a: BoundValue, b: BoundValue): BoundValue {
    if a.ThingValue? then b else a
  }

  predicate Joinable(a: Binding, b: Binding) {
    forall n :: n in a && n in b ==> Compatible(a[n], b[n])
  }

  function Merged(a: Binding, b: Binding): (m: Binding) {
    map n | n in a.Keys + b.Keys :: if n !in b then a[n] else if n !in a then b[n] else Sharper(a[n], b[n])
  }

  function Merge(a: Binding, b: Binding): Option<Binding> {
    if Joinable(a, b) then Some(Merged(a, b)) else None
  }

  lemma MergeCommutes(a: Binding, b: Binding)
    ensures Merge(a, b) == Merge(b, a)
  {
    if Joinable(a, b) {
      assert Merged(a, b) == Merged(b, a);
    }
  }

  lemma MergeEmpty(a: Binding)
    ensures Merge(a, map[]) == Some(a) == Merge(map[], a)
  {
    assert Merged(a, map[]) == a;
    assert Merged(map[], a) == a;
  }

  /** The join of two options: None absorbs. */
  function Join(a: Option<Binding>, b: Option<Binding>): Option<Binding> {
    if a.None? || b.None? then None else Merge(a.value, b.value)
  }

  lemma JoinCommutes(a: Option<Binding>, b: Option<Binding>)
    ensures Join(a, b) == Join(b, a)
  {
    if a.Some? && b.Some? {
      MergeCommutes(a.value, b.value);
    }
  }

  lemma MergedAssociates(a: Binding, b: Binding, c: Binding)
    requires Pairwise(a, b, c)
    ensures Merged(Merged(a, b), c) == Merged(a, Merged(b, c))
  {
    var (left, right) := (Merged(Merged(a, b), c), Merged(a, Merged(b, c)));
    assert left.Keys == right.Keys;
    forall n | n in left ensures left[n] == right[n] {
    }
  }

  lemma JoinAssociates(a: Option<Binding>, b: Option<Binding>, c: Option<Binding>)
    ensures Join(Join(a, b), c) == Join(a, Join(b, c))
  {
    if a.Some? && b.Some? && c.Some? {
      JoinableTogether(a.value, b.value, c.value);
      if Pairwise(a.value, b.value, c.value) {
        MergedAssociates(a.value, b.value, c.value);
      }
      hide Merged;
      hide Joinable;
    }
  }

  predicate Pairwise(a: Binding, b: Binding, c: Binding) {
    Joinable(a, b) && Joinable(b, c) && Joinable(a, c)
  }

  lemma JoinableTogether(a: Binding, b: Binding, c: Binding)
    ensures Joinable(a, b) && Joinable(Merged(a, b), c) <==> Pairwise(a, b, c)
    ensures Joinable(b, c) && Joinable(a, Merged(b, c)) <==> Pairwise(a, b, c)
  {
    var (ab, bc) := (Merged(a, b), Merged(b, c));
    if Joinable(a, b) && Joinable(ab, c) {
      forall n | n in b && n in c ensures Compatible(b[n], c[n]) { assert Compatible(ab[n], c[n]); }
      forall n | n in a && n in c ensures Compatible(a[n], c[n]) { assert Compatible(ab[n], c[n]); }
    }
    if Joinable(b, c) && Joinable(a, bc) {
      forall n | n in a && n in b ensures Compatible(a[n], b[n]) { assert Compatible(a[n], bc[n]); }
      forall n | n in a && n in c ensures Compatible(a[n], c[n]) { assert Compatible(a[n], bc[n]); }
    }
  }

  /** `small` says nothing that `big` does not. */
  predicate Absorbs(big: Binding, small: Binding) {
    Merge(big, small) == Some(big)
  }

  lemma AbsorbsMeans(big: Binding, small: Binding)
    ensures Absorbs(big, small) <==>
            forall n :: n in small ==> n in big && Compatible(big[n], small[n]) && Sharper(big[n], small[n]) == big[n]
  {
    if forall n :: n in small ==> n in big && Compatible(big[n], small[n]) && Sharper(big[n], small[n]) == big[n] {
      assert Merged(big, small) == big;
    }
    if Absorbs(big, small) {
      forall n | n in small ensures n in big && Compatible(big[n], small[n]) && Sharper(big[n], small[n]) == big[n] {
        assert n in Merged(big, small);
      }
    }
  }

  lemma MergeIdempotent(a: Binding)
    ensures Absorbs(a, a)
  {
    AbsorbsMeans(a, a);
  }

  // -------------------------------------------------------- joining relations

  function Emit<T>(o: Option<T>): seq<T> {
    if o.Some? then [o.value] else []
  }

  /** The natural join of one binding with a relation, in the relation's order. */
  ghost function Extend(b: Binding, rows: seq<Binding>): seq<Binding> {
    FlatMap(rows, Extending(b))
  }

  function Extending(b: Binding): Binding -> seq<Binding> {
    (row: Binding) => Emit(Merge(b, row))
  }

  ghost function ExtendOption(o: Option<Binding>, rows: seq<Binding>): seq<Binding> {
    if o.Some? then Extend(o.value, rows) else []
  }

  lemma {:induction false} ExtendExtend(a: Binding, b: Binding, rows: seq<Binding>)
    ensures Extend(a, Extend(b, rows)) == ExtendOption(Merge(a, b), rows)
  {
    hide Merge;
    if rows != [] {
      var front, last := rows[..|rows| - 1], rows[|rows| - 1];
      ExtendExtend(a, b, front);
      JoinAssociates(Some(a), Some(b), Some(last));
      FlatMapConcat(Extend(b, front), Emit(Merge(b, last)), Extending(a));
      FlatMapEmit(Merge(b, last), Extending(a));
    }
  }

  lemma FlatMapEmit<S(!new), T(!new)>(o: Option<S>, f: S -> seq<T>)
    ensures FlatMap(Emit(o), f) == if o.Some? then f(o.value) else []
  {
    if o.Some? {
      assert Emit(o)[..0] == [];
    }
  }

  lemma ExtendAbsorbed(big: Binding, small: Binding, rows: seq<Binding>)
    requires Absorbs(big, small)
    ensures Extend(big, Extend(small, rows)) == Extend(big, rows) == Extend(small, Extend(big, rows))
  {
    ExtendExtend(big, small, rows);
    MergeCommutes(big, small);
    ExtendExtend(small, big, rows);
  }

  lemma ExtendCommutes(a: Binding, b: Binding, rows: seq<Binding>)
    ensures Extend(a, Extend(b, rows)) == Extend(b, Extend(a, rows))
  {
    ExtendExtend(a, b, rows);
    ExtendExtend(b, a, rows);
    MergeCommutes(a, b);
  }

  lemma ExtendMembers(b: Binding, rows: seq<Binding>, y: Binding)
    ensures y in Extend(b, rows) <==> exists row :: row in rows && Merge(b, row) == Some(y)
  {
    FlatMapMembers(rows, Extending(b), y);
    forall row ensures y in Extending(b)(row) <==> Merge(b, row) == Some(y) {
    }
  }

  // ------------------------------------------------------------------ typing

  predicate Fits(v: BoundValue, d: Domain) {
    v.DomainOf() == d || (v.ThingValue? && d == PositDomain)
  }

  predicate Typed(b: Binding, domains: map<string, Domain>) {
    forall n :: n in b ==> n in domains && Fits(b[n], domains[n])
  }

  /**
   Binds a name, refining a Thing to a posit of the same identity.  The outcome is
   the partial join with that one name, or None for a mismatch; only values of
   different domains are an error.
   */
  method BindValue(binding: Binding, name: string, value: BoundValue) returns (bound: Result<Option<Binding>, QueryError>)
    ensures bound.Ok? ==> bound.value == Merge(binding, map[name := value])
    ensures bound.Err? <==> name in binding && !(binding[name].Identity?() && value.Identity?())
                            && binding[name].DomainOf() != value.DomainOf()
  {
    if name !in binding {
      assert Merged(binding, map[name := value]) == binding[name := value];
      return Ok(Some(binding[name := value]));
    }
    var existing := binding[name];
    if existing.ThingValue? && value.PositValue? {
      if existing.id == value.id {
        assert Merged(binding, map[name := value]) == binding[name := value];
        return Ok(Some(binding[name := value]));
      }
      return Ok(None);
    }
    if existing.PositValue? && value.ThingValue? {
      assert Merged(binding, map[name := value])[name] == existing;
      assert existing.id == value.id ==> Merged(binding, map[name := value]) == binding;
      return Ok(if existing.id == value.id then Some(binding) else None);
    }
    if existing.DomainOf() != value.DomainOf() {
      return Err(VariableDomain(name));
    }
    assert existing == value ==> Merged(binding, map[name := value]) == binding;
    return Ok(if existing == value then Some(binding) else None);
  }

  /**
   Binds a name and keeps the families of what was bound before: a literal that is already
   there under the same token stays with the family it first had.
   */
  method Bind(row: Row, name: string, value: Value) returns (bound: Result<Option<Row>, QueryError>)
    requires Carries(row) && value.Proper()
    ensures bound.Ok? ==>
              match Merge(row.binding, map[name := value.Compared()])
              case None => bound.value.None?
              case Some(binding) => bound.value == Some(Row(binding, Named(name, value) + row.families)) && Carries(bound.value.value)
    ensures bound.Err? <==> name in row.binding && !(row.binding[name].Identity?() && value.Compared().Identity?())
                            && row.binding[name].DomainOf() != value.Compared().DomainOf()
  {
    var binding := BindValue(row.binding, name, value.Compared());
    if binding.Err? {
      return Err(binding.error);
    }
    if binding.value.None? {
      return Ok(None);
    }
    CarriesMore(row, name, value);
    var families := row.families;
    if value.Carrying? && name !in row.binding {
      families := families[name := value.family];
    }
    return Ok(Some(Row(binding.value.value, families)));
  }

  lemma CarriesMore(row: Row, name: string, value: Value)
    requires Carries(row) && value.Proper() && Merge(row.binding, map[name := value.Compared()]).Some?
    ensures Carries(Row(Merge(row.binding, map[name := value.Compared()]).value, Named(name, value) + row.families))
    ensures Named(name, value) + row.families
            == if value.Carrying? && name !in row.binding then row.families[name := value.family] else row.families
  {
    var merged := Merge(row.binding, map[name := value.Compared()]).value;
    assert forall n :: n in merged <==> n in row.binding || n == name;
  }

  /** Under one domain assignment binding never fails and stays within it. */
  lemma BindTyped(binding: Binding, name: string, value: BoundValue, domains: map<string, Domain>)
    requires Typed(binding, domains) && name in domains && Fits(value, domains[name])
    ensures name in binding ==> (binding[name].Identity?() && value.Identity?()) || binding[name].DomainOf() == value.DomainOf()
    ensures Merge(binding, map[name := value]).Some? ==> Typed(Merge(binding, map[name := value]).value, domains)
  {
  }

  lemma MergeTyped(a: Binding, b: Binding, domains: map<string, Domain>)
    requires Typed(a, domains) && Typed(b, domains)
    ensures Merge(a, b).Some? ==> Typed(Merge(a, b).value, domains)
  {
  }
}
