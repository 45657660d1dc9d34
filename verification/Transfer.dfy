/**
 Moving a logical store: validating an export, giving its identities new names in a new
 store, writing the transformed records and replaying them.
 */
module Transfer {
  import opened Prelude
  import opened Sequences
  import opened Encoding
  import opened Frames
  import opened Constructs
  import opened Payload
  import opened PositCodec
  import opened Replay
  import opened Logging
  import opened Restart

  datatype LogicalStore = LogicalStore(roles: seq<Role>, posits: seq<Posit>)

  datatype ImportError = Invalid | Exhausted | Unreplayable | Unverified

  // --------------------------------------------------------------------- validation

  ghost predicate RolesUnique(roles: seq<Role>) {
    && (forall r :: r in roles ==> r.id != GENESIS)
    && (forall i, j :: 0 <= i < j < |roles| ==> roles[i].id != roles[j].id && roles[i].name != roles[j].name)
  }

  predicate HasBuiltin(roles: seq<Role>, b: Role) {
    exists r :: r in roles && r.id == b.id && r.name == b.name && r.reserved
  }

  predicate GoodSet(appearanceSet: seq<Appearance>) {
    && appearanceSet != [] && (forall i :: 0 <= i < |appearanceSet| - 1 ==> appearanceSet[i].role != appearanceSet[i + 1].role)
    && forall a :: a in appearanceSet ==> a.role != GENESIS && a.thing != GENESIS
  }

  ghost predicate PositsUnique(roles: seq<Role>, posits: seq<Posit>) {
    && (forall p :: p in posits ==> p.id != GENESIS && GoodSet(p.appearances) && NotARole(roles, p.id))
    && (forall p, a :: p in posits && a in p.appearances ==> IsRole(roles, a.role))
    && (forall i, j :: 0 <= i < j < |posits| ==> posits[i].id != posits[j].id && PropositionOf(posits[i]) != PropositionOf(posits[j]))
  }

  ghost predicate IsRole(roles: seq<Role>, id: Thing) {
    exists r :: r in roles && r.id == id
  }

  ghost predicate NotARole(roles: seq<Role>, id: Thing) {
    forall r :: r in roles ==> r.id != id
  }

  /** What an export must satisfy to be imported. */
  ghost predicate Importable(s: LogicalStore) {
    RolesUnique(s.roles) && (forall b :: b in BUILTIN_ROLES ==> HasBuiltin(s.roles, b)) && PositsUnique(s.roles, s.posits)
  }

  method ValidateRoles(roles: seq<Role>) returns (ok: bool, ids: set<Thing>)
    ensures ok <==> RolesUnique(roles)
    ensures ok ==> ids == set r | r in roles :: r.id
  {
    ids := {};
    var names: set<string> := {};
    for i := 0 to |roles|
      invariant RolesUnique(roles[..i]) && ids == (set r | r in roles[..i] :: r.id) && names == set r | r in roles[..i] :: r.name
    {
      var r := roles[i];
      assert roles[..i + 1] == roles[..i] + [r] && r in roles;
      if r.id == GENESIS {
        return false, ids;
      }
      if r.id in ids || r.name in names {
        var other :| other in roles[..i] && (other.id == r.id || other.name == r.name);
        var j :| 0 <= j < i && roles[j] == other;
        return false, ids;
      }
      RolesUniqueMore(roles[..i], r);
      ids := ids + {r.id};
      names := names + {r.name};
    }
    assert roles[..|roles|] == roles;
    return true, ids;
  }

  lemma RolesUniqueMore(roles: seq<Role>, r: Role)
    requires RolesUnique(roles) && r.id != GENESIS && forall q :: q in roles ==> q.id != r.id && q.name != r.name
    ensures RolesUnique(roles + [r])
  {
  }

  ghost predicate PositRefused(roles: seq<Role>, posits: seq<Posit>, i: nat)
    requires i < |posits|
  {
    var p := posits[i];
    || p.id == GENESIS || !NotARole(roles, p.id) || !GoodSet(p.appearances) || (exists a :: a in p.appearances && !IsRole(roles, a.role))
    || exists j :: 0 <= j < i && (posits[j].id == p.id || PropositionOf(posits[j]) == PropositionOf(p))
  }

  lemma RefusedIsNotUnique(roles: seq<Role>, posits: seq<Posit>, i: nat)
    requires i < |posits| && PositRefused(roles, posits, i)
    ensures !PositsUnique(roles, posits)
  {
    hide GoodSet;
    hide PropositionOf;
    assert posits[i] in posits;
  }

  lemma PositsUniqueMore(roles: seq<Role>, posits: seq<Posit>, i: nat)
    requires i < |posits| && PositsUnique(roles, posits[..i]) && !PositRefused(roles, posits, i)
    ensures PositsUnique(roles, posits[..i + 1])
  {
    hide GoodSet;
    hide PropositionOf;
    hide IsRole;
    hide NotARole;
    var more := posits[..i + 1];
    assert more == posits[..i] + [posits[i]];
    forall a, b | 0 <= a < b < |more| ensures more[a].id != more[b].id && PropositionOf(more[a]) != PropositionOf(more[b]) {
      if b < i {
        assert more[a] == posits[..i][a] && more[b] == posits[..i][b];
      }
    }
  }

  method ValidatePosits(roles: seq<Role>, ids: set<Thing>, posits: seq<Posit>) returns (ok: bool)
    requires ids == set r | r in roles :: r.id
    ensures ok <==> PositsUnique(roles, posits)
  {
    hide GoodSet;
    hide PropositionOf;
    hide PositsUnique;
    var constructs := ids;
    var propositions: set<Proposition> := {};
    NoPosits(roles);
    for i := 0 to |posits|
      invariant PositsUnique(roles, posits[..i])
      invariant forall id :: id in constructs <==> id in ids || exists j :: 0 <= j < i && posits[j].id == id
      invariant forall x :: x in propositions <==> exists j :: 0 <= j < i && PropositionOf(posits[j]) == x
    {
      var p := posits[i];
      if p.id == GENESIS || p.id in constructs || !GoodSet(p.appearances) || (exists a :: a in p.appearances && a.role !in ids)
         || PropositionOf(p) in propositions {
        RefusedIsNotUnique(roles, posits, i);
        return false;
      }
      PositsUniqueMore(roles, posits, i);
      constructs := constructs + {p.id};
      propositions := propositions + {PropositionOf(p)};
    }
    assert posits[..|posits|] == posits;
    return true;
  }

  lemma NoPosits(roles: seq<Role>)
    ensures PositsUnique(roles, [])
  {
  }

  method ValidateImported(s: LogicalStore) returns (ok: bool)
    ensures ok <==> Importable(s)
  {
    hide RolesUnique;
    hide PositsUnique;
    hide HasBuiltin;
    var ids;
    ok, ids := ValidateRoles(s.roles);
    if !ok {
      return;
    }
    for i := 0 to |BUILTIN_ROLES|
      invariant forall j :: 0 <= j < i ==> HasBuiltin(s.roles, BUILTIN_ROLES[j])
    {
      if !HasBuiltin(s.roles, BUILTIN_ROLES[i]) {
        assert BUILTIN_ROLES[i] in BUILTIN_ROLES;
        return false;
      }
    }
    ok := ValidatePosits(s.roles, ids, s.posits);
  }

  // ----------------------------------------------------------------- identity remap

  /** Every identity a store mentions. */
  function Foreign(s: LogicalStore): set<Thing> {
    (set r | r in s.roles :: r.id) + (set p | p in s.posits :: p.id)
    + (set p, a | p in s.posits && a in p.appearances :: a.role) + (set p, a | p in s.posits && a in p.appearances :: a.thing)
  }

  predicate BuiltinId(id: Thing) {
    1 <= id <= 5
  }

  /** Built-in identities stay; every other one gets a new one, no two the same, none its own. */
  ghost predicate Remaps(m: map<Thing, Thing>) {
    && (forall id :: BuiltinId(id) ==> id in m && m[id] == id)
    && (forall x, y :: x in m && y in m && x != y ==> m[x] != m[y])
    && (forall x :: x in m && !BuiltinId(x) ==> m[x] != x && m[x] >= 6 && m[x] < U64)
  }

  /** New identities keep the order of the old ones. */
  ghost predicate InOrderOf(m: map<Thing, Thing>) {
    forall x, y :: x in m && y in m && !BuiltinId(x) && !BuiltinId(y) && x < y ==> m[x] < m[y]
  }

  /** No identity below a bound is passed over but one whose own new identity would have been itself. */
  ghost predicate Packed(m: map<Thing, Thing>, below: nat) {
    forall n :: 6 <= n < below ==> IsImage(m, n) || (n in m && m[n] == n + 1)
  }

  ghost predicate IsImage(m: map<Thing, Thing>, n: Thing) {
    exists x :: x in m && m[x] == n
  }

  /** The new identities are the first ones there are: the last of them bounds what is packed. */
  ghost predicate LeastImages(m: map<Thing, Thing>) {
    forall x :: x in m && !BuiltinId(x) ==> Packed(m, m[x])
  }

  const BUILTIN_MAP: map<Thing, Thing> := map[1 := 1, 2 := 2, 3 := 3, 4 := 4, 5 := 5]

  /** The next identity that is neither used nor the source's own. */
  method NextFree(start: nat, used: set<Thing>, source: Thing) returns (found: Option<nat>)
    requires start < U64 && forall u :: u in used ==> u < start
    ensures found.Some? ==> found.value < U64 && found.value == if start == source then start + 1 else start
    ensures found.None? ==> start + 1 >= U64
  {
    var next := start;
    while next in used || next == source
      invariant start <= next <= start + 1 && next < U64 && (next == start + 1 ==> start == source)
      decreases start + 1 - next
    {
      if next + 1 >= U64 {
        return None;
      }
      next := next + 1;
    }
    return Some(next);
  }

  /** The first i old identities have been assigned; everything used lies below the next one. */
  ghost predicate Assigned(m: map<Thing, Thing>, used: set<Thing>, next: nat, order: seq<nat>, i: nat)
    requires i <= |order|
  {
    && Remaps(m) && InOrderOf(m)
    && (forall x :: x in m <==> BuiltinId(x) || exists j :: 0 <= j < i && order[j] == x)
    && (forall x :: x in m ==> m[x] in used) && (forall u :: u in used ==> u < next)
    && Packed(m, next)
  }

  lemma NothingAssigned(order: seq<nat>)
    ensures Assigned(BUILTIN_MAP, {1, 2, 3, 4, 5}, 6, order, 0)
  {
    var m := BUILTIN_MAP;
    assert forall x :: BuiltinId(x) <==> x in m;
    forall x | x in m ensures m[x] == x && x in {1, 2, 3, 4, 5} {
    }
  }

  lemma SkipAssigned(m: map<Thing, Thing>, used: set<Thing>, next: nat, order: seq<nat>, i: nat)
    requires i < |order| && Assigned(m, used, next, order, i) && order[i] in m
    ensures Assigned(m, used, next, order, i + 1)
  {
    hide Remaps;
    hide InOrderOf;
    hide BuiltinId;
  }

  lemma AssignOne(m: map<Thing, Thing>, used: set<Thing>, next: nat, order: seq<nat>, i: nat, free: nat)
    requires i < |order| && Assigned(m, used, next, order, i) && Ascending(order) && order[i] !in m
    requires next >= 6 && free == (if next == order[i] then next + 1 else next) < U64
    ensures Assigned(m[order[i] := free], used + {free}, free + 1, order, i + 1)
  {
    var source := order[i];
    assert !BuiltinId(source);
    forall x | x in m ensures m[x] < free && (!BuiltinId(x) ==> x < source) {
      assert m[x] in used;
      if !BuiltinId(x) {
        var j :| 0 <= j < i && order[j] == x;
      }
    }
    RemapMore(m, source, free);
    PackedMore(m, next, source, free);
    hide Remaps;
    hide InOrderOf;
    hide BuiltinId;
    hide Packed;
    var more := m[source := free];
    forall x ensures x in more <==> BuiltinId(x) || exists j :: 0 <= j < i + 1 && order[j] == x {
      if x == source {
        assert order[i] == x;
      }
    }
  }

  lemma PackedMore(m: map<Thing, Thing>, next: nat, source: Thing, free: nat)
    requires Packed(m, next) && source !in m && free == if next == source then next + 1 else next
    ensures Packed(m[source := free], free + 1)
  {
    var more := m[source := free];
    forall n | 6 <= n < free + 1 ensures IsImage(more, n) || (n in more && more[n] == n + 1) {
      if n < next {
        if IsImage(m, n) {
          var x :| x in m && m[x] == n;
          assert more[x] == n;
        }
      } else if n == free {
        assert more[source] == n;
      }
    }
  }

  lemma PackedLess(m: map<Thing, Thing>, below: nat)
    requires Packed(m, below) && forall x :: x in m ==> m[x] < below
    ensures LeastImages(m)
  {
    hide IsImage;
  }

  lemma RemapMore(m: map<Thing, Thing>, source: Thing, free: nat)
    requires Remaps(m) && InOrderOf(m) && source !in m && !BuiltinId(source) && 6 <= free < U64 && free != source
    requires forall x :: x in m ==> m[x] < free && (!BuiltinId(x) ==> x < source)
    ensures Remaps(m[source := free]) && InOrderOf(m[source := free])
  {
  }

  /** Assigns new identities in ascending order of the old ones. */
  method BuildIdentityRemap(foreign: set<Thing>) returns (built: Result<map<Thing, Thing>, ImportError>)
    ensures built.Err? ==> built.error == Exhausted && 6 + 2 * |foreign| >= U64
    ensures built.Ok? ==> Remaps(built.value) && InOrderOf(built.value) && LeastImages(built.value)
    ensures built.Ok? ==> forall x :: x in built.value <==> BuiltinId(x) || x in foreign
  {
    hide Assigned;
    hide Remaps;
    hide InOrderOf;
    hide LeastImages;
    var used: set<Thing> := {1, 2, 3, 4, 5};
    var m: map<Thing, Thing> := BUILTIN_MAP;
    var next: nat := 6;
    var order := SortedIdentities(foreign);
    SortedAscends(foreign);
    SortedLength(foreign);
    SortedMembers(foreign);
    NothingAssigned(order);
    for i := 0 to |order|
      invariant Assigned(m, used, next, order, i) && 6 <= next <= 6 + 2 * i && next < U64
    {
      var source := order[i];
      if source in m {
        SkipAssigned(m, used, next, order, i);
        continue;
      }
      UsedBelow(m, used, next, order, i);
      var free := NextFree(next, used, source);
      if free.None? {
        return Err(Exhausted);
      }
      AssignOne(m, used, next, order, i, free.value);
      m := m[source := free.value];
      used := used + {free.value};
      if free.value + 1 >= U64 {
        return Err(Exhausted);
      }
      next := free.value + 1;
    }
    AllAssigned(m, used, next, order, foreign);
    return Ok(m);
  }

  lemma UsedBelow(m: map<Thing, Thing>, used: set<Thing>, next: nat, order: seq<nat>, i: nat)
    requires i <= |order| && Assigned(m, used, next, order, i)
    ensures forall u :: u in used ==> u < next
  {
  }

  lemma AllAssigned(m: map<Thing, Thing>, used: set<Thing>, next: nat, order: seq<nat>, foreign: set<Thing>)
    requires Assigned(m, used, next, order, |order|) && forall id :: id in order <==> id in foreign
    ensures Remaps(m) && InOrderOf(m) && LeastImages(m) && forall x :: x in m <==> BuiltinId(x) || x in foreign
  {
    hide Remaps;
    hide InOrderOf;
    PackedLess(m, next);
    hide Packed;
    hide LeastImages;
    hide BuiltinId;
    forall x ensures (exists j :: 0 <= j < |order| && order[j] == x) <==> x in foreign {
      assert x in order <==> x in foreign;
    }
  }

  lemma {:induction false} SortedMembers(ids: set<nat>)
    ensures forall id :: id in SortedOf(ids) <==> id in ids
    decreases |ids|
  {
    if ids != {} {
      SortedMembers(ids - {Least(ids)});
    }
  }

  // --------------------------------------------------------------- the transformed store

  function RoleImage(m: map<Thing, Thing>, r: Role): Role
    requires r.id in m
  {
    r.(id := m[r.id])
  }

  function SetImage(m: map<Thing, Thing>, appearanceSet: seq<Appearance>): (image: seq<Appearance>)
    requires forall a :: a in appearanceSet ==> a.role in m && a.thing in m
    ensures |image| == |appearanceSet| && forall i :: 0 <= i < |appearanceSet| ==> image[i] == Appearance(m[appearanceSet[i].thing], m[appearanceSet[i].role])
  {
    seq(|appearanceSet|, i requires 0 <= i < |appearanceSet| =>
      assert appearanceSet[i] in appearanceSet;
      Appearance(m[appearanceSet[i].thing], m[appearanceSet[i].role]))
  }

  /** A posit under its new identities, its appearances sorted again. */
  function PositImage(m: map<Thing, Thing>, p: Posit): Posit
    requires CoversPosit(m, p)
  {
    Posit(m[p.id], Sorted(SetImage(m, p.appearances)), p.value, p.time)
  }

  ghost predicate Covers(m: map<Thing, Thing>, s: LogicalStore) {
    (forall r :: r in s.roles ==> r.id in m) && forall p :: p in s.posits ==> CoversPosit(m, p)
  }

  predicate CoversPosit(m: map<Thing, Thing>, p: Posit) {
    p.id in m && forall a :: a in p.appearances ==> a.role in m && a.thing in m
  }

  function RoleImages(m: map<Thing, Thing>, roles: seq<Role>): (images: seq<Role>)
    requires forall r :: r in roles ==> r.id in m
    ensures |images| == |roles| && forall i :: 0 <= i < |roles| ==> images[i] == RoleImage(m, roles[i])
  {
    seq(|roles|, i requires 0 <= i < |roles| =>
      assert roles[i] in roles;
      RoleImage(m, roles[i]))
  }

  function PositImages(m: map<Thing, Thing>, posits: seq<Posit>): (images: seq<Posit>)
    requires forall p :: p in posits ==> CoversPosit(m, p)
    ensures |images| == |posits| && forall i :: 0 <= i < |posits| ==> CoversPosit(m, posits[i]) && images[i] == PositImage(m, posits[i])
  {
    seq(|posits|, i requires 0 <= i < |posits| =>
      assert posits[i] in posits;
      PositImage(m, posits[i]))
  }

  /** The same roles and posits under new identities. */
  ghost predicate Isomorphic(s: LogicalStore, t: LogicalStore, m: map<Thing, Thing>) {
    && Remaps(m) && Covers(m, s) && |t.roles| == |s.roles| && |t.posits| == |s.posits|
    && (forall i :: 0 <= i < |s.roles| ==> t.roles[i] == s.roles[i].(id := m[s.roles[i].id]))
    && (forall i :: 0 <= i < |s.posits| ==> SamePosit(s.posits[i], t.posits[i], m))
  }

  /** One posit under new identities: a thing plays a role here exactly when its image does there. */
  ghost predicate SamePosit(p: Posit, q: Posit, m: map<Thing, Thing>)
    requires CoversPosit(m, p)
  {
    && q.id == m[p.id] && q.value == p.value && q.time == p.time && |q.appearances| == |p.appearances| && Canonical(q.appearances)
    && (forall a :: a in p.appearances ==> Appearance(m[a.thing], m[a.role]) in q.appearances)
    && (forall b :: b in q.appearances ==> exists a :: a in p.appearances && b == Appearance(m[a.thing], m[a.role]))
  }

  lemma CoversForeign(m: map<Thing, Thing>, s: LogicalStore)
    requires Foreign(s) <= m.Keys
    ensures Covers(m, s)
  {
    forall r | r in s.roles ensures r.id in m {
      assert r.id in Foreign(s);
    }
    forall p | p in s.posits ensures CoversPosit(m, p) {
      assert p.id in Foreign(s);
      forall a | a in p.appearances ensures a.role in m && a.thing in m {
        assert a.role in Foreign(s) && a.thing in Foreign(s);
      }
    }
  }

  /** A canonical set stays canonical under an injective map, once sorted. */
  lemma ImageCanonical(m: map<Thing, Thing>, appearanceSet: seq<Appearance>)
    requires Remaps(m) && Canonical(appearanceSet) && forall a :: a in appearanceSet ==> a.role in m && a.thing in m
    ensures var image := Sorted(SetImage(m, appearanceSet));
            && Canonical(image) && !RepeatsRole(image) && |image| == |appearanceSet|
            && (forall a :: a in appearanceSet ==> Appearance(m[a.thing], m[a.role]) in image)
            && (forall b :: b in image ==> exists a :: a in appearanceSet && b == Appearance(m[a.thing], m[a.role]))
  {
    var (before, image) := (SetImage(m, appearanceSet), Sorted(SetImage(m, appearanceSet)));
    SortedHoldsTheSame(before);
    ImageRolesDistinct(m, appearanceSet);
    SortedKeepsDistinct(before);
    SortedCanonical(before);
    hide Sorted;
    hide Canonical;
    hide Remaps;
    forall a | a in appearanceSet ensures Appearance(m[a.thing], m[a.role]) in image {
      var i :| 0 <= i < |appearanceSet| && appearanceSet[i] == a;
      assert before[i] in before;
    }
    forall b | b in image ensures exists a :: a in appearanceSet && b == Appearance(m[a.thing], m[a.role]) {
      var i :| 0 <= i < |before| && before[i] == b;
      assert appearanceSet[i] in appearanceSet;
    }
  }

  lemma SortedHoldsTheSame(appearanceSet: seq<Appearance>)
    ensures |Sorted(appearanceSet)| == |appearanceSet| && forall b :: b in Sorted(appearanceSet) <==> b in appearanceSet
  {
    var image := Sorted(appearanceSet);
    assert |multiset(image)| == |multiset(appearanceSet)|;
    forall b ensures b in image <==> b in appearanceSet {
      assert b in image <==> b in multiset(image);
      assert b in appearanceSet <==> b in multiset(appearanceSet);
    }
  }

  ghost predicate DistinctRoles(appearanceSet: seq<Appearance>) {
    forall i, j :: 0 <= i < j < |appearanceSet| ==> appearanceSet[i].role != appearanceSet[j].role
  }

  lemma ImageRolesDistinct(m: map<Thing, Thing>, appearanceSet: seq<Appearance>)
    requires Remaps(m) && Canonical(appearanceSet) && forall a :: a in appearanceSet ==> a.role in m && a.thing in m
    ensures DistinctRoles(SetImage(m, appearanceSet))
  {
    forall i, j | 0 <= i < j < |appearanceSet| ensures SetImage(m, appearanceSet)[i].role != SetImage(m, appearanceSet)[j].role {
      assert appearanceSet[i] in appearanceSet && appearanceSet[j] in appearanceSet && appearanceSet[i].role != appearanceSet[j].role;
    }
  }

  lemma {:induction false} InsertKeepsDistinct(a: Appearance, sorted: seq<Appearance>)
    requires DistinctRoles(sorted) && forall b :: b in sorted ==> b.role != a.role
    ensures DistinctRoles(Insert(a, sorted))
  {
    if sorted != [] && PairLess(sorted[0], a) {
      var rest := Insert(a, sorted[1..]);
      InsertKeepsDistinct(a, sorted[1..]);
      forall b | b in rest ensures b.role != sorted[0].role {
        assert b in multiset(rest);
        assert b == a || b in sorted[1..];
        if b in sorted[1..] {
          var i :| 0 <= i < |sorted[1..]| && sorted[1..][i] == b;
          assert sorted[i + 1] == b;
        }
      }
    }
  }

  lemma {:induction false} SortedKeepsDistinct(appearanceSet: seq<Appearance>)
    requires DistinctRoles(appearanceSet)
    ensures DistinctRoles(Sorted(appearanceSet)) && !RepeatsRole(Sorted(appearanceSet))
  {
    if appearanceSet != [] {
      SortedKeepsDistinct(appearanceSet[1..]);
      var rest := Sorted(appearanceSet[1..]);
      forall b | b in rest ensures b.role != appearanceSet[0].role {
        assert b in multiset(rest);
        assert b in appearanceSet[1..];
        var i :| 0 <= i < |appearanceSet[1..]| && appearanceSet[1..][i] == b;
        assert appearanceSet[i + 1] == b;
      }
      InsertKeepsDistinct(appearanceSet[0], rest);
    }
  }

  /** A canonical set is determined by its members. */
  lemma CanonicalUnique(a: AppearanceSet, b: AppearanceSet)
    requires Canonical(a) && Canonical(b) && forall x :: x in a <==> x in b
    ensures a == b
  {
    var ra: seq<nat> := seq(|a|, i requires 0 <= i < |a| => a[i].role);
    var rb: seq<nat> := seq(|b|, i requires 0 <= i < |b| => b[i].role);
    forall r ensures r in ra <==> r in rb {
      if r in ra {
        var i :| 0 <= i < |a| && a[i].role == r;
        assert a[i] in b;
        var j :| 0 <= j < |b| && b[j] == a[i];
        assert rb[j] == r;
      }
      if r in rb {
        var j :| 0 <= j < |b| && b[j].role == r;
        assert b[j] in a;
        var i :| 0 <= i < |a| && a[i] == b[j];
        assert ra[i] == r;
      }
    }
    AscendingUnique(ra, rb);
    assert |ra| == |rb|;
    forall i | 0 <= i < |a| ensures a[i] == b[i] {
      assert a[i] in b;
      var j :| 0 <= j < |b| && b[j] == a[i];
      assert ra[i] == rb[i] && rb[j] == ra[i];
      assert !(i < j) && !(j < i);
    }
  }

  /** Different propositions stay different. */
  lemma ImagesDiffer(m: map<Thing, Thing>, p: Posit, q: Posit)
    requires Remaps(m) && CoversPosit(m, p) && CoversPosit(m, q) && Canonical(p.appearances) && Canonical(q.appearances)
    requires PropositionOf(PositImage(m, p)) == PropositionOf(PositImage(m, q))
    ensures PropositionOf(p) == PropositionOf(q)
  {
    ImageCanonical(m, p.appearances);
    ImageCanonical(m, q.appearances);
    SameImages(m, p.appearances, q.appearances);
    SameImages(m, q.appearances, p.appearances);
    CanonicalUnique(p.appearances, q.appearances);
  }

  lemma SameImages(m: map<Thing, Thing>, a: AppearanceSet, b: AppearanceSet)
    requires Remaps(m) && (forall x :: x in a ==> x.role in m && x.thing in m) && (forall x :: x in b ==> x.role in m && x.thing in m)
    requires Sorted(SetImage(m, a)) == Sorted(SetImage(m, b)) && Canonical(a) && Canonical(b)
    ensures forall x :: x in a ==> x in b
  {
    ImageCanonical(m, a);
    ImageCanonical(m, b);
    hide Sorted;
    hide RepeatsRole;
    forall x | x in a ensures x in b {
      var y :| y in b && Appearance(m[x.thing], m[x.role]) == Appearance(m[y.thing], m[y.role]);
      assert x == y;
    }
  }

  // ------------------------------------------------------------------ replaying an import

  /** Posits a replay can take one after another. */
  ghost predicate Takeable(s: ReplayState, posits: seq<Posit>, parse: Parser) {
    && s.codecs == ALL_CODECS
    && (forall p :: p in posits ==> Encodable(p, parse) && Persistable(p) && NewTo(s, p))
    && (forall i, j :: 0 <= i < j < |posits| ==> posits[i].id != posits[j].id && PropositionOf(posits[i]) != PropositionOf(posits[j]))
  }

  ghost predicate NewTo(s: ReplayState, p: Posit) {
    p.id !in s.constructIdentities && PropositionOf(p) !in s.propositions && forall a :: a in p.appearances ==> a.role in s.rolesByIdentity
  }

  function Taken(s: ReplayState, posits: seq<Posit>): ReplayState {
    if posits == [] then s
    else
      var t := Taken(s, posits[..|posits| - 1]);
      var p := posits[|posits| - 1];
      t.(constructIdentities := t.constructIdentities + {p.id}, propositions := t.propositions + {PropositionOf(p)}, posits := t.posits + [p])
  }

  lemma {:induction false} TakenHolds(s: ReplayState, posits: seq<Posit>)
    ensures var t := Taken(s, posits);
            && t.rolesByIdentity == s.rolesByIdentity && t.codecs == s.codecs && t.roles == s.roles && t.identitiesByName == s.identitiesByName
            && t.posits == s.posits + posits
            && (forall id :: id in t.constructIdentities <==> id in s.constructIdentities || exists p :: p in posits && p.id == id)
            && (forall x :: x in t.propositions <==> x in s.propositions || exists p :: p in posits && PropositionOf(p) == x)
  {
    hide PropositionOf;
    if posits == [] {
      assert s.posits + posits == s.posits;
    } else {
      var (init, last) := (posits[..|posits| - 1], posits[|posits| - 1]);
      TakenHolds(s, init);
      assert posits == init + [last];
      assert s.posits + init + [last] == s.posits + posits;
    }
  }

  lemma {:induction false} TakenAppend(s: ReplayState, a: seq<Posit>, b: seq<Posit>)
    ensures Taken(s, a + b) == Taken(Taken(s, a), b)
  {
    hide PropositionOf;
    if b == [] {
      assert a + b == a;
    } else {
      TakenAppend(s, a, b[..|b| - 1]);
      assert (a + b)[..|a + b| - 1] == a + b[..|b| - 1] && (a + b)[|a + b| - 1] == b[|b| - 1];
    }
  }

  lemma TakeableParts(s: ReplayState, a: seq<Posit>, b: seq<Posit>, parse: Parser)
    requires Takeable(s, a + b, parse)
    ensures Takeable(s, a, parse) && Takeable(Taken(s, a), b, parse)
  {
    hide Encodable;
    hide Persistable;
    hide PropositionOf;
    TakenHolds(s, a);
    hide Taken;
    var all := a + b;
    forall i, j | 0 <= i < j < |a| ensures a[i].id != a[j].id && PropositionOf(a[i]) != PropositionOf(a[j]) {
      assert all[i] == a[i] && all[j] == a[j];
    }
    forall i, j | 0 <= i < j < |b| ensures b[i].id != b[j].id && PropositionOf(b[i]) != PropositionOf(b[j]) {
      assert all[|a| + i] == b[i] && all[|a| + j] == b[j];
    }
    forall p | p in b ensures NewTo(Taken(s, a), p) && Encodable(p, parse) && Persistable(p) {
      assert p in all;
      var j :| 0 <= j < |b| && b[j] == p;
      assert all[|a| + j] == p;
      forall q | q in a ensures q.id != p.id && PropositionOf(q) != PropositionOf(p) {
        var i :| 0 <= i < |a| && a[i] == q;
        assert all[i] == q;
      }
    }
    forall p | p in a ensures p in all {
    }
  }

  lemma TakeOne(s: ReplayState, p: Posit, normal: Normalizer, parse: Parser)
    requires Takeable(s, [p], parse)
    ensures ApplyRecord(s, PositRecordOf(p), normal, parse) == Some(Taken(s, [p]))
  {
    assert p in [p];
    DecodesExactlyWhenPersistable(p, s.codecs, parse);
    hide DecodePosit;
    hide PositPayload;
    hide Encodable;
    hide Persistable;
    hide PropositionOf;
    assert [p][..0] == [];
    assert Taken(s, []) == s;
  }

  lemma TakeNone(s: ReplayState)
    ensures Taken(s, []) == s && PositBatch([]) == []
  {
    hide PositRecordOf;
    assert Taken(s, []) == s;
  }

  lemma {:induction false} TakeAll(s: ReplayState, posits: seq<Posit>, normal: Normalizer, parse: Parser)
    requires Takeable(s, posits, parse)
    ensures ApplyBatch(s, PositBatch(posits), normal, parse) == Some(Taken(s, posits))
  {
    hide Takeable;
    hide ApplyRecord;
    hide PositRecordOf;
    if posits == [] {
      TakeNone(s);
    } else {
      var (init, last) := (posits[..|posits| - 1], posits[|posits| - 1]);
      assert posits == init + [last];
      TakeableParts(s, init, [last], parse);
      hide Taken;
      hide ApplyBatch;
      hide PositBatch;
      TakeAll(s, init, normal, parse);
      TakeOne(Taken(s, init), last, normal, parse);
      TakenAppend(s, init, [last]);
      PositBatchSnoc(init, last);
      ApplyBatchSnoc(s, PositBatch(init), PositRecordOf(last), normal, parse);
    }
  }

  function Flat(groups: seq<seq<Posit>>): seq<Posit> {
    if groups == [] then [] else Flat(groups[..|groups| - 1]) + groups[|groups| - 1]
  }

  function PositBatches(groups: seq<seq<Posit>>): seq<seq<PendingRecord>> {
    if groups == [] then [] else PositBatches(groups[..|groups| - 1]) + [PositBatch(groups[|groups| - 1])]
  }

  /** However posits are grouped into batches, replay takes them all. */
  lemma {:induction false} TakeGroups(s: ReplayState, groups: seq<seq<Posit>>, normal: Normalizer, parse: Parser)
    requires Takeable(s, Flat(groups), parse)
    ensures ApplyBatches(s, PositBatches(groups), normal, parse) == Some(Taken(s, Flat(groups)))
  {
    hide ApplyBatch;
    hide Takeable;
    if groups != [] {
      var (init, last) := (groups[..|groups| - 1], groups[|groups| - 1]);
      TakeableParts(s, Flat(init), last, parse);
      TakeGroups(s, init, normal, parse);
      TakeAll(Taken(s, Flat(init)), last, normal, parse);
      TakenAppend(s, Flat(init), last);
      hide Taken;
      hide PositBatch;
      var batches := PositBatches(groups);
      assert batches[..|batches| - 1] == PositBatches(init) && batches[|batches| - 1] == PositBatch(last);
    }
  }

  lemma {:induction false} FirstBatch(batch: seq<PendingRecord>, rest: seq<seq<PendingRecord>>, s: ReplayState, normal: Normalizer, parse: Parser)
    requires ApplyBatch(NOTHING, batch, normal, parse) == Some(s)
    ensures ApplyBatches(NOTHING, [batch] + rest, normal, parse) == ApplyBatches(s, rest, normal, parse)
  {
    hide ApplyBatch;
    if rest == [] {
      OneBatch(batch, normal, parse);
      assert [batch] + rest == [batch];
    } else {
      FirstBatch(batch, rest[..|rest| - 1], s, normal, parse);
      var all := [batch] + rest;
      assert all[..|all| - 1] == [batch] + rest[..|rest| - 1] && all[|all| - 1] == rest[|rest| - 1];
    }
  }

  lemma {:induction false} RefusedFirst(batch: seq<PendingRecord>, rest: seq<seq<PendingRecord>>, normal: Normalizer, parse: Parser)
    requires ApplyBatch(NOTHING, batch, normal, parse).None?
    ensures ApplyBatches(NOTHING, [batch] + rest, normal, parse).None?
  {
    hide ApplyBatch;
    if rest == [] {
      OneBatch(batch, normal, parse);
      assert [batch] + rest == [batch];
    } else {
      RefusedFirst(batch, rest[..|rest| - 1], normal, parse);
      var all := [batch] + rest;
      assert all[..|all| - 1] == [batch] + rest[..|rest| - 1] && all[|all| - 1] == rest[|rest| - 1];
    }
  }

  // ------------------------------------------------------------------- role metadata

  function CodecRecords(): seq<PendingRecord> {
    [CodecRecord(RawUtf8), CodecRecord(CanonicalI64), CodecRecord(CanonicalCertainty)]
  }

  /** Within the machine's widths, with literals of their families. */
  ghost predicate Writeable(s: LogicalStore, parse: Parser) {
    && (forall r :: r in s.roles ==> r.id < U64 && ShortText(r.name))
    && (forall p :: p in s.posits ==> Encodable(p.(id := 1), parse) && p.id < U64)
  }

  ghost predicate CanonicalNames(s: LogicalStore, normal: Normalizer) {
    forall r :: r in s.roles ==> r.name != "" && normal(r.name) == r.name
  }

  lemma RoleReads(r: Role, normal: Normalizer)
    requires 0 < r.id < U64 && ShortText(r.name)
    ensures DecodeRole(RolePayload(r), normal) == if r.name != "" && normal(r.name) == r.name then Some(r) else None
  {
    hide Little;
    hide Number;
    hide Text;
    hide TakeText;
    Ranges();
    var name := Text(r.name);
    var flag: Bytes := [if r.reserved then 1 else 0];
    FixedWidthRoundTrip(r.id, 8, flag + name);
    assert (flag + name)[1..] == name;
    assert name == name + [];
    TextBijection(r.name, [], name);
    hide TakeNumber;
    hide ShortText;
  }

  /** One badly named role is enough for replay to refuse the whole batch. */
  lemma {:induction false} BadNameRefused(roles: seq<Role>, more: seq<PendingRecord>, i: nat, normal: Normalizer, parse: Parser)
    requires i < |roles| && (roles[i].name == "" || normal(roles[i].name) != roles[i].name)
    requires 0 < roles[i].id < U64 && ShortText(roles[i].name)
    ensures ApplyBatch(NOTHING, RoleBatch(roles) + more, normal, parse).None?
  {
    var batch := RoleBatch(roles) + more;
    RoleReads(roles[i], normal);
    assert batch[i] == RoleRecord(roles[i]);
    assert forall s :: ApplyRecord(s, batch[i], normal, parse).None? by {
      hide DecodeRole;
      hide RolePayload;
    }
    hide ApplyRecord;
    assert ApplyBatch(NOTHING, batch[..i + 1], normal, parse).None? by {
      assert batch[..i + 1][..i] == batch[..i] && batch[..i + 1][i] == batch[i];
    }
    AppliedPart(NOTHING, batch, i + 1, normal, parse);
  }

  lemma MetadataReplays(roles: seq<Role>, normal: Normalizer, parse: Parser)
    requires AllDistinct(roles) && forall r :: r in roles ==> ValidRole(r, normal)
    ensures AllRoles(NOTHING, roles).Some? && OnlyRoles(AllRoles(NOTHING, roles).value, roles)
    ensures ApplyBatch(NOTHING, RoleBatch(roles) + CodecRecords(), normal, parse) == Some(AllRoles(NOTHING, roles).value.(codecs := ALL_CODECS))
  {
    hide ValidRole;
    RolesApply(NOTHING, roles, normal, parse);
    RolesAllAdd(roles);
    hide AllDistinct;
    hide AllRoles;
    hide ApplyBatch;
    hide RoleBatch;
    hide CodecRecord;
    assert AllRoles(NOTHING, roles).value.codecs == {};
    ThreeCodecs(RoleBatch(roles), AllRoles(NOTHING, roles).value, normal, parse);
  }

  // ------------------------------------------------------------------ the whole import

  const IMPORT_BATCH_SIZE := 1024

  lemma RemapPositive(m: map<Thing, Thing>, x: Thing)
    requires Remaps(m) && x in m
    ensures 0 < m[x] < U64
  {
    if BuiltinId(x) {
      assert m[x] == x;
    }
  }

  lemma ImagesNamed(s: LogicalStore, m: map<Thing, Thing>, normal: Normalizer, parse: Parser)
    requires RolesUnique(s.roles) && Remaps(m) && Covers(m, s) && Writeable(s, parse) && CanonicalNames(s, normal)
    ensures AllDistinct(RoleImages(m, s.roles)) && forall r :: r in RoleImages(m, s.roles) ==> ValidRole(r, normal)
  {
    var images := RoleImages(m, s.roles);
    forall i, j | 0 <= i < j < |images| ensures images[i].id != images[j].id && images[i].name != images[j].name {
      assert s.roles[i] in s.roles && s.roles[j] in s.roles;
    }
    hide ShortText;
    forall r | r in images ensures ValidRole(r, normal) {
      var i :| 0 <= i < |images| && images[i] == r;
      assert s.roles[i] in s.roles;
      RemapPositive(m, s.roles[i].id);
    }
  }

  lemma GoodIsCanonical(appearanceSet: seq<Appearance>)
    requires GoodSet(appearanceSet) && PositCodec.Ordered(appearanceSet)
    ensures Canonical(appearanceSet)
  {
    SortedOfOrdered(appearanceSet);
    SortedCanonical(appearanceSet);
  }

  ghost predicate SortedSets(s: LogicalStore) {
    forall p :: p in s.posits ==> PositCodec.Ordered(p.appearances)
  }

  lemma ImageMembersFit(m: map<Thing, Thing>, appearanceSet: seq<Appearance>)
    requires Remaps(m) && Canonical(appearanceSet) && forall a :: a in appearanceSet ==> a.role in m && a.thing in m
    ensures forall b :: b in Sorted(SetImage(m, appearanceSet)) ==> 0 < b.role < U64 && 0 < b.thing < U64
  {
    ImageCanonical(m, appearanceSet);
    hide Sorted;
    hide RepeatsRole;
    forall b | b in Sorted(SetImage(m, appearanceSet)) ensures 0 < b.role < U64 && 0 < b.thing < U64 {
      var a :| a in appearanceSet && b == Appearance(m[a.thing], m[a.role]);
      RemapPositive(m, a.role);
      RemapPositive(m, a.thing);
    }
  }

  lemma EncodableLike(p: Posit, q: Posit, parse: Parser)
    requires Encodable(p, parse) && 0 < q.id < U64 && q.value == p.value
    requires q.appearances != [] && |q.appearances| == |p.appearances| && Canonical(q.appearances)
    requires forall b :: b in q.appearances ==> 0 < b.role < U64 && 0 < b.thing < U64
    ensures Encodable(q, parse) && Persistable(q)
  {
    hide LiteralBytes;
    hide Canonical;
  }

  /** The image of a posit can be written, replayed and told apart. */
  lemma ImageFits(m: map<Thing, Thing>, p: Posit, parse: Parser)
    requires Remaps(m) && CoversPosit(m, p) && GoodSet(p.appearances) && PositCodec.Ordered(p.appearances) && Encodable(p.(id := 1), parse)
    ensures Encodable(PositImage(m, p), parse) && Persistable(PositImage(m, p)) && SamePosit(p, PositImage(m, p), m)
  {
    hide Remaps;
    hide Sorted;
    hide RepeatsRole;
    hide PositCodec.Ordered;
    hide SetImage;
    hide Canonical;
    hide Encodable;
    hide Persistable;
    GoodIsCanonical(p.appearances);
    assert p.appearances != [];
    hide GoodSet;
    ImageCanonical(m, p.appearances);
    ImageMembersFit(m, p.appearances);
    RemapPositive(m, p.id);
    EncodableLike(p.(id := 1), PositImage(m, p), parse);
  }

  lemma NotARoleImage(s: LogicalStore, m: map<Thing, Thing>, id: Thing)
    requires Remaps(m) && Covers(m, s) && NotARole(s.roles, id) && id in m
    ensures forall r :: r in RoleImages(m, s.roles) ==> r.id != m[id]
  {
    var images := RoleImages(m, s.roles);
    forall r | r in images ensures r.id != m[id] {
      var i :| 0 <= i < |images| && images[i] == r;
      assert s.roles[i] in s.roles;
      assert s.roles[i].id != id;
    }
  }

  lemma RoleImageKnown(s: LogicalStore, m: map<Thing, Thing>, id: Thing, state: ReplayState)
    requires Covers(m, s) && IsRole(s.roles, id) && id in m && OnlyRoles(state, RoleImages(m, s.roles))
    ensures m[id] in state.rolesByIdentity
  {
    var r :| r in s.roles && r.id == id;
    var i :| 0 <= i < |s.roles| && s.roles[i] == r;
    assert RoleImages(m, s.roles)[i] in RoleImages(m, s.roles);
  }

  lemma NewAfterRoles(s: LogicalStore, m: map<Thing, Thing>, p: Posit, state: ReplayState)
    requires PositsUnique(s.roles, s.posits) && Remaps(m) && Covers(m, s) && p in s.posits
    requires OnlyRoles(state, RoleImages(m, s.roles)) && SamePosit(p, PositImage(m, p), m)
    ensures NewTo(state.(codecs := ALL_CODECS), PositImage(m, p))
  {
    var q := PositImage(m, p);
    NotARoleImage(s, m, p.id);
    hide Remaps;
    hide PositImage;
    hide GoodSet;
    hide PropositionOf;
    hide RoleImages;
    hide NotARole;
    hide IsRole;
    forall b | b in q.appearances ensures b.role in state.rolesByIdentity {
      var a :| a in p.appearances && b == Appearance(m[a.thing], m[a.role]);
      RoleImageKnown(s, m, a.role, state);
    }
  }

  lemma ImagesTakeable(s: LogicalStore, m: map<Thing, Thing>, state: ReplayState, parse: Parser)
    requires Importable(s) && Remaps(m) && Covers(m, s) && Writeable(s, parse) && SortedSets(s) && OnlyRoles(state, RoleImages(m, s.roles))
    ensures Takeable(state.(codecs := ALL_CODECS), PositImages(m, s.posits), parse)
    ensures forall i :: 0 <= i < |s.posits| ==> SamePosit(s.posits[i], PositImages(m, s.posits)[i], m)
  {
    hide OnlyRoles;
    hide HasBuiltin;
    hide RolesUnique;
    hide GoodSet;
    hide Encodable;
    hide Persistable;
    hide SamePosit;
    hide NewTo;
    var images := PositImages(m, s.posits);
    forall i | 0 <= i < |images|
      ensures Encodable(images[i], parse) && Persistable(images[i]) && NewTo(state.(codecs := ALL_CODECS), images[i]) && SamePosit(s.posits[i], images[i], m)
    {
      assert s.posits[i] in s.posits;
      ImageFits(m, s.posits[i], parse);
      NewAfterRoles(s, m, s.posits[i], state);
    }
    forall i, j | 0 <= i < j < |images| ensures images[i].id != images[j].id && PropositionOf(images[i]) != PropositionOf(images[j]) {
      assert s.posits[i] in s.posits && s.posits[j] in s.posits;
      ImagesApart(m, s.posits[i], s.posits[j]);
    }
  }

  lemma ImagesApart(m: map<Thing, Thing>, p: Posit, q: Posit)
    requires Remaps(m) && CoversPosit(m, p) && CoversPosit(m, q) && p.id != q.id && PropositionOf(p) != PropositionOf(q)
    requires GoodSet(p.appearances) && PositCodec.Ordered(p.appearances) && GoodSet(q.appearances) && PositCodec.Ordered(q.appearances)
    ensures PositImage(m, p).id != PositImage(m, q).id && PropositionOf(PositImage(m, p)) != PropositionOf(PositImage(m, q))
  {
    GoodIsCanonical(p.appearances);
    GoodIsCanonical(q.appearances);
    if PropositionOf(PositImage(m, p)) == PropositionOf(PositImage(m, q)) {
      ImagesDiffer(m, p, q);
    }
  }

  function ImportBatches(roles: seq<Role>, groups: seq<seq<Posit>>): seq<seq<PendingRecord>> {
    [RoleBatch(roles) + CodecRecords()] + PositBatches(groups)
  }

  lemma BuiltinImages(s: LogicalStore, m: map<Thing, Thing>, b: Role)
    requires Remaps(m) && Covers(m, s) && HasBuiltin(s.roles, b) && BuiltinId(b.id)
    ensures HasBuiltin(RoleImages(m, s.roles), b)
  {
    var r :| r in s.roles && r.id == b.id && r.name == b.name && r.reserved;
    var i :| 0 <= i < |s.roles| && s.roles[i] == r;
    assert RoleImages(m, s.roles)[i] in RoleImages(m, s.roles);
  }

  lemma BuiltinsAccepted(state: ReplayState, b: Role)
    requires RoleTables(state.roles, state.rolesByIdentity, state.identitiesByName) && HasBuiltin(state.roles, b)
    ensures Builtin(state, b)
  {
    RoleMapHolds(state.roles);
    var r :| r in state.roles && r.id == b.id && r.name == b.name && r.reserved;
    assert state.rolesByIdentity[b.id] == r;
  }

  /** Replaying what an import wrote gives back exactly what it meant to write. */
  lemma ImportReplays(s: LogicalStore, m: map<Thing, Thing>, groups: seq<seq<Posit>>, normal: Normalizer, parse: Parser)
    requires Importable(s) && Remaps(m) && Covers(m, s) && Writeable(s, parse) && SortedSets(s) && CanonicalNames(s, normal)
    requires Flat(groups) == PositImages(m, s.posits)
    ensures ReplayLogical(ImportBatches(RoleImages(m, s.roles), groups), normal, parse)
            == Some(ReplayedStore(RoleImages(m, s.roles), PositImages(m, s.posits), true))
  {
    hide RolesUnique;
    hide PositsUnique;
    hide HasBuiltin;
    hide Takeable;
    hide AllDistinct;
    hide AllRoles;
    hide OnlyRoles;
    hide ApplyBatch;
    hide ApplyBatches;
    hide ValidRole;
    hide CodecRecords;
    var (roles, posits) := (RoleImages(m, s.roles), PositImages(m, s.posits));
    ImagesNamed(s, m, normal, parse);
    MetadataReplays(roles, normal, parse);
    var state := AllRoles(NOTHING, roles).value;
    var start := state.(codecs := ALL_CODECS);
    ImagesTakeable(s, m, state, parse);
    TakeGroups(start, groups, normal, parse);
    FirstBatch(RoleBatch(roles) + CodecRecords(), PositBatches(groups), start, normal, parse);
    OnlyTheseRoles(state, roles);
    TakenHolds(start, posits);
    hide Taken;
    hide RoleBatch;
    hide PositBatches;
    var last := Taken(start, posits);
    assert ApplyBatches(NOTHING, ImportBatches(roles, groups), normal, parse) == Some(last);
    ReplayConsistent(ImportBatches(roles, groups), normal, parse);
    assert [] + posits == posits;
    Finishes(s, m, last);
  }

  lemma OnlyTheseRoles(state: ReplayState, roles: seq<Role>)
    requires OnlyRoles(state, roles)
    ensures state.roles == roles && state.posits == []
  {
  }

  lemma Finishes(s: LogicalStore, m: map<Thing, Thing>, last: ReplayState)
    requires Importable(s) && Remaps(m) && Covers(m, s) && Replay.Consistent(last)
    requires last.roles == RoleImages(m, s.roles) && last.codecs == ALL_CODECS
    ensures Finish(last) == Some(ReplayedStore(last.roles, last.posits, true))
  {
    hide RolesUnique;
    hide PositsUnique;
    hide HasBuiltin;
    hide Builtin;
    hide RoleTables;
    forall b | b in BUILTIN_ROLES ensures Builtin(last, b) {
      assert HasBuiltin(s.roles, b);
      BuiltinImages(s, m, b);
      BuiltinsAccepted(last, b);
    }
  }

  lemma ImportRefused(s: LogicalStore, m: map<Thing, Thing>, groups: seq<seq<Posit>>, normal: Normalizer, parse: Parser)
    requires Remaps(m) && Covers(m, s) && Writeable(s, parse) && !CanonicalNames(s, normal)
    ensures ReplayLogical(ImportBatches(RoleImages(m, s.roles), groups), normal, parse).None?
  {
    hide ApplyBatch;
    hide ApplyBatches;
    hide ShortText;
    hide RoleBatch;
    hide CodecRecords;
    hide PositBatches;
    var roles := RoleImages(m, s.roles);
    var r :| r in s.roles && !(r.name != "" && normal(r.name) == r.name);
    var i :| 0 <= i < |s.roles| && s.roles[i] == r;
    RemapPositive(m, r.id);
    BadNameRefused(roles, CodecRecords(), i, normal, parse);
    RefusedFirst(RoleBatch(roles) + CodecRecords(), PositBatches(groups), normal, parse);
  }

  /** The transformed posits, written in batches of a fixed size. */
  method TransformPositsInBatches(m: map<Thing, Thing>, posits: seq<Posit>) returns (groups: seq<seq<Posit>>)
    requires forall p :: p in posits ==> CoversPosit(m, p)
    ensures Flat(groups) == PositImages(m, posits)
    ensures forall g :: g in groups ==> 0 < |g| <= IMPORT_BATCH_SIZE
  {
    hide PositImage;
    hide CoversPosit;
    groups := [];
    var pending: seq<Posit> := [];
    for i := 0 to |posits|
      invariant Flat(groups) + pending == PositImages(m, posits)[..i] && |pending| < IMPORT_BATCH_SIZE
      invariant forall g :: g in groups ==> 0 < |g| <= IMPORT_BATCH_SIZE
    {
      assert posits[i] in posits;
      pending := pending + [PositImage(m, posits[i])];
      assert PositImages(m, posits)[..i + 1] == PositImages(m, posits)[..i] + [PositImages(m, posits)[i]];
      assert Flat(groups) + pending == PositImages(m, posits)[..i + 1];
      if |pending| == IMPORT_BATCH_SIZE {
        FlatSnoc(groups, pending);
        groups := groups + [pending];
        pending := [];
        assert Flat(groups) + [] == Flat(groups);
      }
    }
    assert PositImages(m, posits)[..|posits|] == PositImages(m, posits);
    if pending != [] {
      FlatSnoc(groups, pending);
      groups := groups + [pending];
    } else {
      assert Flat(groups) + [] == Flat(groups);
    }
  }

  lemma FlatSnoc(groups: seq<seq<Posit>>, group: seq<Posit>)
    ensures Flat(groups + [group]) == Flat(groups) + group
  {
    assert (groups + [group])[..|groups|] == groups;
  }

  /**
   Imports a logical store: validate, rename, write, replay and compare.  The comparison at
   the end never fails; replay itself refuses exactly the stores with a name that is empty or
   not in canonical form, which validation lets through.
   */
  method ImportStore(s: LogicalStore, normal: Normalizer, parse: Parser)
    returns (imported: Result<(seq<seq<PendingRecord>>, LogicalStore, map<Thing, Thing>), ImportError>)
    requires Writeable(s, parse) && SortedSets(s)
    ensures imported == Err(Invalid) <==> !Importable(s)
    ensures imported.Err? ==> imported.error in {Invalid, Exhausted, Unreplayable}
    ensures imported == Err(Exhausted) ==> 6 + 2 * |Foreign(s)| >= U64
    ensures imported == Err(Unreplayable) ==> !CanonicalNames(s, normal)
    ensures imported.Ok? ==>
              var (batches, t, m) := imported.value;
              && CanonicalNames(s, normal) && Isomorphic(s, t, m) && InOrderOf(m) && LeastImages(m)
              && ReplayLogical(batches, normal, parse) == Some(ReplayedStore(t.roles, t.posits, true))
  {
    hide Importable;
    hide Writeable;
    hide SortedSets;
    hide CanonicalNames;
    hide Remaps;
    hide InOrderOf;
    hide LeastImages;
    hide Foreign;
    hide ReplayLogical;
    hide PositImages;
    hide RoleImages;
    hide SamePosit;
    hide Covers;
    var valid := ValidateImported(s);
    if !valid {
      return Err(Invalid);
    }
    var remap := BuildIdentityRemap(Foreign(s));
    if remap.Err? {
      return Err(remap.error);
    }
    var m := remap.value;
    CoversForeign(m, s);
    CoversParts(m, s);
    var roles := RoleImages(m, s.roles);
    var groups := TransformPositsInBatches(m, s.posits);
    var posits := PositImages(m, s.posits);
    var batches := ImportBatches(roles, groups);
    assert CanonicalNames(s, normal) || !CanonicalNames(s, normal);
    if CanonicalNames(s, normal) {
      ImportReplays(s, m, groups, normal, parse);
      ImportIsIsomorphic(s, m, normal, parse);
    } else {
      ImportRefused(s, m, groups, normal, parse);
    }
    var replayed, _ := ReplayCommitted(batches, normal, parse);
    if replayed.None? {
      return Err(Unreplayable);
    }
    if replayed.value.roles != roles || replayed.value.posits != posits {
      return Err(Unverified);
    }
    return Ok((batches, LogicalStore(roles, posits), m));
  }

  lemma CoversParts(m: map<Thing, Thing>, s: LogicalStore)
    requires Covers(m, s)
    ensures (forall r :: r in s.roles ==> r.id in m) && forall p :: p in s.posits ==> CoversPosit(m, p)
  {
  }

  lemma ImportIsIsomorphic(s: LogicalStore, m: map<Thing, Thing>, normal: Normalizer, parse: Parser)
    requires Importable(s) && Remaps(m) && Covers(m, s) && Writeable(s, parse) && SortedSets(s) && CanonicalNames(s, normal)
    ensures Isomorphic(s, LogicalStore(RoleImages(m, s.roles), PositImages(m, s.posits)), m)
  {
    hide Remaps;
    hide RolesUnique;
    hide PositsUnique;
    hide SamePosit;
    hide OnlyRoles;
    ImagesNamed(s, m, normal, parse);
    RolesAllAdd(RoleImages(m, s.roles));
    ImagesTakeable(s, m, AllRoles(NOTHING, RoleImages(m, s.roles)).value, parse);
    hide Takeable;
    hide AllRoles;
    CoversParts(m, s);
  }

  // ----------------------------------------------------------------------- the export

  ghost predicate ByIdentity(s: LogicalStore) {
    (forall i, j :: 0 <= i < j < |s.roles| ==> s.roles[i].id < s.roles[j].id)
    && forall i, j :: 0 <= i < j < |s.posits| ==> s.posits[i].id < s.posits[j].id
  }

  /** Everything replayed, once each, in ascending order of identity. */
  ghost predicate Exports(replayed: ReplayedStore, s: LogicalStore) {
    && ByIdentity(s)
    && (forall r :: r in s.roles <==> r in replayed.roles) && forall p :: p in s.posits <==> p in replayed.posits
  }

  /** The values of an index in ascending order of their keys. */
  method Listed<T>(index: map<Thing, T>) returns (list: seq<T>, ids: seq<nat>)
    ensures Ascending(ids) && |list| == |ids| && (forall id :: id in ids <==> id in index)
    ensures forall j :: 0 <= j < |ids| ==> ids[j] in index && list[j] == index[ids[j]]
  {
    ids := SortedIdentities(index.Keys);
    SortedAscends(index.Keys);
    SortedMembers(index.Keys);
    list := [];
    for i := 0 to |ids|
      invariant |list| == i && forall j :: 0 <= j < i ==> ids[j] in index && list[j] == index[ids[j]]
    {
      assert ids[i] in ids;
      list := list + [index[ids[i]]];
    }
  }

  method ExportRoles(all: seq<Role>, ghost r: ReplayState) returns (roles: seq<Role>)
    requires Replay.Consistent(r) && all == r.roles
    ensures (forall x :: x in roles <==> x in all) && forall i, j :: 0 <= i < j < |roles| ==> roles[i].id < roles[j].id
  {
    RolesByIdentity(r);
    hide Replay.Consistent;
    hide RoleMap;
    var ids;
    roles, ids := Listed(RoleMap(all));
    ListedRoles(RoleMap(all), roles, ids, all);
  }

  method ExportPosits(all: seq<Posit>, ghost r: ReplayState) returns (posits: seq<Posit>)
    requires Replay.Consistent(r) && all == r.posits
    ensures (forall x :: x in posits <==> x in all) && forall i, j :: 0 <= i < j < |posits| ==> posits[i].id < posits[j].id
  {
    PositsByIdentity(r);
    hide Replay.Consistent;
    hide PositMap;
    var ids;
    posits, ids := Listed(PositMap(all));
    ListedPosits(PositMap(all), posits, ids, all);
  }

  /** Writes out the roles, then the posits, each sorted by identity. */
  method ExportStore(replayed: ReplayedStore, ghost r: ReplayState) returns (s: LogicalStore)
    requires Replay.Consistent(r) && replayed.roles == r.roles && replayed.posits == r.posits
    ensures Exports(replayed, s)
  {
    hide Replay.Consistent;
    hide RoleMap;
    hide PositMap;
    var roles := ExportRoles(replayed.roles, r);
    var posits := ExportPosits(replayed.posits, r);
    return LogicalStore(roles, posits);
  }

  lemma ListedRoles(index: map<Thing, Role>, list: seq<Role>, ids: seq<nat>, all: seq<Role>)
    requires Ascending(ids) && |list| == |ids| && (forall id :: id in ids <==> id in index)
    requires forall j :: 0 <= j < |ids| ==> ids[j] in index && list[j] == index[ids[j]]
    requires forall x :: x in all ==> x.id in index && index[x.id] == x
    requires forall id :: id in index ==> index[id] in all && index[id].id == id
    ensures (forall x :: x in list <==> x in all) && forall i, j :: 0 <= i < j < |list| ==> list[i].id < list[j].id
  {
    forall x | x in all ensures x in list {
      assert x.id in ids;
      var j :| 0 <= j < |ids| && ids[j] == x.id;
      assert list[j] == x;
    }
  }

  lemma ListedPosits(index: map<Thing, Posit>, list: seq<Posit>, ids: seq<nat>, all: seq<Posit>)
    requires Ascending(ids) && |list| == |ids| && (forall id :: id in ids <==> id in index)
    requires forall j :: 0 <= j < |ids| ==> ids[j] in index && list[j] == index[ids[j]]
    requires forall x :: x in all ==> x.id in index && index[x.id] == x
    requires forall id :: id in index ==> index[id] in all && index[id].id == id
    ensures (forall x :: x in list <==> x in all) && forall i, j :: 0 <= i < j < |list| ==> list[i].id < list[j].id
  {
    forall x | x in all ensures x in list {
      assert x.id in ids;
      var j :| 0 <= j < |ids| && ids[j] == x.id;
      assert list[j] == x;
    }
  }

  lemma RolesByIdentity(r: ReplayState)
    requires Replay.Consistent(r)
    ensures forall x :: x in r.roles ==> x.id in RoleMap(r.roles) && RoleMap(r.roles)[x.id] == x
    ensures forall id :: id in RoleMap(r.roles) ==> RoleMap(r.roles)[id] in r.roles && RoleMap(r.roles)[id].id == id
  {
    assert RoleTables(r.roles, r.rolesByIdentity, r.identitiesByName);
    RoleMapHolds(r.roles);
  }

  lemma PositsByIdentity(r: ReplayState)
    requires Replay.Consistent(r)
    ensures forall x :: x in r.posits ==> x.id in PositMap(r.posits) && PositMap(r.posits)[x.id] == x
    ensures forall id :: id in PositMap(r.posits) ==> PositMap(r.posits)[id] in r.posits && PositMap(r.posits)[id].id == id
  {
    assert Propositional(r.posits, r.propositions);
    PositMapHolds(r.posits);
  }

  /** What decoding alone already guarantees of every replayed construct. */
  ghost predicate WellRead(r: ReplayState, normal: Normalizer) {
    && (forall q :: q in r.roles ==> q.id != GENESIS && q.name != "" && normal(q.name) == q.name)
    && (forall p :: p in r.posits ==> p.id != GENESIS)
  }

  lemma {:induction false} BatchWellRead(s: ReplayState, batch: seq<PendingRecord>, r: ReplayState, normal: Normalizer, parse: Parser)
    requires WellRead(s, normal) && ApplyBatch(s, batch, normal, parse) == Some(r)
    ensures WellRead(r, normal)
  {
    if batch != [] {
      var (init, last) := (batch[..|batch| - 1], batch[|batch| - 1]);
      var t := ApplyBatch(s, init, normal, parse).value;
      BatchWellRead(s, init, t, normal, parse);
      RecordWellRead(t, last, normal, parse);
    }
  }

  lemma RecordWellRead(s: ReplayState, record: PendingRecord, normal: Normalizer, parse: Parser)
    requires WellRead(s, normal) && ApplyRecord(s, record, normal, parse).Some?
    ensures WellRead(ApplyRecord(s, record, normal, parse).value, normal)
  {
    hide DecodeCodec;
    hide TakeNumber;
    hide TakeText;
    hide TakeUleb;
    hide TakeAppearances;
    hide DecodeValue;
    if record.kind == RECORD_POSIT {
      DecodedIdentity(record.payload, s.codecs, parse);
      hide DecodePosit;
    }
  }

  lemma DecodedIdentity(payload: Bytes, declared: set<Codec>, parse: Parser)
    requires DecodePosit(payload, declared, parse).Some?
    ensures DecodePosit(payload, declared, parse).value.id != GENESIS
  {
    hide TakeNumber;
    hide TakeUleb;
    hide TakeAppearances;
    hide Ascends;
  }

  lemma {:induction false} ReplayWellRead(batches: seq<seq<PendingRecord>>, r: ReplayState, normal: Normalizer, parse: Parser)
    requires ApplyBatches(NOTHING, batches, normal, parse) == Some(r)
    ensures WellRead(r, normal)
  {
    hide ApplyBatch;
    if batches != [] {
      var init := batches[..|batches| - 1];
      var s := ApplyBatches(NOTHING, init, normal, parse).value;
      ReplayWellRead(init, s, normal, parse);
      BatchWellRead(s, batches[|batches| - 1], r, normal, parse);
    }
  }

  lemma ExportedRoles(r: ReplayState, s: LogicalStore, normal: Normalizer)
    requires Replay.Consistent(r) && WellRead(r, normal) && ByIdentity(s) && forall q :: q in s.roles <==> q in r.roles
    ensures RolesUnique(s.roles) && CanonicalNames(s, normal)
  {
    RolesByIdentity(r);
    assert RoleTables(r.roles, r.rolesByIdentity, r.identitiesByName);
    hide RoleMap;
    forall i, j | 0 <= i < j < |s.roles| ensures s.roles[i].id != s.roles[j].id && s.roles[i].name != s.roles[j].name {
      assert s.roles[i] in s.roles && s.roles[j] in s.roles;
    }
  }

  lemma ExportedPosit(r: ReplayState, roles: seq<Role>, p: Posit)
    requires Replay.Consistent(r) && p in r.posits && Persistable(p) && forall q :: q in roles <==> q in r.roles
    ensures GoodSet(p.appearances) && NotARole(roles, p.id) && PositCodec.Ordered(p.appearances)
    ensures forall a :: a in p.appearances ==> IsRole(roles, a.role)
  {
    RolesByIdentity(r);
    PositsByIdentity(r);
    assert RoleTables(r.roles, r.rolesByIdentity, r.identitiesByName) && RolesKnown(r.posits, r.rolesByIdentity.Keys);
    hide RoleMap;
    hide PositMap;
    hide Propositional;
    CanonicalIsGood(p.appearances);
    forall a | a in p.appearances ensures IsRole(roles, a.role) {
      var q := r.rolesByIdentity[a.role];
      assert q in roles && q.id == a.role;
    }
  }

  lemma ExportedPosits(r: ReplayState, s: LogicalStore, normal: Normalizer)
    requires Replay.Consistent(r) && WellRead(r, normal) && ByIdentity(s) && (forall p :: p in r.posits ==> Persistable(p))
    requires (forall q :: q in s.roles <==> q in r.roles) && forall p :: p in s.posits <==> p in r.posits
    ensures PositsUnique(s.roles, s.posits) && SortedSets(s)
  {
    forall p | p in s.posits
      ensures p.id != GENESIS && GoodSet(p.appearances) && NotARole(s.roles, p.id) && PositCodec.Ordered(p.appearances)
      ensures forall a :: a in p.appearances ==> IsRole(s.roles, a.role)
    {
      ExportedPosit(r, s.roles, p);
    }
    hide WellRead;
    hide Persistable;
    hide GoodSet;
    hide PositCodec.Ordered;
    hide RoleTables;
    hide RolesKnown;
    hide PositMap;
    forall i, j | 0 <= i < j < |s.posits| ensures s.posits[i].id != s.posits[j].id && PropositionOf(s.posits[i]) != PropositionOf(s.posits[j]) {
      assert s.posits[i] in s.posits && s.posits[j] in s.posits;
      DifferentPosits(r, s.posits[i], s.posits[j]);
    }
  }

  lemma CanonicalIsGood(appearanceSet: AppearanceSet)
    requires Canonical(appearanceSet) && appearanceSet != [] && forall a :: a in appearanceSet ==> a.role != GENESIS && a.thing != GENESIS
    ensures GoodSet(appearanceSet) && PositCodec.Ordered(appearanceSet)
  {
  }

  lemma DifferentPosits(r: ReplayState, p: Posit, q: Posit)
    requires Propositional(r.posits, r.propositions) && p in r.posits && q in r.posits && p.id != q.id
    ensures PropositionOf(p) != PropositionOf(q)
  {
    hide PropositionOf;
    var i :| 0 <= i < |r.posits| && r.posits[i] == p;
    var j :| 0 <= j < |r.posits| && r.posits[j] == q;
    assert i < j || j < i;
  }

  /**
   An export of a store that replays is importable exactly when the store was bootstrapped;
   and every name in it is canonical and every set sorted.
   */
  lemma ExportsImport(batches: seq<seq<PendingRecord>>, r: ReplayState, replayed: ReplayedStore, s: LogicalStore, normal: Normalizer, parse: Parser)
    requires ApplyBatches(NOTHING, batches, normal, parse) == Some(r) && Finish(r) == Some(replayed) && Exports(replayed, s)
    ensures Importable(s) <==> replayed.hasRequiredCodecs
    ensures CanonicalNames(s, normal) && SortedSets(s)
  {
    hide ApplyBatches;
    ReplayConsistent(batches, normal, parse);
    ReplayWellRead(batches, r, normal, parse);
    AllReadBack(batches, r, normal, parse);
    hide Persistable;
    hide WellRead;
    ExportedRoles(r, s, normal);
    ExportedPosits(r, s, normal);
    hide RolesUnique;
    hide PositsUnique;
    if replayed.hasRequiredCodecs {
      BuiltinsExported(r, s);
    } else {
      NothingExported(r, s);
    }
  }

  /** A store that was created but never bootstrapped has no built-in roles to export. */
  lemma NothingExported(r: ReplayState, s: LogicalStore)
    requires Finish(r).Some? && !Finish(r).value.hasRequiredCodecs && forall q :: q in s.roles <==> q in r.roles
    ensures !Importable(s)
  {
    var b := BUILTIN_ROLES[0];
    assert b in BUILTIN_ROLES && forall q :: q !in s.roles;
    assert !HasBuiltin(s.roles, b);
  }

  /** Such a store exists: no batch was ever appended. */
  lemma NewStoreIsNotImportable(normal: Normalizer, parse: Parser)
    ensures ReplayLogical([], normal, parse) == Some(ReplayedStore([], [], false))
    ensures Exports(ReplayedStore([], [], false), LogicalStore([], [])) && !Importable(LogicalStore([], []))
  {
    assert RawUtf8 in ALL_CODECS && RawUtf8 !in NOTHING.codecs;
    NothingExported(NOTHING, LogicalStore([], []));
  }

  lemma BuiltinsExported(r: ReplayState, s: LogicalStore)
    requires Replay.Consistent(r) && Finish(r).Some? && Finish(r).value.hasRequiredCodecs && forall q :: q in s.roles <==> q in r.roles
    ensures forall b :: b in BUILTIN_ROLES ==> HasBuiltin(s.roles, b)
  {
    RolesByIdentity(r);
    assert RawUtf8 in ALL_CODECS && RawUtf8 in r.codecs;
    assert RoleTables(r.roles, r.rolesByIdentity, r.identitiesByName);
    hide RoleMap;
    forall b | b in BUILTIN_ROLES ensures HasBuiltin(s.roles, b) {
      assert Builtin(r, b);
      var q := r.rolesByIdentity[b.id];
      assert q in s.roles;
    }
  }
}
