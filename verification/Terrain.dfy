/**
 Terrain frames: the things that appear, the profile of single-role attributes each one
 has, how many things support each combination, and how relationships divide by profile.
 */
module Terrain {
  import opened Prelude
  import opened Bits
  import Sequences
  import opened Constructs

  const MAX_COUNT: nat := 0xffff_ffff_ffff_ffff

  datatype TerrainError = ResourceLimit | Overflow | Invariant

  datatype Limits = Limits(appearanceSets: nat, arity: nat, endpointThings: nat, allocations: nat)

  /** The things a frame counts, what attributes they have, and its relationships by their roles. */
  datatype FrameWork = FrameWork(
    endpointThings: set<Thing>,
    attributeThings: map<Thing, set<Thing>>,
    signatures: map<seq<Thing>, seq<AppearanceSet>>,
    profileMasks: map<Thing, nat>)

  // -------------------------------------------------------------------- frame work

  function Roles(appearanceSet: AppearanceSet): (roles: seq<Thing>)
    ensures |roles| == |appearanceSet| && forall i :: 0 <= i < |appearanceSet| ==> roles[i] == appearanceSet[i].role
  {
    seq(|appearanceSet|, i requires 0 <= i < |appearanceSet| => appearanceSet[i].role)
  }

  ghost function Appearing(sets: set<AppearanceSet>): set<Thing> {
    set s: AppearanceSet, a | s in sets && a in s :: a.thing
  }

  ghost function AttributeOf(sets: set<AppearanceSet>, role: Thing): set<Thing> {
    set s: AppearanceSet | s in sets && |s| == 1 && s[0].role == role :: s[0].thing
  }

  predicate Once(sets: seq<AppearanceSet>) {
    forall i, j :: 0 <= i < j < |sets| ==> sets[i] != sets[j]
  }

  /** Relationship sets are filed once each under the list of their roles. */
  ghost predicate Filed(signatures: map<seq<Thing>, seq<AppearanceSet>>, sets: set<AppearanceSet>) {
    && (forall sig, s :: sig in signatures && s in signatures[sig] ==> s in sets && |s| >= 2 && Roles(s) == sig)
    && (forall s :: s in sets && |s| >= 2 ==> Roles(s) in signatures && s in signatures[Roles(s)])
    && (forall sig :: sig in signatures ==> signatures[sig] != [] && Once(signatures[sig]))
  }

  /** A frame says exactly what its distinct appearance sets say. */
  ghost predicate FrameOf(frame: FrameWork, sets: set<AppearanceSet>) {
    && frame.endpointThings == Appearing(sets)
    && (forall role :: Posting(frame.attributeThings, role) == AttributeOf(sets, role))
    && Filed(frame.signatures, sets)
  }

  lemma AppearingMore(sets: set<AppearanceSet>, appearanceSet: AppearanceSet)
    ensures Appearing(sets + {appearanceSet}) == Appearing(sets) + (set a | a in appearanceSet :: a.thing)
  {
  }

  lemma AttributeMore(sets: set<AppearanceSet>, appearanceSet: AppearanceSet, role: Thing)
    ensures AttributeOf(sets + {appearanceSet}, role) == AttributeOf(sets, role) + (if |appearanceSet| == 1 && appearanceSet[0].role == role then {appearanceSet[0].thing} else {})
  {
    if |appearanceSet| == 1 && appearanceSet[0].role == role {
      assert appearanceSet in sets + {appearanceSet};
      assert appearanceSet[0].thing in AttributeOf(sets + {appearanceSet}, role);
    }
  }

  function File(signatures: map<seq<Thing>, seq<AppearanceSet>>, appearanceSet: AppearanceSet): map<seq<Thing>, seq<AppearanceSet>> {
    var sig := Roles(appearanceSet);
    signatures[sig := (if sig in signatures then signatures[sig] else []) + [appearanceSet]]
  }

  lemma FiledMore(signatures: map<seq<Thing>, seq<AppearanceSet>>, sets: set<AppearanceSet>, appearanceSet: AppearanceSet)
    requires Filed(signatures, sets) && appearanceSet !in sets && |appearanceSet| >= 2
    ensures Filed(File(signatures, appearanceSet), sets + {appearanceSet})
  {
    var (sig, more, all) := (Roles(appearanceSet), File(signatures, appearanceSet), sets + {appearanceSet});
    var before := if sig in signatures then signatures[sig] else [];
    assert Once(before) && forall s :: s in before ==> s in sets && |s| >= 2 && Roles(s) == sig;
    OnceMore(before, appearanceSet);
    hide Roles;
    hide Once;
    assert more == signatures[sig := before + [appearanceSet]];
    hide File;
    forall sig', s | sig' in more && s in more[sig'] ensures s in all && |s| >= 2 && Roles(s) == sig' {
      if sig' != sig {
        assert s in signatures[sig'];
      }
    }
    forall s | s in all && |s| >= 2 ensures Roles(s) in more && s in more[Roles(s)] {
      if s in sets {
        assert s in signatures[Roles(s)];
      }
    }
  }

  lemma OnceMore(before: seq<AppearanceSet>, appearanceSet: AppearanceSet)
    requires Once(before) && appearanceSet !in before
    ensures Once(before + [appearanceSet])
  {
  }

  lemma NotFiled(signatures: map<seq<Thing>, seq<AppearanceSet>>, sets: set<AppearanceSet>, appearanceSet: AppearanceSet)
    requires Filed(signatures, sets) && |appearanceSet| < 2
    ensures Filed(signatures, sets + {appearanceSet})
  {
    hide Roles;
  }

  /** A frame with one more distinct set: its things, its one attribute or its relationship. */
  function WithSet(frame: FrameWork, appearanceSet: AppearanceSet): FrameWork {
    frame.(
      endpointThings := frame.endpointThings + (set a | a in appearanceSet :: a.thing),
      attributeThings :=
        if |appearanceSet| == 1 then frame.attributeThings[appearanceSet[0].role := Posting(frame.attributeThings, appearanceSet[0].role) + {appearanceSet[0].thing}]
        else frame.attributeThings,
      signatures := if |appearanceSet| >= 2 then File(frame.signatures, appearanceSet) else frame.signatures)
  }

  lemma FrameMore(frame: FrameWork, sets: set<AppearanceSet>, appearanceSet: AppearanceSet)
    requires FrameOf(frame, sets) && appearanceSet !in sets
    ensures FrameOf(WithSet(frame, appearanceSet), sets + {appearanceSet})
  {
    hide Roles;
    hide File;
    hide Filed;
    AppearingMore(sets, appearanceSet);
    var more := WithSet(frame, appearanceSet);
    forall role ensures Posting(more.attributeThings, role) == AttributeOf(sets + {appearanceSet}, role) {
      AttributeMore(sets, appearanceSet, role);
      assert Posting(frame.attributeThings, role) == AttributeOf(sets, role);
    }
    if |appearanceSet| >= 2 {
      FiledMore(frame.signatures, sets, appearanceSet);
    } else {
      NotFiled(frame.signatures, sets, appearanceSet);
    }
  }

  method ActiveSets(records: seq<AppearanceSet>) returns (active: set<AppearanceSet>)
    ensures active == set s | s in records
  {
    active := {};
    for i := 0 to |records|
      invariant active == set s | s in records[..i]
    {
      assert records[..i + 1] == records[..i] + [records[i]];
      active := active + {records[i]};
    }
    assert records[..|records|] == records;
  }

  /** What the limits ask of the distinct sets of a frame. */
  ghost predicate WithinLimits(sets: set<AppearanceSet>, limits: Limits) {
    && |sets| <= limits.appearanceSets && |Appearing(sets)| <= limits.endpointThings
    && forall s :: s in sets && |s| >= 2 ==> |s| <= limits.arity
  }

  lemma FewerAppear(some: set<AppearanceSet>, all: set<AppearanceSet>)
    requires some <= all
    ensures |Appearing(some)| <= |Appearing(all)|
  {
    Sequences.SubsetSize(Appearing(some), Appearing(all));
  }

  const EMPTY_FRAME := FrameWork({}, map[], map[], map[])

  /** Every distinct set contributes its things, its one attribute or its relationship. */
  method BuildFrameWork(records: seq<AppearanceSet>, limits: Limits) returns (built: Result<FrameWork, TerrainError>)
    ensures built.Err? ==> built.error == ResourceLimit
    ensures built.Ok? <==> WithinLimits((set s | s in records), limits)
    ensures built.Ok? ==> FrameOf(built.value, set s | s in records) && built.value.profileMasks == map[]
  {
    hide FrameOf;
    var active := ActiveSets(records);
    if |active| > limits.appearanceSets {
      return Err(ResourceLimit);
    }
    var frame := EMPTY_FRAME;
    ghost var done: set<AppearanceSet> := {};
    var left := active;
    NothingFiled();
    while left != {}
      invariant left <= active && done == active - left
      invariant FrameOf(frame, done) && frame.profileMasks == map[]
      invariant frame.endpointThings == Appearing(done) && |frame.endpointThings| <= limits.endpointThings
      invariant forall s :: s in done && |s| >= 2 ==> |s| <= limits.arity
    {
      var appearanceSet: AppearanceSet :| appearanceSet in left;
      if |appearanceSet| >= 2 && |appearanceSet| > limits.arity {
        return Err(ResourceLimit);
      }
      FrameMore(frame, done, appearanceSet);
      AppearingMore(done, appearanceSet);
      FewerAppear(done + {appearanceSet}, active);
      frame := WithSet(frame, appearanceSet);
      hide WithSet;
      hide Appearing;
      if |frame.endpointThings| > limits.endpointThings {
        return Err(ResourceLimit);
      }
      done := done + {appearanceSet};
      left := left - {appearanceSet};
    }
    assert done == active;
    return Ok(frame);
  }

  lemma NothingFiled()
    ensures FrameOf(EMPTY_FRAME, {})
  {
  }

  // ---------------------------------------------------------------------- profiles

  predicate Has(attributes: map<Thing, set<Thing>>, role: Thing, thing: Thing) {
    role in attributes && thing in attributes[role]
  }

  /** A mask holds the bit of each projected role the thing has, and no other. */
  ghost predicate ProfileOf(attributes: map<Thing, set<Thing>>, projection: seq<Thing>, thing: Thing, mask: nat) {
    mask < Power(|projection|) && forall k | 0 <= k < |projection| :: BitAt(mask, k) <==> Has(attributes, projection[k], thing)
  }

  ghost predicate Profiled(frame: FrameWork, projection: seq<Thing>) {
    frame.profileMasks.Keys == frame.endpointThings
    && forall t :: t in frame.profileMasks ==> ProfileOf(frame.attributeThings, projection, t, frame.profileMasks[t])
  }

  method ProfileMask(attributes: map<Thing, set<Thing>>, projection: seq<Thing>, thing: Thing) returns (mask: nat)
    ensures ProfileOf(attributes, projection, thing, mask)
  {
    mask := 0;
    ZeroHasNoBits();
    for i := 0 to |projection|
      invariant mask < Power(i) && forall k | 0 <= k < i :: BitAt(mask, k) <==> Has(attributes, projection[k], thing)
    {
      ghost var before := mask;
      HighBitsClear(mask, i, i);
      if Has(attributes, projection[i], thing) {
        mask := mask + Power(i);
      }
      forall k | 0 <= k < i + 1 ensures BitAt(mask, k) <==> Has(attributes, projection[k], thing) {
        BitSet(before, i, k);
      }
    }
  }

  lemma ZeroHasNoBits()
    ensures forall k: nat :: !BitAt(0, k)
  {
    forall k: nat ensures !BitAt(0, k) {
      HighBitsClear(0, 0, k);
    }
  }

  method AssignProfiles(frame: FrameWork, projection: seq<Thing>) returns (profiled: FrameWork)
    requires frame.profileMasks == map[]
    ensures Profiled(profiled, projection) && profiled == frame.(profileMasks := profiled.profileMasks)
  {
    var masks: map<Thing, nat> := map[];
    var left := frame.endpointThings;
    while left != {}
      invariant left <= frame.endpointThings && masks.Keys == frame.endpointThings - left
      invariant forall t :: t in masks ==> ProfileOf(frame.attributeThings, projection, t, masks[t])
    {
      var thing: Thing :| thing in left;
      var mask := ProfileMask(frame.attributeThings, projection, thing);
      masks := masks[thing := mask];
      left := left - {thing};
    }
    return frame.(profileMasks := masks);
  }

  // ------------------------------------------------------------------- superset sums

  /** Below bit b the mask's bits are contained in x's; from b on the two agree. */
  ghost predicate Under(m: nat, x: nat, b: nat, n: nat) {
    && (forall k | 0 <= k < b :: BitAt(m, k) ==> BitAt(x, k))
    && (forall k | b <= k < n :: BitAt(m, k) <==> BitAt(x, k))
  }

  ghost function Supporting(masks: map<Thing, nat>, m: nat, b: nat, n: nat): set<Thing> {
    set t | t in masks && Under(m, masks[t], b, n)
  }

  /** Things whose profile contains the whole mask. */
  ghost function Containing(masks: map<Thing, nat>, m: nat, n: nat): set<Thing> {
    set t | t in masks && forall k | 0 <= k < n :: BitAt(m, k) ==> BitAt(masks[t], k)
  }

  ghost function Population(masks: map<Thing, nat>, m: nat): set<Thing> {
    set t | t in masks && masks[t] == m
  }

  lemma SupportsStart(masks: map<Thing, nat>, m: nat, n: nat)
    requires m < Power(n) && forall t :: t in masks ==> masks[t] < Power(n)
    ensures Supporting(masks, m, 0, n) == Population(masks, m)
  {
    forall t | t in masks && Under(m, masks[t], 0, n) ensures masks[t] == m {
      SameBits(m, masks[t], n);
    }
  }

  lemma SupportsEnd(masks: map<Thing, nat>, m: nat, n: nat)
    ensures Supporting(masks, m, n, n) == Containing(masks, m, n)
  {
  }

  lemma UnderSplits(m: nat, x: nat, b: nat, n: nat)
    requires b < n && !BitAt(m, b)
    ensures Under(m, x, b + 1, n) <==> Under(m, x, b, n) || Under(m + Power(b), x, b, n)
    ensures !(Under(m, x, b, n) && Under(m + Power(b), x, b, n))
  {
    forall k: nat ensures BitAt(m + Power(b), k) <==> k == b || BitAt(m, k) {
      BitSet(m, b, k);
    }
    hide BitAt;
    hide Power;
    if Under(m, x, b, n) {
      assert BitAt(m, b) <==> BitAt(x, b);
    }
    if Under(m + Power(b), x, b, n) {
      assert BitAt(m + Power(b), b) <==> BitAt(x, b);
    }
  }

  /** A clear bit is either clear or set in a profile: the two halves are disjoint. */
  lemma SupportsSplit(masks: map<Thing, nat>, m: nat, b: nat, n: nat)
    requires b < n && !BitAt(m, b)
    ensures |Supporting(masks, m, b + 1, n)| == |Supporting(masks, m, b, n)| + |Supporting(masks, m + Power(b), b, n)|
  {
    var (clear, with, both) := (Supporting(masks, m, b, n), Supporting(masks, m + Power(b), b, n), Supporting(masks, m, b + 1, n));
    forall t | t in masks ensures (t in both <==> t in clear || t in with) && !(t in clear && t in with) {
      UnderSplits(m, masks[t], b, n);
    }
    hide Under;
    hide BitAt;
    assert both == clear + with;
    assert clear !! with;
  }

  lemma SupportsSame(masks: map<Thing, nat>, m: nat, b: nat, n: nat)
    requires b < n && BitAt(m, b)
    ensures Supporting(masks, m, b + 1, n) == Supporting(masks, m, b, n)
  {
    forall t | t in masks ensures Under(m, masks[t], b + 1, n) <==> Under(m, masks[t], b, n) {
    }
  }

  lemma SupportBound(masks: map<Thing, nat>, m: nat, b: nat, n: nat)
    ensures |Supporting(masks, m, b, n)| <= |masks|
  {
    Sequences.SubsetSize(Supporting(masks, m, b, n), masks.Keys);
  }

  /** The in-place double loop turns populations into superset sums without overflowing. */
  method SupersetSums(sums: array<nat>, n: nat, ghost masks: map<Thing, nat>) returns (ok: bool)
    requires sums.Length == Power(n) && |masks| <= MAX_COUNT && forall t :: t in masks ==> masks[t] < Power(n)
    requires forall m | 0 <= m < sums.Length :: sums[m] == |Population(masks, m)|
    modifies sums
    ensures ok && forall m | 0 <= m < sums.Length :: sums[m] == |Containing(masks, m, n)|
  {
    hide BitAt;
    hide Power;
    hide Supporting;
    hide Containing;
    hide Population;
    forall m | 0 <= m < sums.Length ensures sums[m] == |Supporting(masks, m, 0, n)| {
      SupportsStart(masks, m, n);
    }
    for bit := 0 to n
      invariant forall m | 0 <= m < sums.Length :: sums[m] == |Supporting(masks, m, bit, n)|
    {
      for mask := 0 to sums.Length
        invariant forall m | 0 <= m < mask :: sums[m] == |Supporting(masks, m, bit + 1, n)|
        invariant forall m | mask <= m < sums.Length :: sums[m] == |Supporting(masks, m, bit, n)|
      {
        if !BitAt(mask, bit) {
          BitSetBound(mask, bit, n);
          SupportsSplit(masks, mask, bit, n);
          SupportBound(masks, mask, bit + 1, n);
          if sums[mask] + sums[mask + Power(bit)] > MAX_COUNT {
            return false;
          }
          sums[mask] := sums[mask] + sums[mask + Power(bit)];
        } else {
          SupportsSame(masks, mask, bit, n);
        }
      }
    }
    forall m | 0 <= m < sums.Length ensures sums[m] == |Containing(masks, m, n)| {
      SupportsEnd(masks, m, n);
    }
    return true;
  }

  /** The more a mask asks for, the fewer things support it. */
  lemma SupportIsAntitone(masks: map<Thing, nat>, small: nat, large: nat, n: nat)
    requires forall k | 0 <= k < n :: BitAt(small, k) ==> BitAt(large, k)
    ensures |Containing(masks, large, n)| <= |Containing(masks, small, n)|
  {
    Sequences.SubsetSize(Containing(masks, large, n), Containing(masks, small, n));
  }

  /** What a mask's support counts: endpoint things having every projected role of the mask. */
  lemma SupportMeaning(frame: FrameWork, projection: seq<Thing>, m: nat, t: Thing)
    requires Profiled(frame, projection)
    ensures t in Containing(frame.profileMasks, m, |projection|)
            <==> t in frame.endpointThings && forall k | 0 <= k < |projection| :: BitAt(m, k) ==> Has(frame.attributeThings, projection[k], t)
  {
    if t in frame.profileMasks {
      assert ProfileOf(frame.attributeThings, projection, t, frame.profileMasks[t]);
    }
  }

  // --------------------------------------------------------------------- populations

  function Sum(counts: seq<nat>): nat {
    if counts == [] then 0 else Sum(counts[..|counts| - 1]) + counts[|counts| - 1]
  }

  lemma {:induction false} SumUpdate(counts: seq<nat>, i: nat, more: nat)
    requires i < |counts|
    ensures Sum(counts[i := counts[i] + more]) == Sum(counts) + more && counts[i] <= Sum(counts)
  {
    var n := |counts| - 1;
    if i < n {
      SumUpdate(counts[..n], i, more);
      assert counts[i := counts[i] + more][..n] == counts[..n][i := counts[..n][i] + more];
    } else {
      assert counts[i := counts[i] + more][..n] == counts[..n];
    }
  }

  lemma {:induction false} SumOfZeros(counts: seq<nat>)
    requires forall i | 0 <= i < |counts| :: counts[i] == 0
    ensures Sum(counts) == 0
  {
    if counts != [] {
      SumOfZeros(counts[..|counts| - 1]);
    }
  }

  ghost function Among(masks: map<Thing, nat>, done: set<Thing>, m: nat): set<Thing> {
    set t | t in done && t in masks && masks[t] == m
  }

  lemma AmongMore(masks: map<Thing, nat>, done: set<Thing>, thing: Thing, m: nat)
    requires thing in masks && thing !in done
    ensures |Among(masks, done + {thing}, m)| == |Among(masks, done, m)| + (if masks[thing] == m then 1 else 0)
  {
    var (before, after) := (Among(masks, done, m), Among(masks, done + {thing}, m));
    assert thing !in before;
    if masks[thing] == m {
      assert after == before + {thing};
    } else {
      assert after == before;
    }
  }

  ghost predicate Counts(counts: seq<nat>, masks: map<Thing, nat>, done: set<Thing>) {
    Sum(counts) == |done| && forall m | 0 <= m < |counts| :: counts[m] == |Among(masks, done, m)|
  }

  lemma CountMore(counts: seq<nat>, masks: map<Thing, nat>, done: set<Thing>, thing: Thing)
    requires Counts(counts, masks, done) && thing in masks && thing !in done && masks[thing] < |counts|
    ensures Counts(counts[masks[thing] := counts[masks[thing]] + 1], masks, done + {thing}) && counts[masks[thing]] <= |done|
  {
    var more := counts[masks[thing] := counts[masks[thing]] + 1];
    SumUpdate(counts, masks[thing], 1);
    forall m | 0 <= m < |more| ensures more[m] == |Among(masks, done + {thing}, m)| {
      AmongMore(masks, done, thing, m);
    }
  }

  lemma CountNothing(counts: seq<nat>, masks: map<Thing, nat>)
    requires forall m | 0 <= m < |counts| :: counts[m] == 0
    ensures Counts(counts, masks, {})
  {
    SumOfZeros(counts);
    forall m | 0 <= m < |counts| ensures |Among(masks, {}, m)| == 0 {
      assert Among(masks, {}, m) == {};
    }
  }

  lemma CountEverything(counts: seq<nat>, masks: map<Thing, nat>)
    requires Counts(counts, masks, masks.Keys)
    ensures Sum(counts) == |masks| && forall m | 0 <= m < |counts| :: counts[m] == |Population(masks, m)|
  {
    forall m | 0 <= m < |counts| ensures counts[m] == |Population(masks, m)| {
      assert Among(masks, masks.Keys, m) == Population(masks, m);
    }
  }

  /** How many things have each profile; together they are all the things there are. */
  method CountPopulations(masks: map<Thing, nat>, n: nat) returns (counted: Result<seq<nat>, TerrainError>)
    requires |masks| <= MAX_COUNT && forall t :: t in masks ==> masks[t] < Power(n)
    ensures counted.Ok? && |counted.value| == Power(n) && Sum(counted.value) == |masks|
    ensures forall m | 0 <= m < Power(n) :: counted.value[m] == |Population(masks, m)|
  {
    hide Power;
    hide Counts;
    hide Sum;
    hide Population;
    var counts: seq<nat> := seq(Power(n), i => 0);
    CountNothing(counts, masks);
    var left := masks.Keys;
    ghost var done: set<Thing> := {};
    while left != {}
      invariant left <= masks.Keys && done == masks.Keys - left && |counts| == Power(n)
      invariant Counts(counts, masks, done)
    {
      var thing: Thing :| thing in left;
      var mask := masks[thing];
      if mask >= |counts| {
        return Err(Invariant);
      }
      CountMore(counts, masks, done, thing);
      Sequences.SubsetSize(done + {thing}, masks.Keys);
      if counts[mask] + 1 > MAX_COUNT {
        return Err(Overflow);
      }
      counts := counts[mask := counts[mask] + 1];
      done := done + {thing};
      left := left - {thing};
    }
    assert done == masks.Keys;
    CountEverything(counts, masks);
    return Ok(counts);
  }

  datatype Profile = Profile(mask: nat, things: nat, support: nat)

  /** Non-empty profiles below a mask, in mask order, with the support of each. */
  ghost predicate ProfilesBelow(masks: map<Thing, nat>, n: nat, upTo: nat, profiles: seq<Profile>) {
    && (forall i, j :: 0 <= i < j < |profiles| ==> profiles[i].mask < profiles[j].mask)
    && (forall p :: p in profiles ==> p.mask < upTo && p.things == |Population(masks, p.mask)| > 0 && p.support == |Containing(masks, p.mask, n)|)
    && (forall m | 0 <= m < upTo :: |Population(masks, m)| > 0 ==> exists p :: p in profiles && p.mask == m)
  }

  lemma NoProfiles(masks: map<Thing, nat>, n: nat)
    ensures ProfilesBelow(masks, n, 0, [])
  {
  }

  lemma ProfileListed(masks: map<Thing, nat>, n: nat, m: nat, profiles: seq<Profile>, population: nat, support: nat)
    requires ProfilesBelow(masks, n, m, profiles) && population == |Population(masks, m)| && support == |Containing(masks, m, n)|
    ensures ProfilesBelow(masks, n, m + 1, if population == 0 then profiles else profiles + [Profile(m, population, support)])
  {
    hide Population;
    hide Containing;
    if population != 0 {
      var more := profiles + [Profile(m, population, support)];
      forall x | 0 <= x < m + 1 && |Population(masks, x)| > 0 ensures exists p :: p in more && p.mask == x {
        if x < m {
          var p :| p in profiles && p.mask == x;
          assert p in more;
        } else {
          assert more[|profiles|].mask == x;
        }
      }
    }
  }

  /**
   The profile part of a frame.  For frames built and profiled by the functions above the
   populations always add up to the endpoint things, so no check can fail.
   */
  method FinishProfiles(frame: FrameWork, projection: seq<Thing>) returns (finished: Result<seq<Profile>, TerrainError>)
    requires Profiled(frame, projection) && |frame.endpointThings| <= MAX_COUNT
    ensures finished.Ok? && ProfilesBelow(frame.profileMasks, |projection|, Power(|projection|), finished.value)
  {
    hide Power;
    hide Population;
    hide Containing;
    hide ProfilesBelow;
    hide Sum;
    var (masks, n) := (frame.profileMasks, |projection|);
    assert |masks| == |masks.Keys|;
    assert forall t :: t in masks ==> masks[t] < Power(n);
    hide Profiled;
    var counted := CountPopulations(masks, n);
    if counted.Err? {
      return Err(Invariant);
    }
    var populations := counted.value;
    var sums := new nat[|populations|](i requires 0 <= i < |populations| => populations[i]);
    var ok := SupersetSums(sums, n, masks);
    if !ok {
      return Err(Overflow);
    }
    var profiles: seq<Profile> := [];
    var total: nat := 0;
    NoProfiles(masks, n);
    SumOfNothing();
    for m := 0 to |populations|
      invariant total == Sum(populations[..m]) && ProfilesBelow(masks, n, m, profiles)
      invariant forall x | 0 <= x < sums.Length :: sums[x] == |Containing(masks, x, n)|
    {
      SumParts(populations, m);
      ProfileListed(masks, n, m, profiles, populations[m], sums[m]);
      if populations[m] != 0 {
        if total + populations[m] > MAX_COUNT {
          return Err(Overflow);
        }
        total := total + populations[m];
        profiles := profiles + [Profile(m, populations[m], sums[m])];
      }
    }
    assert populations[..|populations|] == populations;
    if total != |frame.endpointThings| {
      return Err(Invariant);
    }
    return Ok(profiles);
  }

  lemma SumOfNothing()
    ensures Sum([]) == 0
  {
  }

  lemma SumParts(counts: seq<nat>, i: nat)
    requires i < |counts|
    ensures Sum(counts[..i + 1]) == Sum(counts[..i]) + counts[i] <= Sum(counts)
  {
    assert counts[..i + 1][..i] == counts[..i];
    SumPrefix(counts, i + 1);
  }

  lemma {:induction false} SumPrefix(counts: seq<nat>, i: nat)
    requires i <= |counts|
    ensures Sum(counts[..i]) <= Sum(counts)
    decreases |counts| - i
  {
    if i < |counts| {
      SumPrefix(counts, i + 1);
      assert counts[..i + 1][..i] == counts[..i];
    } else {
      assert counts[..i] == counts;
    }
  }

  // ------------------------------------------------------------------- relationships

  datatype Tally = Tally(things: set<Thing>, participations: nat)

  const NONE := Tally({}, 0)

  datatype Relationship = Relationship(signature: seq<Thing>, appearanceSets: nat, roleTotals: map<Thing, Tally>, allocations: map<(Thing, nat), Tally>)

  /** Every appearance of the sets, one after another. */
  function Uses(sets: seq<AppearanceSet>): seq<Appearance> {
    if sets == [] then [] else Uses(sets[..|sets| - 1]) + sets[|sets| - 1]
  }

  predicate InRole(a: Appearance, role: Thing) {
    a.role == role
  }

  /** A use of a role by a thing of this profile. */
  predicate InCell(a: Appearance, masks: map<Thing, nat>, role: Thing, mask: nat) {
    a.role == role && a.thing in masks && masks[a.thing] == mask
  }

  function CountRole(uses: seq<Appearance>, role: Thing): nat {
    if uses == [] then 0 else CountRole(uses[..|uses| - 1], role) + (if InRole(uses[|uses| - 1], role) then 1 else 0)
  }

  function CountCell(uses: seq<Appearance>, masks: map<Thing, nat>, role: Thing, mask: nat): nat {
    if uses == [] then 0 else CountCell(uses[..|uses| - 1], masks, role, mask) + (if InCell(uses[|uses| - 1], masks, role, mask) then 1 else 0)
  }

  ghost function RoleTally(uses: seq<Appearance>, role: Thing): Tally {
    Tally(set a | a in uses && InRole(a, role) :: a.thing, CountRole(uses, role))
  }

  ghost function CellTally(uses: seq<Appearance>, masks: map<Thing, nat>, role: Thing, mask: nat): Tally {
    Tally(set a | a in uses && InCell(a, masks, role, mask) :: a.thing, CountCell(uses, masks, role, mask))
  }

  function Lookup<K>(tallies: map<K, Tally>, key: K): Tally {
    if key in tallies then tallies[key] else NONE
  }

  function Add(t: Tally, thing: Thing): Tally {
    Tally(t.things + {thing}, t.participations + 1)
  }

  /** Totals by role, and by role and profile, of the uses so far. */
  ghost predicate Tallied(roles: map<Thing, Tally>, cells: map<(Thing, nat), Tally>, signature: seq<Thing>, masks: map<Thing, nat>, uses: seq<Appearance>) {
    && (forall role :: role in roles <==> role in signature)
    && (forall role :: role in roles ==> roles[role] == RoleTally(uses, role))
    && (forall role, mask :: Lookup(cells, (role, mask)) == CellTally(uses, masks, role, mask))
    && (forall cell :: cell in cells ==> cells[cell] != NONE)
  }

  /** The roles played, each with the profiles of the things that play it. */
  ghost function CellsOf(uses: seq<Appearance>, masks: map<Thing, nat>): set<(Thing, nat)> {
    set a | a in uses && a.thing in masks :: (a.role, masks[a.thing])
  }

  lemma {:induction false} EmptyCell(uses: seq<Appearance>, masks: map<Thing, nat>, role: Thing, mask: nat)
    ensures CellTally(uses, masks, role, mask) == NONE <==> (role, mask) !in CellsOf(uses, masks)
  {
    var things := CellTally(uses, masks, role, mask).things;
    if (role, mask) in CellsOf(uses, masks) {
      var a :| a in uses && a.thing in masks && (role, mask) == (a.role, masks[a.thing]);
      assert a.thing in things;
    } else {
      assert things == {};
      NeverCounted(uses, masks, role, mask);
    }
  }

  lemma {:induction false} NeverCounted(uses: seq<Appearance>, masks: map<Thing, nat>, role: Thing, mask: nat)
    requires forall a :: a in uses ==> !InCell(a, masks, role, mask)
    ensures CountCell(uses, masks, role, mask) == 0
  {
    if uses != [] {
      NeverCounted(uses[..|uses| - 1], masks, role, mask);
    }
  }

  /** A table of cells has an entry for exactly the role and profile pairs that occur. */
  lemma CellsAreExact(roles: map<Thing, Tally>, cells: map<(Thing, nat), Tally>, signature: seq<Thing>, masks: map<Thing, nat>, uses: seq<Appearance>)
    requires Tallied(roles, cells, signature, masks, uses)
    ensures cells.Keys == CellsOf(uses, masks) && |cells| == |CellsOf(uses, masks)|
  {
    hide CellTally;
    hide CellsOf;
    forall cell: (Thing, nat) ensures cell in cells.Keys <==> cell in CellsOf(uses, masks) {
      EmptyCell(uses, masks, cell.0, cell.1);
      assert Lookup(cells, (cell.0, cell.1)) == CellTally(uses, masks, cell.0, cell.1);
    }
    assert |cells| == |cells.Keys|;
  }

  lemma RoleTallyMore(uses: seq<Appearance>, a: Appearance, role: Thing)
    ensures RoleTally(uses + [a], role) == if InRole(a, role) then Add(RoleTally(uses, role), a.thing) else RoleTally(uses, role)
  {
    assert (uses + [a])[..|uses|] == uses;
    var (before, after) := (set x | x in uses && InRole(x, role) :: x.thing, set x | x in uses + [a] && InRole(x, role) :: x.thing);
    if InRole(a, role) {
      assert a in uses + [a];
      assert after == before + {a.thing};
    } else {
      assert after == before;
    }
  }

  lemma CellTallyMore(uses: seq<Appearance>, a: Appearance, masks: map<Thing, nat>, role: Thing, mask: nat)
    ensures CellTally(uses + [a], masks, role, mask)
            == if InCell(a, masks, role, mask) then Add(CellTally(uses, masks, role, mask), a.thing) else CellTally(uses, masks, role, mask)
  {
    assert (uses + [a])[..|uses|] == uses;
    var before := set x | x in uses && InCell(x, masks, role, mask) :: x.thing;
    var after := set x | x in uses + [a] && InCell(x, masks, role, mask) :: x.thing;
    if InCell(a, masks, role, mask) {
      assert a in uses + [a];
      assert after == before + {a.thing};
    } else {
      assert after == before;
    }
  }

  lemma TallyMore(roles: map<Thing, Tally>, cells: map<(Thing, nat), Tally>, signature: seq<Thing>, masks: map<Thing, nat>, uses: seq<Appearance>, a: Appearance)
    requires Tallied(roles, cells, signature, masks, uses) && a.role in signature && a.thing in masks
    ensures var cell := (a.role, masks[a.thing]);
            a.role in roles && Tallied(roles[a.role := Add(roles[a.role], a.thing)], cells[cell := Add(Lookup(cells, cell), a.thing)], signature, masks, uses + [a])
  {
    var cell := (a.role, masks[a.thing]);
    var (roles', cells') := (roles[a.role := Add(roles[a.role], a.thing)], cells[cell := Add(Lookup(cells, cell), a.thing)]);
    hide RoleTally;
    hide CellTally;
    forall role | role in roles' ensures roles'[role] == RoleTally(uses + [a], role) {
      RoleTallyMore(uses, a, role);
    }
    forall role, mask ensures Lookup(cells', (role, mask)) == CellTally(uses + [a], masks, role, mask) {
      CellTallyMore(uses, a, masks, role, mask);
      assert Lookup(cells, (role, mask)) == CellTally(uses, masks, role, mask);
    }
  }

  lemma TallyNothing(roles: map<Thing, Tally>, signature: seq<Thing>, masks: map<Thing, nat>)
    requires (forall role :: role in roles <==> role in signature) && forall role :: role in roles ==> roles[role] == NONE
    ensures Tallied(roles, map[], signature, masks, [])
  {
    forall role, mask ensures CellTally([], masks, role, mask) == NONE {
      assert (set x: Appearance | x in [] && InCell(x, masks, role, mask) :: x.thing) == {};
    }
    forall role ensures RoleTally([], role) == NONE {
      assert (set x: Appearance | x in [] && InRole(x, role) :: x.thing) == {};
    }
  }

  /** Sums of one role's cells below a mask. */
  function CellThings(cells: map<(Thing, nat), Tally>, role: Thing, upTo: nat): nat {
    if upTo == 0 then 0 else CellThings(cells, role, upTo - 1) + |Lookup(cells, (role, upTo - 1)).things|
  }

  function CellUses(cells: map<(Thing, nat), Tally>, role: Thing, upTo: nat): nat {
    if upTo == 0 then 0 else CellUses(cells, role, upTo - 1) + Lookup(cells, (role, upTo - 1)).participations
  }

  ghost function Below(things: set<Thing>, masks: map<Thing, nat>, upTo: nat): set<Thing> {
    set t | t in things && t in masks && masks[t] < upTo
  }

  lemma OneMoreCell(things: set<Thing>, cell: set<Thing>, masks: map<Thing, nat>, mask: nat)
    requires forall t :: t in cell <==> t in things && t in masks && masks[t] == mask
    ensures |Below(things, masks, mask + 1)| == |Below(things, masks, mask)| + |cell|
  {
    var low := Below(things, masks, mask);
    assert Below(things, masks, mask + 1) == low + cell;
    assert low !! cell;
  }

  /** The cells of a role partition its things. */
  lemma {:induction false} ThingsPartition(roles: map<Thing, Tally>, cells: map<(Thing, nat), Tally>, signature: seq<Thing>, masks: map<Thing, nat>, uses: seq<Appearance>,
      role: Thing, upTo: nat)
    requires Tallied(roles, cells, signature, masks, uses) && role in roles
    ensures CellThings(cells, role, upTo) == |Below(roles[role].things, masks, upTo)|
  {
    hide RoleTally;
    hide CellTally;
    var things := roles[role].things;
    if upTo == 0 {
      assert Below(things, masks, 0) == {};
    } else {
      ThingsPartition(roles, cells, signature, masks, uses, role, upTo - 1);
      assert Lookup(cells, (role, upTo - 1)) == CellTally(uses, masks, role, upTo - 1) && things == RoleTally(uses, role).things;
      hide Tallied;
      CellOfThings(uses, masks, role, upTo - 1);
      OneMoreCell(things, Lookup(cells, (role, upTo - 1)).things, masks, upTo - 1);
    }
  }

  lemma CellOfThings(uses: seq<Appearance>, masks: map<Thing, nat>, role: Thing, mask: nat)
    ensures forall t :: t in CellTally(uses, masks, role, mask).things <==> t in RoleTally(uses, role).things && t in masks && masks[t] == mask
  {
    forall t | t in RoleTally(uses, role).things && t in masks && masks[t] == mask ensures t in CellTally(uses, masks, role, mask).things {
      var a :| a in uses && InRole(a, role) && a.thing == t;
      assert InCell(a, masks, role, mask);
    }
  }

  function CountBelow(uses: seq<Appearance>, masks: map<Thing, nat>, role: Thing, upTo: nat): nat {
    if upTo == 0 then 0 else CountBelow(uses, masks, role, upTo - 1) + CountCell(uses, masks, role, upTo - 1)
  }

  lemma {:induction false} BelowMore(uses: seq<Appearance>, a: Appearance, masks: map<Thing, nat>, role: Thing, upTo: nat)
    requires a.thing in masks
    ensures CountBelow(uses + [a], masks, role, upTo) == CountBelow(uses, masks, role, upTo) + (if InRole(a, role) && masks[a.thing] < upTo then 1 else 0)
  {
    if upTo > 0 {
      BelowMore(uses, a, masks, role, upTo - 1);
      assert (uses + [a])[..|uses|] == uses;
    }
  }

  /** The cells of a role divide its participations. */
  lemma {:induction false} UsesPartition(uses: seq<Appearance>, masks: map<Thing, nat>, role: Thing, bound: nat)
    requires forall a :: a in uses ==> a.thing in masks && masks[a.thing] < bound
    ensures CountBelow(uses, masks, role, bound) == CountRole(uses, role)
  {
    if uses == [] {
      NoUses(masks, role, bound);
    } else {
      var (init, last) := (uses[..|uses| - 1], uses[|uses| - 1]);
      UsesPartition(init, masks, role, bound);
      BelowMore(init, last, masks, role, bound);
      assert uses == init + [last];
    }
  }

  lemma {:induction false} NoUses(masks: map<Thing, nat>, role: Thing, bound: nat)
    ensures CountBelow([], masks, role, bound) == 0
  {
    if bound > 0 {
      NoUses(masks, role, bound - 1);
    }
  }

  lemma {:induction false} CellUsesAreCounts(roles: map<Thing, Tally>, cells: map<(Thing, nat), Tally>, signature: seq<Thing>, masks: map<Thing, nat>, uses: seq<Appearance>,
      role: Thing, upTo: nat)
    requires Tallied(roles, cells, signature, masks, uses)
    ensures CellUses(cells, role, upTo) == CountBelow(uses, masks, role, upTo)
  {
    if upTo > 0 {
      CellUsesAreCounts(roles, cells, signature, masks, uses, role, upTo - 1);
      assert Lookup(cells, (role, upTo - 1)) == CellTally(uses, masks, role, upTo - 1);
    }
  }

  /** Allocations always reconcile with their role's totals. */
  lemma Reconciles(roles: map<Thing, Tally>, cells: map<(Thing, nat), Tally>, signature: seq<Thing>, masks: map<Thing, nat>, uses: seq<Appearance>, role: Thing, bound: nat)
    requires Tallied(roles, cells, signature, masks, uses) && role in roles
    requires (forall a :: a in uses ==> a.thing in masks) && forall t :: t in masks ==> masks[t] < bound
    ensures CellThings(cells, role, bound) == |roles[role].things| && CellUses(cells, role, bound) == roles[role].participations
  {
    ThingsPartition(roles, cells, signature, masks, uses, role, bound);
    CellUsesAreCounts(roles, cells, signature, masks, uses, role, bound);
    UsesPartition(uses, masks, role, bound);
    assert roles[role] == RoleTally(uses, role);
    assert Below(roles[role].things, masks, bound) == roles[role].things;
  }

  lemma {:induction false} CellSumsGrow(cells: map<(Thing, nat), Tally>, role: Thing, upTo: nat, bound: nat)
    requires upTo <= bound
    ensures CellThings(cells, role, upTo) <= CellThings(cells, role, bound) && CellUses(cells, role, upTo) <= CellUses(cells, role, bound)
    decreases bound - upTo
  {
    if upTo < bound {
      CellSumsGrow(cells, role, upTo + 1, bound);
    }
  }

  /** Adds up one role's allocations and compares them with its totals. */
  method ReconcileRole(cells: map<(Thing, nat), Tally>, role: Thing, total: Tally, bound: nat) returns (checked: Result<(), TerrainError>)
    requires CellThings(cells, role, bound) == |total.things| <= MAX_COUNT && CellUses(cells, role, bound) == total.participations <= MAX_COUNT
    ensures checked == Ok(())
  {
    var (distinct, participations) := (0, 0);
    for mask := 0 to bound
      invariant distinct == CellThings(cells, role, mask) && participations == CellUses(cells, role, mask)
    {
      CellSumsGrow(cells, role, mask + 1, bound);
      if (role, mask) in cells {
        var cell := cells[(role, mask)];
        if distinct + |cell.things| > MAX_COUNT || participations + cell.participations > MAX_COUNT {
          return Err(Overflow);
        }
        distinct, participations := distinct + |cell.things|, participations + cell.participations;
      }
    }
    if distinct != |total.things| || participations != total.participations {
      return Err(Invariant);
    }
    return Ok(());
  }

  lemma {:induction false} UsesKnown(frame: FrameWork, sets: set<AppearanceSet>, filed: seq<AppearanceSet>, signature: seq<Thing>)
    requires FrameOf(frame, sets) && signature in frame.signatures && forall s :: s in filed ==> s in frame.signatures[signature]
    ensures forall a :: a in Uses(filed) ==> a.role in signature && a.thing in frame.endpointThings
  {
    hide Roles;
    if filed != [] {
      var (init, last) := (filed[..|filed| - 1], filed[|filed| - 1]);
      assert filed == init + [last];
      UsesKnown(frame, sets, init, signature);
      SetKnown(frame, sets, last, signature);
    }
  }

  lemma SetKnown(frame: FrameWork, sets: set<AppearanceSet>, appearanceSet: AppearanceSet, signature: seq<Thing>)
    requires FrameOf(frame, sets) && signature in frame.signatures && appearanceSet in frame.signatures[signature]
    ensures forall a :: a in appearanceSet ==> a.role in signature && a.thing in frame.endpointThings
  {
    assert appearanceSet in sets && Roles(appearanceSet) == signature;
    forall a | a in appearanceSet ensures a.role in signature && a.thing in frame.endpointThings {
      var i :| 0 <= i < |appearanceSet| && appearanceSet[i] == a;
      assert Roles(appearanceSet)[i] == a.role;
    }
  }

  /** Tallies one set's appearances; a missing role or profile would be an invariant error. */
  method TallySet(roles: map<Thing, Tally>, cells: map<(Thing, nat), Tally>, appearanceSet: AppearanceSet, masks: map<Thing, nat>, ghost signature: seq<Thing>, ghost uses: seq<Appearance>)
    returns (tallied: Result<(map<Thing, Tally>, map<(Thing, nat), Tally>), TerrainError>)
    requires Tallied(roles, cells, signature, masks, uses) && forall a :: a in appearanceSet ==> a.role in signature && a.thing in masks
    requires forall role :: role in roles ==> roles[role].participations <= MAX_COUNT
    ensures tallied.Err? ==> tallied.error == Overflow && |uses + appearanceSet| > MAX_COUNT
    ensures tallied.Ok? ==> Tallied(tallied.value.0, tallied.value.1, signature, masks, uses + appearanceSet)
    ensures tallied.Ok? ==> forall role :: role in tallied.value.0 ==> tallied.value.0[role].participations <= MAX_COUNT
  {
    hide Tallied;
    var byRole: map<Thing, Tally> := roles;
    var byCell: map<(Thing, nat), Tally> := cells;
    assert uses + appearanceSet[..0] == uses;
    for i := 0 to |appearanceSet|
      invariant Tallied(byRole, byCell, signature, masks, uses + appearanceSet[..i])
      invariant forall role :: role in byRole ==> byRole[role].participations <= MAX_COUNT
    {
      var a := appearanceSet[i];
      assert a in appearanceSet && uses + appearanceSet[..i] + [a] == uses + appearanceSet[..i + 1];
      TallyMore(byRole, byCell, signature, masks, uses + appearanceSet[..i], a);
      TallyBound(byRole, byCell, signature, masks, uses + appearanceSet[..i], a.role, masks[a.thing]);
      if a.role !in byRole || a.thing !in masks {
        return Err(Invariant);
      }
      var cell := (a.role, masks[a.thing]);
      if byRole[a.role].participations + 1 > MAX_COUNT {
        return Err(Overflow);
      }
      if Lookup(byCell, cell).participations + 1 > MAX_COUNT {
        return Err(Overflow);
      }
      byRole := byRole[a.role := Add(byRole[a.role], a.thing)];
      byCell := byCell[cell := Add(Lookup(byCell, cell), a.thing)];
    }
    assert appearanceSet[..|appearanceSet|] == appearanceSet;
    return Ok((byRole, byCell));
  }

  lemma TallyBound(roles: map<Thing, Tally>, cells: map<(Thing, nat), Tally>, signature: seq<Thing>, masks: map<Thing, nat>, uses: seq<Appearance>, role: Thing, mask: nat)
    requires Tallied(roles, cells, signature, masks, uses) && role in roles
    ensures Lookup(cells, (role, mask)).participations <= roles[role].participations <= |uses|
  {
    CountsBounded(uses, masks, role, mask);
    assert Lookup(cells, (role, mask)) == CellTally(uses, masks, role, mask);
  }

  lemma {:induction false} CountsBounded(uses: seq<Appearance>, masks: map<Thing, nat>, role: Thing, mask: nat)
    ensures CountCell(uses, masks, role, mask) <= CountRole(uses, role) <= |uses|
  {
    if uses != [] {
      CountsBounded(uses[..|uses| - 1], masks, role, mask);
    }
  }

  function SetsOf(frame: FrameWork, signature: seq<Thing>): seq<AppearanceSet> {
    if signature in frame.signatures then frame.signatures[signature] else []
  }

  lemma {:induction false} FewerUses(sets: seq<AppearanceSet>, n: nat)
    requires n <= |sets|
    ensures |Uses(sets[..n])| <= |Uses(sets)|
    decreases |sets|
  {
    if n == |sets| {
      assert sets[..n] == sets;
    } else {
      assert sets[..|sets| - 1][..n] == sets[..n];
      FewerUses(sets[..|sets| - 1], n);
    }
  }

  /** What is reported about one relationship. */
  ghost predicate RelationshipOf(frame: FrameWork, signature: seq<Thing>, r: Relationship) {
    var sets := SetsOf(frame, signature);
    && r.signature == signature && r.appearanceSets == |sets|
    && Tallied(r.roleTotals, r.allocations, signature, frame.profileMasks, Uses(sets))
  }

  /**
   One relationship of a frame: totals by role, allocations by role and profile.  Only a
   limit, or more participations than 64 bits count, can stop it.
   */
  method BuildRelationship(frame: FrameWork, projection: seq<Thing>, signature: seq<Thing>, before: nat, limits: Limits, ghost records: set<AppearanceSet>)
    returns (built: Result<Relationship, TerrainError>)
    requires FrameOf(frame, records) && Profiled(frame, projection) && |frame.endpointThings| <= MAX_COUNT
    ensures built.Ok? ==> RelationshipOf(frame, signature, built.value)
    ensures var uses := Uses(SetsOf(frame, signature));
            var allocations := before + |CellsOf(uses, frame.profileMasks)|;
            && (built.Ok? ==> allocations <= limits.allocations)
            && (built.Err? ==> built.error == ResourceLimit || built.error == Overflow)
            && (built.Err? && built.error == ResourceLimit ==> allocations > limits.allocations)
            && (built.Err? && built.error == Overflow ==> |uses| > MAX_COUNT || allocations > MAX_COUNT)
  {
    hide Tallied;
    hide FrameOf;
    hide Profiled;
    hide Power;
    hide Uses;
    var (masks, n) := (frame.profileMasks, |projection|);
    MasksBounded(frame, projection);
    var sets := SetsOf(frame, signature);
    var roles := map role | role in signature :: NONE;
    var cells: map<(Thing, nat), Tally> := map[];
    TallyNothing(roles, signature, masks);
    NoSetsUsed();
    for i := 0 to |sets|
      invariant Tallied(roles, cells, signature, masks, Uses(sets[..i]))
      invariant forall role :: role in roles ==> roles[role].participations <= MAX_COUNT
    {
      assert sets[i] in frame.signatures[signature];
      SetKnown(frame, records, sets[i], signature);
      UsesSnoc(sets, i);
      var tallied := TallySet(roles, cells, sets[i], masks, signature, Uses(sets[..i]));
      if tallied.Err? {
        FewerUses(sets, i + 1);
        return Err(tallied.error);
      }
      roles, cells := tallied.value.0, tallied.value.1;
    }
    assert sets[..|sets|] == sets;
    CellsAreExact(roles, cells, signature, masks, Uses(sets));
    hide CellsOf;
    if before + |cells| > MAX_COUNT {
      return Err(Overflow);
    }
    if before + |cells| > limits.allocations {
      return Err(ResourceLimit);
    }
    if signature in frame.signatures {
      UsesKnown(frame, records, sets, signature);
    } else {
      NoSetsUsed();
    }
    var left := roles.Keys;
    while left != {}
      invariant left <= roles.Keys
    {
      var role: Thing :| role in left;
      Reconciles(roles, cells, signature, masks, Uses(sets), role, Power(n));
      ThingsBounded(roles, cells, signature, masks, Uses(sets), role);
      var checked := ReconcileRole(cells, role, roles[role], Power(n));
      if checked.Err? {
        return Err(Invariant);
      }
      left := left - {role};
    }
    return Ok(Relationship(signature, |sets|, roles, cells));
  }

  lemma MasksBounded(frame: FrameWork, projection: seq<Thing>)
    requires Profiled(frame, projection)
    ensures frame.profileMasks.Keys == frame.endpointThings && forall t :: t in frame.profileMasks ==> frame.profileMasks[t] < Power(|projection|)
    ensures |frame.profileMasks| == |frame.endpointThings|
  {
    assert |frame.profileMasks| == |frame.profileMasks.Keys|;
  }

  lemma NoSetsUsed()
    ensures Uses([]) == []
  {
  }

  lemma UsesSnoc(sets: seq<AppearanceSet>, i: nat)
    requires i < |sets|
    ensures Uses(sets[..i + 1]) == Uses(sets[..i]) + sets[i]
  {
    assert sets[..i + 1][..i] == sets[..i];
  }

  lemma ThingsBounded(roles: map<Thing, Tally>, cells: map<(Thing, nat), Tally>, signature: seq<Thing>, masks: map<Thing, nat>, uses: seq<Appearance>, role: Thing)
    requires Tallied(roles, cells, signature, masks, uses) && role in roles && forall a :: a in uses ==> a.thing in masks
    ensures |roles[role].things| <= |masks|
  {
    assert roles[role] == RoleTally(uses, role);
    Sequences.SubsetSize(roles[role].things, masks.Keys);
  }

  /** Each set of a relationship plays each of its roles once. */
  lemma {:induction false} EverySetParticipates(sets: seq<AppearanceSet>, signature: seq<Thing>, role: Thing)
    requires role in signature && forall s :: s in sets ==> Canonical(s) && Roles(s) == signature
    ensures CountRole(Uses(sets), role) == |sets|
  {
    hide Roles;
    if sets != [] {
      var (init, last) := (sets[..|sets| - 1], sets[|sets| - 1]);
      assert sets == init + [last];
      EverySetParticipates(init, signature, role);
      assert last in sets;
      OneUse(last, signature, role);
      CountAppend(Uses(init), last, role);
    }
  }

  lemma {:induction false} CountAppend(a: seq<Appearance>, b: seq<Appearance>, role: Thing)
    ensures CountRole(a + b, role) == CountRole(a, role) + CountRole(b, role)
  {
    if b == [] {
      assert a + b == a;
    } else {
      CountAppend(a, b[..|b| - 1], role);
      assert (a + b)[..|a + b| - 1] == a + b[..|b| - 1] && (a + b)[|a + b| - 1] == b[|b| - 1];
    }
  }

  lemma OneUse(appearanceSet: AppearanceSet, signature: seq<Thing>, role: Thing)
    requires Canonical(appearanceSet) && Roles(appearanceSet) == signature && role in signature
    ensures CountRole(appearanceSet, role) == 1
  {
    var k :| 0 <= k < |signature| && signature[k] == role;
    UsedOnce(appearanceSet, role, k);
  }

  lemma {:induction false} UsedOnce(appearanceSet: AppearanceSet, role: Thing, k: nat)
    requires Canonical(appearanceSet) && k < |appearanceSet| && appearanceSet[k].role == role
    ensures CountRole(appearanceSet, role) == 1
  {
    var n := |appearanceSet| - 1;
    var init := appearanceSet[..n];
    if k < n {
      assert init[k].role == role && appearanceSet[k].role < appearanceSet[n].role;
      UsedOnce(init, role, k);
    } else {
      forall i | 0 <= i < n ensures init[i].role != role {
        assert appearanceSet[i].role < appearanceSet[n].role;
      }
      NeverUsed(init, role);
    }
  }

  lemma {:induction false} NeverUsed(uses: seq<Appearance>, role: Thing)
    requires forall i | 0 <= i < |uses| :: uses[i].role != role
    ensures CountRole(uses, role) == 0
  {
    if uses != [] {
      NeverUsed(uses[..|uses| - 1], role);
    }
  }
}
