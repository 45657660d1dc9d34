/**
 Information in effect: which assertions of each source stand at a pair of cuts.
 The resolver composes a retraction filter with two linear reductions; it is proved
 equal to a declarative meaning, from which source locality follows.
 */
module Effect {
  import opened Prelude
  import opened Sequences
  import opened Times
  import opened Constructs
  import opened Temporal

  datatype Cut = Cut(assertion: Time, appearance: Time)

  datatype Evidence = Evidence(assertion: Posit, target: Posit, positor: Thing, certainty: int)

  datatype EffectError =
    | TooManyCandidates(limit: nat)
    | MissingPosit(id: Thing)
    | MalformedAssertion(id: Thing)
    | DanglingAssertion(id: Thing, target: Thing)
    | Stopped(cause: WorkError)

  // --------------------------------------------------------- one assertion

  /** The target and positor of an exact {posit, ascertains} envelope. */
  function Envelope(appearanceSet: AppearanceSet): Option<(Thing, Thing)> {
    if |appearanceSet| == 2 && appearanceSet[0].role == POSIT_ROLE && appearanceSet[1].role == ASCERTAINS_ROLE
    then Some((appearanceSet[0].thing, appearanceSet[1].thing))
    else None
  }

  function CertaintyOf(value: Literal): Option<int> {
    if value.family.CertaintyFamily? then Some(value.meaning) else None
  }

  datatype Candidate = Ignored | Eligible(row: Evidence) | Rejected(error: EffectError)

  /** What one indexed identity contributes at a cut. */
  function Classify(posits: map<Thing, Posit>, cut: Cut, id: Thing): Candidate {
    if id !in posits then Rejected(MissingPosit(id)) else
    var assertion := posits[id];
    match Envelope(assertion.appearances)
    case None => Ignored
    case Some((target, positor)) =>
      if !DefinitelyAtOrBefore(assertion.time, cut.assertion) then Ignored
      else match CertaintyOf(assertion.value)
      case None => Rejected(MalformedAssertion(id))
      case Some(certainty) =>
        if target !in posits then Rejected(DanglingAssertion(id, target))
        else if !DefinitelyAtOrBefore(posits[target].time, cut.appearance) then Ignored
        else Eligible(Evidence(assertion, posits[target], positor, certainty))
  }

  /** The eligible rows of a list of identities, up to its first rejected one. */
  function EligibleRows(posits: map<Thing, Posit>, cut: Cut, ids: seq<Thing>): (rows: Result<seq<Evidence>, EffectError>)
    ensures rows.Ok? ==> |rows.value| <= |ids|
  {
    if ids == [] then Ok([]) else
    match EligibleRows(posits, cut, ids[..|ids| - 1])
    case Err(error) => Err(error)
    case Ok(rows) =>
      match Classify(posits, cut, ids[|ids| - 1])
      case Ignored => Ok(rows)
      case Eligible(row) => Ok(rows + [row])
      case Rejected(error) => Err(error)
  }

  lemma EligibleStep(posits: map<Thing, Posit>, cut: Cut, ids: seq<Thing>, n: nat)
    requires n < |ids|
    ensures EligibleRows(posits, cut, ids[..n + 1]) ==
            match EligibleRows(posits, cut, ids[..n])
            case Err(error) => Err(error)
            case Ok(rows) =>
              match Classify(posits, cut, ids[n])
              case Ignored => Ok(rows)
              case Eligible(row) => Ok(rows + [row])
              case Rejected(error) => Err(error)
  {
    assert ids[..n + 1][..n] == ids[..n];
  }

  lemma {:induction false} EligibleErrorsStick(posits: map<Thing, Posit>, cut: Cut, ids: seq<Thing>, n: nat)
    requires n <= |ids| && EligibleRows(posits, cut, ids[..n]).Err?
    ensures EligibleRows(posits, cut, ids) == EligibleRows(posits, cut, ids[..n])
    decreases |ids| - n
  {
    if n < |ids| {
      EligibleStep(posits, cut, ids, n);
      EligibleErrorsStick(posits, cut, ids, n + 1);
    } else {
      assert ids[..n] == ids;
    }
  }

  // ------------------------------------------------------------- eligibility

  /**
   Evidence at a pair of cuts: an assertion whose set says of a target that a positor
   ascertains it, and nothing else, with a certainty; made by the assertion cut, about a
   target that had appeared by the appearance cut.
   */
  ghost predicate Evident(posits: map<Thing, Posit>, cut: Cut, row: Evidence) {
    && row.assertion.id in posits && posits[row.assertion.id] == row.assertion
    && row.target.id in posits && posits[row.target.id] == row.target
    && |row.assertion.appearances| == 2
    && Appearance(row.target.id, POSIT_ROLE) in row.assertion.appearances && Appearance(row.positor, ASCERTAINS_ROLE) in row.assertion.appearances
    && row.assertion.value.family == CertaintyFamily && row.certainty == row.assertion.value.meaning
    && OverBy(row.assertion.time, cut.assertion) && OverBy(row.target.time, cut.appearance)
  }

  ghost predicate Keyed(posits: map<Thing, Posit>) {
    forall id :: id in posits ==> posits[id].id == id && Canonical(posits[id].appearances)
  }

  lemma EnvelopeMeans(appearanceSet: AppearanceSet, target: Thing, positor: Thing)
    requires Canonical(appearanceSet)
    ensures Envelope(appearanceSet) == Some((target, positor))
            <==> |appearanceSet| == 2 && Appearance(target, POSIT_ROLE) in appearanceSet && Appearance(positor, ASCERTAINS_ROLE) in appearanceSet
  {
  }

  lemma ClassifyMeans(posits: map<Thing, Posit>, cut: Cut, id: Thing, row: Evidence)
    requires Keyed(posits)
    ensures Classify(posits, cut, id) == Eligible(row) <==> row.assertion.id == id && Evident(posits, cut, row)
  {
    if id in posits {
      EnvelopeMeans(posits[id].appearances, row.target.id, row.positor);
      AtOrBeforeMeans(row.assertion.time, cut.assertion);
      AtOrBeforeMeans(row.target.time, cut.appearance);
      if Envelope(posits[id].appearances).Some? {
        var (target, positor) := Envelope(posits[id].appearances).value;
        EnvelopeMeans(posits[id].appearances, target, positor);
      }
    }
    hide Envelope;
    hide DefinitelyAtOrBefore;
    hide OverBy;
    hide Canonical;
  }

  /** The eligible rows are the evidence among the given identities, and all of it. */
  lemma {:induction false} EligibleMeans(posits: map<Thing, Posit>, cut: Cut, ids: seq<Thing>, row: Evidence)
    requires Keyed(posits) && EligibleRows(posits, cut, ids).Ok?
    ensures row in EligibleRows(posits, cut, ids).value <==> row.assertion.id in ids && Evident(posits, cut, row)
  {
    hide Classify;
    hide Evident;
    hide Keyed;
    if ids != [] {
      EligibleMeans(posits, cut, ids[..|ids| - 1], row);
      ClassifyMeans(posits, cut, ids[|ids| - 1], row);
      assert ids == ids[..|ids| - 1] + [ids[|ids| - 1]];
    }
  }

  /** An envelope made by the cut that carries no certainty, or whose target is not kept, or an identity that is not. */
  ghost predicate Malformed(posits: map<Thing, Posit>, cut: Cut, id: Thing) {
    || id !in posits
    || (exists target, positor ::
          && |posits[id].appearances| == 2
          && Appearance(target, POSIT_ROLE) in posits[id].appearances && Appearance(positor, ASCERTAINS_ROLE) in posits[id].appearances
          && OverBy(posits[id].time, cut.assertion) && (posits[id].value.family != CertaintyFamily || target !in posits))
  }

  lemma RejectedMeans(posits: map<Thing, Posit>, cut: Cut, id: Thing)
    requires Keyed(posits)
    ensures Classify(posits, cut, id).Rejected? <==> Malformed(posits, cut, id)
  {
    if id in posits {
      var q := posits[id];
      AtOrBeforeMeans(q.time, cut.assertion);
      if Envelope(q.appearances).Some? {
        var (target, positor) := Envelope(q.appearances).value;
        EnvelopeMeans(q.appearances, target, positor);
      }
      if target, positor :| Appearance(target, POSIT_ROLE) in q.appearances && Appearance(positor, ASCERTAINS_ROLE) in q.appearances {
        EnvelopeMeans(q.appearances, target, positor);
      }
    }
    hide DefinitelyAtOrBefore;
    hide OverBy;
  }

  /** They are refused exactly when one of the identities is malformed. */
  lemma {:induction false} RefusedMeans(posits: map<Thing, Posit>, cut: Cut, ids: seq<Thing>)
    requires Keyed(posits)
    ensures EligibleRows(posits, cut, ids).Err? <==> exists id :: id in ids && Malformed(posits, cut, id)
  {
    hide Classify;
    hide Malformed;
    hide Keyed;
    if ids != [] {
      RefusedMeans(posits, cut, ids[..|ids| - 1]);
      RejectedMeans(posits, cut, ids[|ids| - 1]);
      assert ids == ids[..|ids| - 1] + [ids[|ids| - 1]];
    }
  }

  // ------------------------------------------------------ declarative meaning

  /** A zero-certainty row of the same source on the same target is definitely after `row`. */
  ghost predicate Retracted(all: seq<Evidence>, row: Evidence) {
    exists other :: other in all && other.certainty == 0 && other.positor == row.positor
                    && other.target.id == row.target.id && DefinitelyBefore(row.assertion.time, other.assertion.time)
  }

  ghost predicate Stands(all: seq<Evidence>, row: Evidence) {
    row.certainty != 0 && !Retracted(all, row)
  }

  /** No standing row of the same source and appearance set has a definitely later target. */
  ghost predicate LatestTarget(all: seq<Evidence>, row: Evidence) {
    Stands(all, row) &&
    forall other :: other in all && Stands(all, other) && TargetKey(other) == TargetKey(row) ==>
                      !DefinitelyBefore(row.target.time, other.target.time)
  }

  /** In effect: and no such row for the same value has a definitely later assertion. */
  ghost predicate InEffect(all: seq<Evidence>, row: Evidence) {
    LatestTarget(all, row) &&
    forall other :: other in all && LatestTarget(all, other) && ValueKey(other) == ValueKey(row) ==>
                      !DefinitelyBefore(row.assertion.time, other.assertion.time)
  }

  function TargetKey(row: Evidence): (Thing, AppearanceSet) {
    (row.positor, row.target.appearances)
  }

  function ValueKey(row: Evidence): (Thing, AppearanceSet, string) {
    (row.positor, row.target.appearances, row.target.value.token)
  }

  ghost function EffectiveRows(all: seq<Evidence>): seq<Evidence> {
    Keep(all, row => InEffect(all, row))
  }

  // ----------------------------------------- reductions meet their meaning

  lemma {:induction false} MaximalAmongFirstKeeps<T(!new), K(!new)>(rows: seq<T>, key: T -> K, time: T -> Time, n: nat)
    requires n <= |rows|
    ensures MaximalAmongFirst(rows, key, time, n) == Keep(rows[..n], Undominated(rows, key, time))
  {
    if n > 0 {
      MaximalAmongFirstKeeps(rows, key, time, n - 1);
      KeepStep(rows, Undominated(rows, key, time), n - 1);
      var row := rows[n - 1];
      if Dominated(rows, key, time, n - 1) {
        var j :| 0 <= j < |rows| && key(rows[j]) == key(row) && DefinitelyBefore(time(row), time(rows[j]));
        assert rows[j] in rows;
      } else {
        forall other | other in rows && key(other) == key(row) ensures !DefinitelyBefore(time(row), time(other)) {
          var j :| 0 <= j < |rows| && rows[j] == other;
        }
      }
    } else {
      assert rows[..0] == [];
    }
  }

  ghost function Undominated<T(!new), K(!new)>(rows: seq<T>, key: T -> K, time: T -> Time): T -> bool {
    (row: T) => forall other :: other in rows && key(other) == key(row) ==> !DefinitelyBefore(time(row), time(other))
  }

  lemma MaximalKeeps<T(!new), K(!new)>(rows: seq<T>, key: T -> K, time: T -> Time)
    ensures Maximal(rows, key, time) == Keep(rows, Undominated(rows, key, time))
  {
    MaximalAmongFirstKeeps(rows, key, time, |rows|);
    assert rows[..|rows|] == rows;
  }

  lemma MaximalShrinks<T(!new), K(!new)>(rows: seq<T>, key: T -> K, time: T -> Time)
    ensures |Maximal(rows, key, time)| <= |rows|
  {
    MaximalKeeps(rows, key, time);
  }

  function TargetTime(row: Evidence): Time {
    row.target.time
  }

  function AssertionTime(row: Evidence): Time {
    row.assertion.time
  }

  /** Retraction filter, then the two reductions, is exactly the declarative selection. */
  lemma ReductionsAreEffective(all: seq<Evidence>)
    ensures var standing := Keep(all, row => Stands(all, row));
            Maximal(Maximal(standing, TargetKey, TargetTime), ValueKey, AssertionTime) == EffectiveRows(all)
  {
    var stands := (row: Evidence) => Stands(all, row);
    var standing := Keep(all, stands);
    var latest := Maximal(standing, TargetKey, TargetTime);
    MaximalKeeps(standing, TargetKey, TargetTime);
    KeepKeep(all, stands, Undominated(standing, TargetKey, TargetTime));
    forall row | row in all
      ensures Both(stands, Undominated(standing, TargetKey, TargetTime))(row) == LatestTarget(all, row)
    {
      forall other ensures other in standing <==> other in all && Stands(all, other) {
        KeepMembers(all, stands, other);
      }
    }
    var latestTarget := (row: Evidence) => LatestTarget(all, row);
    KeepAgree(all, Both(stands, Undominated(standing, TargetKey, TargetTime)), latestTarget);
    assert latest == Keep(all, latestTarget);
    MaximalKeeps(latest, ValueKey, AssertionTime);
    KeepKeep(all, latestTarget, Undominated(latest, ValueKey, AssertionTime));
    forall row | row in all
      ensures Both(latestTarget, Undominated(latest, ValueKey, AssertionTime))(row) == InEffect(all, row)
    {
      forall other ensures other in latest <==> other in all && LatestTarget(all, other) {
        KeepMembers(all, latestTarget, other);
      }
    }
    KeepAgree(all, Both(latestTarget, Undominated(latest, ValueKey, AssertionTime)), row => InEffect(all, row));
  }

  // ------------------------------------------------------------- resolution

  /** The positor and target identity of a retraction, as the frontier map keys them. */
  function RetractionKey(row: Evidence): (Thing, Thing) {
    (row.positor, row.target.id)
  }

  /** `top` is the time of one of the first `n` rows retracting `k`, and none of them starts later. */
  ghost predicate TopRetraction(all: seq<Evidence>, n: nat, k: (Thing, Thing), top: Time)
    requires n <= |all|
  {
    && (exists j :: 0 <= j < n && all[j].certainty == 0 && RetractionKey(all[j]) == k && all[j].assertion.time == top)
    && (forall j :: 0 <= j < n && all[j].certainty == 0 && RetractionKey(all[j]) == k ==>
          BoundAtMost(IntervalOf(all[j].assertion.time).start, IntervalOf(top).start))
  }

  ghost predicate NoRetraction(all: seq<Evidence>, n: nat, k: (Thing, Thing))
    requires n <= |all|
  {
    forall j :: 0 <= j < n && all[j].certainty == 0 ==> RetractionKey(all[j]) != k
  }

  lemma TopRetractionFirst(all: seq<Evidence>, n: nat)
    requires n < |all| && all[n].certainty == 0 && NoRetraction(all, n, RetractionKey(all[n]))
    ensures TopRetraction(all, n + 1, RetractionKey(all[n]), all[n].assertion.time)
  {
  }

  lemma TopRetractionStep(all: seq<Evidence>, n: nat, top: Time)
    requires n < |all| && all[n].certainty == 0 && TopRetraction(all, n, RetractionKey(all[n]), top)
    ensures TopRetraction(all, n + 1, RetractionKey(all[n]),
                          if BoundLess(IntervalOf(top).start, IntervalOf(all[n].assertion.time).start)
                          then all[n].assertion.time else top)
  {
    var (before, after) := (IntervalOf(top).start, IntervalOf(all[n].assertion.time).start);
    BoundTrichotomy(before, after);
    if BoundLess(before, after) {
      forall j | 0 <= j < n && all[j].certainty == 0 && RetractionKey(all[j]) == RetractionKey(all[n])
        ensures BoundAtMost(IntervalOf(all[j].assertion.time).start, after)
      {
        BoundTransitive(IntervalOf(all[j].assertion.time).start, before, after);
      }
    }
  }

  lemma OtherRetractions(all: seq<Evidence>, n: nat, k: (Thing, Thing), top: Time)
    requires n < |all| && (all[n].certainty != 0 || RetractionKey(all[n]) != k)
    ensures TopRetraction(all, n, k, top) ==> TopRetraction(all, n + 1, k, top)
    ensures NoRetraction(all, n, k) ==> NoRetraction(all, n + 1, k)
  {
  }

  /** The greatest-starting retraction alone decides whether a row is retracted. */
  lemma TopRetractionDecides(all: seq<Evidence>, row: Evidence, top: Time)
    requires TopRetraction(all, |all|, RetractionKey(row), top)
    ensures Retracted(all, row) <==> DefinitelyBefore(row.assertion.time, top)
  {
    if Retracted(all, row) {
      var other :| other in all && other.certainty == 0 && other.positor == row.positor
                   && other.target.id == row.target.id && DefinitelyBefore(row.assertion.time, other.assertion.time);
      var j :| 0 <= j < |all| && all[j] == other;
      WitnessSuffices(row.assertion.time, other.assertion.time, top);
    }
    if DefinitelyBefore(row.assertion.time, top) {
      var j :| 0 <= j < |all| && all[j].certainty == 0 && RetractionKey(all[j]) == RetractionKey(row) && all[j].assertion.time == top;
      assert all[j] in all;
    }
  }

  lemma NoRetractionDecides(all: seq<Evidence>, row: Evidence)
    requires NoRetraction(all, |all|, RetractionKey(row))
    ensures !Retracted(all, row)
  {
  }

  /** The frontier map after `n` rows: one frontier for each retracted key, holding its top retraction. */
  ghost predicate Retractions(frontiers: map<(Thing, Thing), Frontier>, all: seq<Evidence>, n: nat)
    requires n <= |all|
    reads frontiers.Values
  {
    && (forall k :: k in frontiers ==> frontiers[k].Valid() && TopRetraction(all, n, k, frontiers[k].time))
    && (forall k :: k !in frontiers ==> NoRetraction(all, n, k))
  }

  function Zeros(all: seq<Evidence>): (zeros: nat)
    ensures zeros <= |all|
  {
    if all == [] then 0 else Zeros(all[..|all| - 1]) + if all[|all| - 1].certainty == 0 then 1 else 0
  }

  /** The sources and targets that some row retracts. */
  lemma {:induction false} ZerosMean(all: seq<Evidence>)
    ensures Zeros(all) == |Keep(all, (row: Evidence) => row.certainty == 0)|
  {
    if all != [] {
      ZerosMean(all[..|all| - 1]);
    }
  }

  function RetractedKeys(all: seq<Evidence>): set<(Thing, Thing)> {
    set row | row in all && row.certainty == 0 :: RetractionKey(row)
  }

  /** Retractions of a source and target that an earlier row retracts already. */
  function Repeats(all: seq<Evidence>): nat {
    if all == [] then 0
    else
      var (front, last) := (all[..|all| - 1], all[|all| - 1]);
      Repeats(front) + if last.certainty == 0 && RetractionKey(last) in RetractedKeys(front) then 1 else 0
  }

  /** Rows other than retractions whose source retracts their target at some time. */
  function Challenged(all: seq<Evidence>, keys: set<(Thing, Thing)>): nat {
    if all == [] then 0
    else Challenged(all[..|all| - 1], keys) + if all[|all| - 1].certainty != 0 && RetractionKey(all[|all| - 1]) in keys then 1 else 0
  }

  lemma ChallengedStep(all: seq<Evidence>, keys: set<(Thing, Thing)>, n: nat)
    requires n < |all|
    ensures Challenged(all[..n + 1], keys) == Challenged(all[..n], keys) + if all[n].certainty != 0 && RetractionKey(all[n]) in keys then 1 else 0
  {
    assert all[..n + 1][..n] == all[..n];
  }

  lemma {:induction false} ChallengedGrow(all: seq<Evidence>, keys: set<(Thing, Thing)>, n: nat)
    requires n <= |all|
    ensures Challenged(all[..n], keys) <= Challenged(all, keys)
    decreases |all| - n
  {
    if n < |all| {
      ChallengedStep(all, keys, n);
      ChallengedGrow(all, keys, n + 1);
    } else {
      assert all[..n] == all;
    }
  }

  lemma {:induction false} ChallengedAtMost(all: seq<Evidence>, keys: set<(Thing, Thing)>)
    ensures Challenged(all, keys) + Zeros(all) <= |all|
  {
    if all != [] {
      ChallengedAtMost(all[..|all| - 1], keys);
    }
  }

  /** Row `n` enters the frontier map when it is a retraction. */
  method ObserveRetraction(all: seq<Evidence>, n: nat, frontiers: map<(Thing, Thing), Frontier>, meter: Meter)
    returns (failure: Option<WorkError>, grown: map<(Thing, Thing), Frontier>)
    requires n < |all| && Retractions(frontiers, all, n)
    requires forall k, l :: k in frontiers && l in frontiers && k != l ==> frontiers[k] != frontiers[l]
    modifies frontiers.Values, meter
    ensures failure.None? ==> Retractions(grown, all, n + 1)
    ensures forall k :: k in grown ==> fresh(grown[k]) || (k in frontiers && grown[k] == frontiers[k])
    ensures forall k, l :: k in grown && l in grown && k != l ==> grown[k] != grown[l]
    ensures failure.None? <==> old(meter.Admits(0, if all[n].certainty == 0 && RetractionKey(all[n]) in frontiers then 1 else 0))
    ensures failure.None? ==>
              && grown.Keys == frontiers.Keys + (if all[n].certainty == 0 then {RetractionKey(all[n])} else {})
              && meter.comparisons == old(meter.comparisons) + (if all[n].certainty == 0 && RetractionKey(all[n]) in frontiers then 1 else 0)
              && meter.remaining == old(meter.remaining) - (meter.comparisons - old(meter.comparisons))
  {
    hide TopRetraction;
    hide NoRetraction;
    hide IntervalOf;
    hide BoundLess;
    forall k, top | all[n].certainty != 0 || RetractionKey(all[n]) != k
      ensures TopRetraction(all, n, k, top) ==> TopRetraction(all, n + 1, k, top)
    {
      OtherRetractions(all, n, k, top);
    }
    forall k | all[n].certainty != 0 || RetractionKey(all[n]) != k
      ensures NoRetraction(all, n, k) ==> NoRetraction(all, n + 1, k)
    {
      OtherRetractions(all, n, k, BeginningOfTime);
    }
    failure, grown := None, frontiers;
    if all[n].certainty == 0 {
      var k := RetractionKey(all[n]);
      if k !in frontiers {
        TopRetractionFirst(all, n);
        var frontier := new Frontier(all[n].assertion.time);
        grown := frontiers[k := frontier];
      } else {
        TopRetractionStep(all, n, frontiers[k].time);
        var replaced := frontiers[k].Observe(all[n].assertion.time, meter);
        if replaced.Err? {
          failure := Some(replaced.error);
        }
      }
    }
  }

  method CollectRetractions(all: seq<Evidence>, meter: Meter)
    returns (failure: Option<WorkError>, frontiers: map<(Thing, Thing), Frontier>)
    modifies meter
    ensures failure.None? <==> old(meter.Admits(|all|, Repeats(all)))
    ensures failure.None? ==> Retractions(frontiers, all, |all|) && frontiers.Keys == RetractedKeys(all)
    ensures failure.None? ==> meter.comparisons == old(meter.comparisons) + Repeats(all)
    ensures failure.None? ==> meter.remaining == old(meter.remaining) - |all| - Repeats(all)
  {
    hide TopRetraction;
    hide NoRetraction;
    hide Repeats;
    hide RetractedKeys;
    frontiers := map[];
    failure := None;
    NoRetractionsYet(all);
    for index := 0 to |all|
      invariant failure.None?
      invariant forall k :: k in frontiers ==> fresh(frontiers[k])
      invariant forall k, l :: k in frontiers && l in frontiers && k != l ==> frontiers[k] != frontiers[l]
      invariant Retractions(frontiers, all, index)
      invariant frontiers.Keys == RetractedKeys(all[..index])
      invariant meter.comparisons == old(meter.comparisons) + Repeats(all[..index])
      invariant meter.remaining == old(meter.remaining) - index - Repeats(all[..index])
      invariant meter.limit.Some? && Repeats(all[..index]) > 0 ==> meter.comparisons <= meter.limit.value
    {
      RepeatsStep(all, index);
      RepeatsGrow(all, index + 1);
      failure := meter.Tick(Visit);
      if failure.Some? {
        return;
      }
      failure, frontiers := ObserveRetraction(all, index, frontiers, meter);
      if failure.Some? {
        return;
      }
    }
    assert all[..|all|] == all;
  }

  lemma NoRetractionsYet(all: seq<Evidence>)
    ensures forall k :: NoRetraction(all, 0, k)
    ensures RetractedKeys(all[..0]) == {} && Repeats(all[..0]) == 0
  {
  }

  lemma RepeatsStep(all: seq<Evidence>, n: nat)
    requires n < |all|
    ensures RetractedKeys(all[..n + 1]) == RetractedKeys(all[..n]) + if all[n].certainty == 0 then {RetractionKey(all[n])} else {}
    ensures Repeats(all[..n + 1])
            == Repeats(all[..n]) + if all[n].certainty == 0 && RetractionKey(all[n]) in RetractedKeys(all[..n]) then 1 else 0
  {
    assert all[..n + 1] == all[..n] + [all[n]] && all[..n + 1][..n] == all[..n];
  }

  lemma {:induction false} RepeatsGrow(all: seq<Evidence>, n: nat)
    requires n <= |all|
    ensures Repeats(all[..n]) <= Repeats(all)
    decreases |all| - n
  {
    hide Repeats;
    hide RetractedKeys;
    if n < |all| {
      RepeatsStep(all, n);
      RepeatsGrow(all, n + 1);
    } else {
      assert all[..n] == all;
    }
  }

  /** Comparisons are made by the retractions that repeat another's source and target: all but one for each key. */
  lemma {:induction false} RepeatsCount(all: seq<Evidence>)
    ensures Repeats(all) + |RetractedKeys(all)| == Zeros(all)
  {
    if all == [] {
      assert RetractedKeys(all) == {};
    } else {
      var (n, front) := (|all| - 1, all[..|all| - 1]);
      RepeatsCount(front);
      assert all[..n + 1] == all;
      RepeatsStep(all, n);
      ZerosStep(all, n);
      hide RetractedKeys;
      hide Repeats;
      hide Zeros;
      var k := RetractionKey(all[n]);
      if k in RetractedKeys(front) {
        assert RetractedKeys(front) + {k} == RetractedKeys(front);
      }
    }
  }

  lemma ZerosStep(all: seq<Evidence>, n: nat)
    requires n < |all|
    ensures Zeros(all[..n + 1]) == Zeros(all[..n]) + if all[n].certainty == 0 then 1 else 0
  {
    assert all[..n + 1][..n] == all[..n];
  }

  lemma {:induction false} ZerosGrow(all: seq<Evidence>, n: nat)
    requires n <= |all|
    ensures Zeros(all[..n]) <= Zeros(all) <= Zeros(all[..n]) + |all| - n
    decreases |all| - n
  {
    if n < |all| {
      ZerosStep(all, n);
      ZerosGrow(all, n + 1);
    } else {
      assert all[..n] == all;
    }
  }

  lemma NobodyChallenged(all: seq<Evidence>, keys: set<(Thing, Thing)>)
    ensures Challenged(all[..0], keys) == 0
  {
  }

  /** Drops the retractions themselves and every row one of them is definitely after. */
  method DropRetracted(all: seq<Evidence>, frontiers: map<(Thing, Thing), Frontier>, meter: Meter)
    returns (standing: Result<seq<Evidence>, WorkError>)
    requires Retractions(frontiers, all, |all|)
    modifies meter
    ensures standing.Ok? ==> standing.value == Keep(all, row => Stands(all, row))
    ensures standing.Ok? ==> |standing.value| <= |all| - Zeros(all)
    ensures standing.Ok? <==> old(meter.Admits(|all| - Zeros(all), Challenged(all, frontiers.Keys)))
    ensures standing.Ok? ==> meter.comparisons == old(meter.comparisons) + Challenged(all, frontiers.Keys)
    ensures standing.Ok? ==> meter.remaining == old(meter.remaining) - (|all| - Zeros(all)) - Challenged(all, frontiers.Keys)
  {
    hide TopRetraction;
    hide NoRetraction;
    hide DefinitelyBefore;
    hide Retracted;
    hide Challenged;
    NobodyChallenged(all, frontiers.Keys);
    var kept := [];
    for index := 0 to |all|
      invariant kept == Keep(all[..index], row => Stands(all, row))
      invariant |kept| <= index - Zeros(all[..index])
      invariant meter.comparisons == old(meter.comparisons) + Challenged(all[..index], frontiers.Keys)
      invariant meter.remaining == old(meter.remaining) - (index - Zeros(all[..index])) - Challenged(all[..index], frontiers.Keys)
      invariant meter.limit.Some? && Challenged(all[..index], frontiers.Keys) > 0 ==> meter.comparisons <= meter.limit.value
    {
      ChallengedStep(all, frontiers.Keys, index);
      ChallengedGrow(all, frontiers.Keys, index + 1);
      ZerosStep(all, index);
      ZerosGrow(all, index + 1);
      KeepStep(all, row => Stands(all, row), index);
      var row := all[index];
      if row.certainty != 0 {
        var failure := meter.Tick(Visit);
        if failure.Some? {
          return Err(failure.value);
        }
        var retracted := false;
        if RetractionKey(row) in frontiers {
          TopRetractionDecides(all, row, frontiers[RetractionKey(row)].time);
          var dominated := frontiers[RetractionKey(row)].Dominates(row.assertion.time, meter);
          if dominated.Err? {
            return Err(dominated.error);
          }
          retracted := dominated.value;
        } else {
          NoRetractionDecides(all, row);
        }
        if !retracted {
          kept := kept + [row];
        }
      }
    }
    assert all[..|all|] == all;
    return Ok(kept);
  }

  /** Reads the two roles off an appearance set, as the resolver's inner loop does. */
  method ReadEnvelope(appearanceSet: AppearanceSet) returns (envelope: Option<(Thing, Thing)>)
    requires Canonical(appearanceSet)
    ensures envelope == Envelope(appearanceSet)
  {
    if |appearanceSet| != 2 {
      return None;
    }
    var target: Option<Thing>, positor: Option<Thing> := None, None;
    for i := 0 to |appearanceSet|
      invariant target == if i > 0 && appearanceSet[0].role == POSIT_ROLE then Some(appearanceSet[0].thing)
                          else if i > 1 && appearanceSet[1].role == POSIT_ROLE then Some(appearanceSet[1].thing) else None
      invariant positor == if i > 1 && appearanceSet[1].role == ASCERTAINS_ROLE then Some(appearanceSet[1].thing)
                           else if i > 0 && appearanceSet[0].role == ASCERTAINS_ROLE then Some(appearanceSet[0].thing) else None
    {
      if appearanceSet[i].role == POSIT_ROLE {
        target := Some(appearanceSet[i].thing);
      } else if appearanceSet[i].role == ASCERTAINS_ROLE {
        positor := Some(appearanceSet[i].thing);
      }
    }
    if target.None? || positor.None? {
      return None;
    }
    return Some((target.value, positor.value));
  }

  datatype Counters = Counters(candidates: nat, eligible: nat, retractions: nat, comparisons: nat, effective: nat)

  datatype Slice = Slice(rows: seq<Evidence>, counters: Counters)

  /** The identities that the role index lists under both envelope roles. */
  function CandidateIdentities(s: Snapshot): set<Thing> {
    Posting(s.roleToPosits, POSIT_ROLE) * Posting(s.roleToPosits, ASCERTAINS_ROLE)
  }

  /** One identity of the candidate bitmap: skipped, eligible, or an error that stops the resolution. */
  method ReadCandidate(s: Snapshot, cut: Cut, id: Thing) returns (candidate: Candidate)
    requires Closed(s)
    ensures candidate == Classify(s.posits, cut, id)
    ensures candidate.Rejected? ==> !candidate.error.Stopped?
  {
    if id !in s.posits {
      return Rejected(MissingPosit(id));
    }
    var assertion := s.posits[id];
    var envelope := ReadEnvelope(assertion.appearances);
    if envelope.None? {
      return Ignored;
    }
    var (target, positor) := envelope.value;
    if !DefinitelyAtOrBefore(assertion.time, cut.assertion) {
      return Ignored;
    }
    var certainty := CertaintyOf(assertion.value);
    if certainty.None? {
      return Rejected(MalformedAssertion(id));
    }
    if target !in s.posits {
      return Rejected(DanglingAssertion(id, target));
    }
    if !DefinitelyAtOrBefore(s.posits[target].time, cut.appearance) {
      return Ignored;
    }
    return Eligible(Evidence(assertion, s.posits[target], positor, certainty.value));
  }

  lemma NothingEligible(posits: map<Thing, Posit>, cut: Cut)
    ensures EligibleRows(posits, cut, []) == Ok([]) && Zeros([]) == 0
  {
  }

  lemma ZerosSnoc(rows: seq<Evidence>, row: Evidence)
    ensures Zeros(rows + [row]) == Zeros(rows) + (if row.certainty == 0 then 1 else 0)
  {
    assert (rows + [row])[..|rows|] == rows;
  }

  lemma ClosedIsKeyed(s: Snapshot)
    requires Closed(s)
    ensures Keyed(s.posits)
  {
  }

  method CollectEligible(s: Snapshot, cut: Cut, ids: seq<Thing>, meter: Meter)
    returns (rows: Result<seq<Evidence>, EffectError>, retractions: nat)
    requires Closed(s)
    modifies meter
    ensures rows.Ok? ==> rows == EligibleRows(s.posits, cut, ids) && retractions == Zeros(rows.value)
    ensures rows.Ok? ==> forall row :: row in rows.value <==> row.assertion.id in ids && Evident(s.posits, cut, row)
    ensures rows.Err? && !rows.error.Stopped? ==> rows == EligibleRows(s.posits, cut, ids)
    ensures rows.Err? && rows.error.Stopped? ==> old(meter.remaining) < |ids|
    ensures rows.Ok? ==> meter.comparisons == old(meter.comparisons) && meter.remaining == old(meter.remaining) - |ids|
  {
    hide Classify;
    hide Closed;
    hide EligibleRows;
    hide Zeros;
    hide Evident;
    hide Keyed;
    var eligible := [];
    retractions := 0;
    NothingEligible(s.posits, cut);
    for index := 0 to |ids|
      invariant EligibleRows(s.posits, cut, ids[..index]) == Ok(eligible) && retractions == Zeros(eligible)
      invariant meter.comparisons == old(meter.comparisons)
      invariant meter.remaining == old(meter.remaining) - index
    {
      var failure := meter.Tick(Visit);
      if failure.Some? {
        return Err(Stopped(failure.value)), retractions;
      }
      EligibleStep(s.posits, cut, ids, index);
      if EligibleRows(s.posits, cut, ids[..index + 1]).Err? {
        EligibleErrorsStick(s.posits, cut, ids, index + 1);
      }
      var candidate := ReadCandidate(s, cut, ids[index]);
      match candidate {
        case Ignored =>
        case Rejected(error) =>
          return Err(error), retractions;
        case Eligible(row) =>
          ZerosSnoc(eligible, row);
          eligible := eligible + [row];
          if row.certainty == 0 {
            retractions := retractions + 1;
          }
      }
    }
    assert ids[..|ids|] == ids;
    ClosedIsKeyed(s);
    forall row ensures row in eligible <==> row.assertion.id in ids && Evident(s.posits, cut, row) {
      EligibleMeans(s.posits, cut, ids, row);
    }
    return Ok(eligible), retractions;
  }

  ghost function Standing(eligible: seq<Evidence>): seq<Evidence> {
    Keep(eligible, row => Stands(eligible, row))
  }

  /** The rows that every stage visits: all, those that are no retractions, and each reduction's twice. */
  ghost function Visits(eligible: seq<Evidence>): nat {
    var standing := Standing(eligible);
    var latest := Maximal(standing, TargetKey, TargetTime);
    |eligible| + (|eligible| - Zeros(eligible)) + 2 * |standing| + 2 * |latest|
  }

  /** The comparisons of all stages: repeated retractions, challenged rows, and each reduction's rows beside the first of a group, twice. */
  ghost function Comparisons(eligible: seq<Evidence>): nat {
    var standing := Standing(eligible);
    var latest := Maximal(standing, TargetKey, TargetTime);
    GroupsAreFewer(standing, TargetKey);
    GroupsAreFewer(latest, ValueKey);
    Repeats(eligible) + Challenged(eligible, RetractedKeys(eligible))
    + 2 * (|standing| - |Groups(standing, TargetKey)|) + 2 * (|latest| - |Groups(latest, ValueKey)|)
  }

  lemma GroupsAreFewer<T(!new), K(!new)>(rows: seq<T>, key: T -> K)
    ensures |Groups(rows, key)| <= |rows|
  {
    GroupsGrowSlowly(rows, key, |rows|);
    assert rows[..|rows|] == rows;
  }

  /** Never more than five comparisons an eligible row. */
  lemma ComparisonsAtMost(eligible: seq<Evidence>)
    ensures Comparisons(eligible) <= 5 * |eligible| && Visits(eligible) <= 6 * |eligible|
  {
    var standing := Standing(eligible);
    ChallengedAtMost(eligible, RetractedKeys(eligible));
    RepeatsCount(eligible);
    MaximalShrinks(standing, TargetKey, TargetTime);
    hide Maximal;
    hide Groups;
    hide Repeats;
    hide Challenged;
    hide Zeros;
    hide RetractedKeys;
  }

  /** The retraction filter and the two reductions over the eligible rows. */
  method SelectEffective(eligible: seq<Evidence>, meter: Meter) returns (effective: Result<seq<Evidence>, WorkError>)
    requires meter.comparisons == 0
    modifies meter
    ensures effective.Ok? ==> effective.value == EffectiveRows(eligible)
    ensures effective.Ok? <==> old(meter.Admits(Visits(eligible), Comparisons(eligible)))
    ensures effective.Ok? ==> meter.comparisons == Comparisons(eligible)
  {
    hide TopRetraction;
    hide NoRetraction;
    hide Groups;
    hide Maximal;
    hide Keep;
    hide Repeats;
    hide Challenged;
    hide Zeros;
    hide RetractedKeys;
    hide EffectiveRows;
    GroupsAreFewer(Standing(eligible), TargetKey);
    GroupsAreFewer(Maximal(Standing(eligible), TargetKey, TargetTime), ValueKey);
    var failure, frontiers := CollectRetractions(eligible, meter);
    if failure.Some? {
      return Err(failure.value);
    }
    var standing := DropRetracted(eligible, frontiers, meter);
    if standing.Err? {
      return Err(standing.error);
    }
    var latest := RetainMaximalByKey(standing.value, TargetKey, TargetTime, meter);
    if latest.Err? {
      return Err(latest.error);
    }
    MaximalShrinks(standing.value, TargetKey, TargetTime);
    effective := RetainMaximalByKey(latest.value, ValueKey, AssertionTime, meter);
    ReductionsAreEffective(eligible);
  }

  /**
   Information in effect at a cut.  A result is always the declarative selection of
   the eligible rows, found with at most five comparisons an eligible row; it is
   produced whenever the candidates are well formed and the limits admit the work.
   */
  method Resolve(s: Snapshot, cut: Cut, candidateLimit: nat, meter: Meter) returns (result: Result<Slice, EffectError>)
    requires Closed(s) && meter.comparisons == 0
    modifies meter
    ensures var ids := SortedOf(CandidateIdentities(s));
            var eligible := EligibleRows(s.posits, cut, ids);
            && (result.Ok? ==>
                  && eligible.Ok?
                  && result.value.rows == EffectiveRows(eligible.value)
                  && result.value.counters.candidates == |CandidateIdentities(s)| <= candidateLimit
                  && result.value.counters.eligible == |eligible.value|
                  && result.value.counters.retractions == Zeros(eligible.value)
                  && result.value.counters.comparisons == Comparisons(eligible.value) <= 5 * |eligible.value|
                  && result.value.counters.effective == |result.value.rows|)
            && (|ids| > candidateLimit ==> result == Err(TooManyCandidates(candidateLimit)))
            && (result.Err? ==> |ids| > candidateLimit || result.error.Stopped? || (eligible.Err? && result.error == eligible.error))
            && (|ids| <= candidateLimit && eligible.Ok? ==>
                  (result.Ok? <==> old(meter.Admits(|ids| + Visits(eligible.value), Comparisons(eligible.value)))))
  {
    hide Closed;
    hide EffectiveRows;
    hide EligibleRows;
    hide Zeros;
    hide Visits;
    hide Comparisons;
    var ids := SortedIdentities(CandidateIdentities(s));
    SortedLength(CandidateIdentities(s));
    if |ids| > candidateLimit {
      return Err(TooManyCandidates(candidateLimit));
    }
    var rows, retractions := CollectEligible(s, cut, ids, meter);
    if rows.Err? {
      return Err(rows.error);
    }
    ComparisonsAtMost(rows.value);
    var effective := SelectEffective(rows.value, meter);
    if effective.Err? {
      return Err(Stopped(effective.error));
    }
    return Ok(Slice(effective.value,
                    Counters(|ids|, |rows.value|, retractions, meter.comparisons, |effective.value|)));
  }

  // ------------------------------------------------------- what is in effect

  /** Standing evidence: it asserts something, and no later zero of the same source denies the same target. */
  ghost predicate StandsAt(s: Snapshot, cut: Cut, row: Evidence) {
    && Evident(s.posits, cut, row) && row.certainty != 0
    && forall other: Evidence ::
         Evident(s.posits, cut, other) && other.certainty == 0 && other.positor == row.positor && other.target.id == row.target.id ==>
           !DefinitelyBefore(row.assertion.time, other.assertion.time)
  }

  /** And of what the same source stands by for the same appearance set, nothing appeared later. */
  ghost predicate LatestAt(s: Snapshot, cut: Cut, row: Evidence) {
    && StandsAt(s, cut, row)
    && forall other: Evidence ::
         StandsAt(s, cut, other) && other.positor == row.positor && other.target.appearances == row.target.appearances ==>
           !DefinitelyBefore(row.target.time, other.target.time)
  }

  /** And of what then remains for the same value too, nothing was asserted later. */
  ghost predicate EffectiveAt(s: Snapshot, cut: Cut, row: Evidence) {
    && LatestAt(s, cut, row)
    && forall other: Evidence ::
         LatestAt(s, cut, other) && other.positor == row.positor && other.target.appearances == row.target.appearances
         && other.target.value.token == row.target.value.token ==>
           !DefinitelyBefore(row.assertion.time, other.assertion.time)
  }

  /** The candidates of an indexed database leave no evidence out. */
  lemma EvidentIsCandidate(s: Snapshot, cut: Cut, row: Evidence)
    requires Indexed(s) && Evident(s.posits, cut, row)
    ensures row.assertion.id in CandidateIdentities(s)
  {
    var appearances := row.assertion.appearances;
    var i :| 0 <= i < |appearances| && appearances[i] == Appearance(row.target.id, POSIT_ROLE);
    var j :| 0 <= j < |appearances| && appearances[j] == Appearance(row.positor, ASCERTAINS_ROLE);
    assert HasRole(appearances, POSIT_ROLE) && HasRole(appearances, ASCERTAINS_ROLE);
    hide OverBy;
  }

  /** The candidates are the posits whose set has both envelope roles. */
  lemma CandidatesMean(s: Snapshot, id: Thing)
    requires Indexed(s)
    ensures id in CandidateIdentities(s)
            <==> id in s.posits && HasRole(s.posits[id].appearances, POSIT_ROLE) && HasRole(s.posits[id].appearances, ASCERTAINS_ROLE)
  {
    hide Closed;
    hide RoleNameIndex;
    hide ThingIndex;
    hide SetIndex;
    hide PositIndex;
    hide ReverseIndex;
    hide HasRole;
    hide Posting;
  }

  /** What a resolution yields is exactly the information in effect at its cuts. */
  lemma EffectMeans(s: Snapshot, cut: Cut, row: Evidence)
    requires Indexed(s) && EligibleRows(s.posits, cut, SortedOf(CandidateIdentities(s))).Ok?
    ensures row in EffectiveRows(EligibleRows(s.posits, cut, SortedOf(CandidateIdentities(s))).value) <==> EffectiveAt(s, cut, row)
  {
    var ids := SortedOf(CandidateIdentities(s));
    var all := EligibleRows(s.posits, cut, ids).value;
    ClosedIsKeyed(s);
    forall other: Evidence ensures other in all <==> Evident(s.posits, cut, other) {
      EligibleMeans(s.posits, cut, ids, other);
      if Evident(s.posits, cut, other) {
        EvidentIsCandidate(s, cut, other);
      }
    }
    hide Indexed;
    hide Evident;
    hide EligibleRows;
    hide DefinitelyBefore;
    forall other: Evidence ensures (other in all && Stands(all, other)) <==> StandsAt(s, cut, other) {
    }
    hide Stands;
    hide StandsAt;
    forall other: Evidence ensures (other in all && LatestTarget(all, other)) <==> LatestAt(s, cut, other) {
    }
    hide LatestTarget;
    hide LatestAt;
    KeepMembers(all, r => InEffect(all, r), row);
  }

  // -------------------------------------------------- locality and stability

  function From(source: Thing): Evidence -> bool {
    (row: Evidence) => row.positor == source
  }

  function AssertedIn(kept: set<Thing>): Evidence -> bool {
    (row: Evidence) => row.assertion.id in kept
  }

  function In(kept: set<Thing>): Thing -> bool {
    (id: Thing) => id in kept
  }

  ghost function OfSource(all: seq<Evidence>, source: Thing): seq<Evidence> {
    Keep(all, From(source))
  }

  lemma SourceMembers(all: seq<Evidence>, source: Thing)
    ensures forall row :: row in OfSource(all, source) <==> row in all && row.positor == source
  {
    forall row ensures row in OfSource(all, source) <==> row in all && row.positor == source {
      KeepMembers(all, From(source), row);
    }
  }

  /** Whether a row is in effect depends only on the rows of its own source. */
  lemma InEffectIsLocal(all: seq<Evidence>, row: Evidence)
    ensures InEffect(all, row) <==> InEffect(OfSource(all, row.positor), row)
  {
    var own := OfSource(all, row.positor);
    SourceMembers(all, row.positor);
    forall other: Evidence | other.positor == row.positor ensures Stands(all, other) <==> Stands(own, other) {
    }
    forall other: Evidence | other.positor == row.positor ensures LatestTarget(all, other) <==> LatestTarget(own, other) {
    }
  }

  /** The effective rows of a source are what its own eligible rows alone resolve to. */
  lemma SourceLocality(all: seq<Evidence>, source: Thing)
    ensures OfSource(EffectiveRows(all), source) == EffectiveRows(OfSource(all, source))
  {
    var mine := From(source);
    var inAll := (row: Evidence) => InEffect(all, row);
    var inOwn := (row: Evidence) => InEffect(OfSource(all, source), row);
    KeepKeep(all, inAll, mine);
    KeepKeep(all, mine, inOwn);
    forall row | row in all ensures Both(inAll, mine)(row) == Both(mine, inOwn)(row) {
      InEffectIsLocal(all, row);
    }
    KeepAgree(all, Both(inAll, mine), Both(mine, inOwn));
  }

  /** Resolving the effective rows alone returns them unchanged. */
  lemma EffectiveIsStable(all: seq<Evidence>)
    ensures EffectiveRows(EffectiveRows(all)) == EffectiveRows(all)
  {
    var effective := EffectiveRows(all);
    forall row ensures row in effective <==> row in all && InEffect(all, row) {
      KeepMembers(all, (r: Evidence) => InEffect(all, r), row);
    }
    forall row | row in effective ensures InEffect(effective, row) {
    }
    KeepAll(effective, (r: Evidence) => InEffect(effective, r));
  }

  /** Reading only some assertions, and only posits those assertions need, yields just their eligible rows. */
  lemma {:induction false} EligibleOfPart(posits: map<Thing, Posit>, part: map<Thing, Posit>, cut: Cut, ids: seq<Thing>, kept: set<Thing>)
    requires forall id :: id in posits ==> posits[id].id == id
    requires forall id :: id in part ==> id in posits && part[id] == posits[id]
    requires forall id :: id in kept && id in posits ==> id in part
    requires forall id :: id in kept && id in posits && Envelope(posits[id].appearances).Some? ==>
                            var target := Envelope(posits[id].appearances).value.0;
                            target in posits ==> target in part
    requires EligibleRows(posits, cut, ids).Ok?
    ensures EligibleRows(part, cut, Keep(ids, In(kept)))
            == Ok(Keep(EligibleRows(posits, cut, ids).value, AssertedIn(kept)))
  {
    hide Classify;
    if ids != [] {
      var front, id := ids[..|ids| - 1], ids[|ids| - 1];
      EligibleOfPart(posits, part, cut, front, kept);
      var rows := EligibleRows(posits, cut, front).value;
      assert ids == front + [id];
      KeepSnoc(front, id, In(kept));
      ClassifyPart(posits, part, cut, id, kept);
      if Classify(posits, cut, id).Eligible? {
        KeepSnoc(rows, Classify(posits, cut, id).row, AssertedIn(kept));
      }
      if id in kept {
        var keptFront := Keep(front, In(kept));
        assert (keptFront + [id])[..|keptFront|] == keptFront;
      }
    }
  }

  lemma ClassifyPart(posits: map<Thing, Posit>, part: map<Thing, Posit>, cut: Cut, id: Thing, kept: set<Thing>)
    requires forall i :: i in posits ==> posits[i].id == i
    requires forall i :: i in part ==> i in posits && part[i] == posits[i]
    requires id in kept && id in posits ==> id in part
    requires id in kept && id in posits && Envelope(posits[id].appearances).Some? ==>
               var target := Envelope(posits[id].appearances).value.0;
               target in posits ==> target in part
    ensures id in kept ==> Classify(part, cut, id) == Classify(posits, cut, id)
    ensures Classify(posits, cut, id).Eligible? ==> Classify(posits, cut, id).row.assertion.id == id
  {
  }

  /** At the store: the assertions of one source and the posits they need resolve to that source's effective rows. */
  lemma SourceOfPart(posits: map<Thing, Posit>, part: map<Thing, Posit>, cut: Cut, ids: seq<Thing>, kept: set<Thing>, source: Thing)
    requires forall id :: id in posits ==> posits[id].id == id
    requires forall id :: id in part ==> id in posits && part[id] == posits[id]
    requires forall id :: id in kept <==>
                            id in posits && Envelope(posits[id].appearances).Some? && Envelope(posits[id].appearances).value.1 == source
    requires forall id :: id in kept ==>
                            id in part && (Envelope(posits[id].appearances).value.0 in posits ==> Envelope(posits[id].appearances).value.0 in part)
    requires EligibleRows(posits, cut, ids).Ok?
    ensures var mine := EligibleRows(part, cut, Keep(ids, In(kept)));
            mine.Ok? && EffectiveRows(mine.value) == OfSource(EffectiveRows(EligibleRows(posits, cut, ids).value), source)
  {
    EligibleOfPart(posits, part, cut, ids, kept);
    var all := EligibleRows(posits, cut, ids).value;
    forall row | row in all ensures row.assertion.id in kept <==> row.positor == source {
      EligibleRowsClassify(posits, cut, ids, row);
    }
    KeepAgree(all, AssertedIn(kept), From(source));
    SourceLocality(all, source);
  }

  lemma {:induction false} EligibleRowsClassify(posits: map<Thing, Posit>, cut: Cut, ids: seq<Thing>, row: Evidence)
    requires forall id :: id in posits ==> posits[id].id == id
    requires EligibleRows(posits, cut, ids).Ok? && row in EligibleRows(posits, cut, ids).value
    ensures row.assertion.id in posits && Classify(posits, cut, row.assertion.id) == Eligible(row)
  {
    if ids != [] && row in EligibleRows(posits, cut, ids[..|ids| - 1]).value {
      EligibleRowsClassify(posits, cut, ids[..|ids| - 1], row);
    }
  }
}
