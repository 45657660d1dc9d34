/**
 Linear temporal reduction.  A group keeps one witness with the greatest interval
 start; the reducers are proved equal to the quadratic filter that keeps every row
 no row of its group is definitely after.
 */
module Temporal {
  import opened Prelude
  import opened Times

  datatype Work = Visit | Comparison

  datatype WorkError = Cancelled | ResourceLimit(limit: nat)

  /** The caller's work callback: it admits `remaining` more calls, and may bound the comparisons among them. */
  class Meter {
    var remaining: nat
    var comparisons: nat
    const limit: Option<nat>

    constructor (remaining: nat, limit: Option<nat>)
      ensures this.remaining == remaining && this.limit == limit && comparisons == 0
    {
      this.remaining := remaining;
      this.limit := limit;
      comparisons := 0;
    }

    /** Whether `rows` row visits and `comparisons` comparisons all succeed from here. */
    ghost predicate Admits(rows: nat, comparisons: nat)
      reads this
    {
      rows + comparisons <= remaining && (limit.Some? && comparisons > 0 ==> this.comparisons + comparisons <= limit.value)
    }

    method Tick(work: Work) returns (failure: Option<WorkError>)
      modifies this
      ensures failure.None? <==> old(if work.Visit? then Admits(1, 0) else Admits(0, 1))
      ensures failure.None? ==> remaining == old(remaining) - 1
      ensures failure.None? ==> comparisons == old(comparisons) + (if work.Comparison? then 1 else 0)
    {
      if remaining == 0 {
        return Some(Cancelled);
      }
      remaining := remaining - 1;
      if work.Comparison? {
        comparisons := comparisons + 1;
        if limit.Some? && comparisons > limit.value {
          return Some(ResourceLimit(limit.value));
        }
      }
      return None;
    }
  }

  /** A sufficient witness for the existence of a strictly later time. */
  class Frontier {
    var time: Time
    var start: Bound

    ghost predicate Valid()
      reads this
    {
      start == IntervalOf(time).start
    }

    constructor (time: Time)
      ensures Valid() && this.time == time
    {
      this.time := time;
      this.start := IntervalOf(time).start;
    }

    /** Moves the frontier to `candidate` exactly when it starts later. */
    method Observe(candidate: Time, meter: Meter) returns (replaced: Result<bool, WorkError>)
      requires Valid()
      modifies this, meter
      ensures Valid()
      ensures replaced.Ok? <==> old(meter.Admits(0, 1))
      ensures replaced.Ok? ==>
                && meter.remaining == old(meter.remaining) - 1
                && meter.comparisons == old(meter.comparisons) + 1
                && replaced.value == BoundLess(old(start), IntervalOf(candidate).start)
                && time == (if replaced.value then candidate else old(time))
    {
      var failure := meter.Tick(Comparison);
      if failure.Some? {
        return Err(failure.value);
      }
      var begins := IntervalOf(candidate).start;
      if BoundLess(start, begins) {
        time := candidate;
        start := begins;
        return Ok(true);
      }
      return Ok(false);
    }

    method Dominates(candidate: Time, meter: Meter) returns (dominated: Result<bool, WorkError>)
      requires Valid()
      modifies meter
      ensures dominated.Ok? <==> old(meter.Admits(0, 1))
      ensures dominated.Ok? ==>
                && meter.remaining == old(meter.remaining) - 1
                && meter.comparisons == old(meter.comparisons) + 1
                && dominated.value == DefinitelyBefore(candidate, time)
    {
      var failure := meter.Tick(Comparison);
      if failure.Some? {
        return Err(failure.value);
      }
      return Ok(candidate != time && BoundAtMost(IntervalOf(candidate).end, start));
    }
  }

  // ------------------------------------------------- the quadratic reference

  /** Some row of the same group is definitely after row `i`. */
  ghost predicate Dominated<T(!new), K(!new)>(rows: seq<T>, key: T -> K, time: T -> Time, i: nat)
    requires i < |rows|
  {
    exists j :: 0 <= j < |rows| && key(rows[j]) == key(rows[i]) && DefinitelyBefore(time(rows[i]), time(rows[j]))
  }

  /** The first `n` rows without the dominated ones, in input order and with duplicates. */
  ghost function MaximalAmongFirst<T(!new), K(!new)>(rows: seq<T>, key: T -> K, time: T -> Time, n: nat): seq<T>
    requires n <= |rows|
  {
    if n == 0 then []
    else MaximalAmongFirst(rows, key, time, n - 1) + if Dominated(rows, key, time, n - 1) then [] else [rows[n - 1]]
  }

  ghost function Maximal<T(!new), K(!new)>(rows: seq<T>, key: T -> K, time: T -> Time): seq<T> {
    MaximalAmongFirst(rows, key, time, |rows|)
  }

  ghost function Groups<T(!new), K(!new)>(rows: seq<T>, key: T -> K): set<K> {
    set i | 0 <= i < |rows| :: key(rows[i])
  }

  lemma GroupsOfPrefix<T(!new), K(!new)>(rows: seq<T>, key: T -> K, n: nat)
    requires n < |rows|
    ensures Groups(rows[..n + 1], key) == Groups(rows[..n], key) + {key(rows[n])}
  {
    var longer, shorter := rows[..n + 1], rows[..n];
    forall k | k in Groups(longer, key) ensures k in Groups(shorter, key) + {key(rows[n])} {
      var i :| 0 <= i < |longer| && k == key(longer[i]);
      assert i == n || k == key(shorter[i]);
    }
    forall k | k in Groups(shorter, key) ensures k in Groups(longer, key) {
      var i :| 0 <= i < |shorter| && k == key(shorter[i]);
      assert k == key(longer[i]);
    }
    assert key(longer[n]) == key(rows[n]);
  }

  lemma {:induction false} GroupsGrowSlowly<T(!new), K(!new)>(rows: seq<T>, key: T -> K, n: nat)
    requires n <= |rows|
    ensures |Groups(rows[..n], key)| <= |Groups(rows, key)| <= |Groups(rows[..n], key)| + |rows| - n
    ensures |Groups(rows[..n], key)| <= n
    decreases |rows| - n, n
  {
    if n == |rows| {
      assert rows[..n] == rows;
      if n > 0 {
        GroupsGrowSlowlyBelow(rows, key, n);
      } else {
        assert Groups(rows, key) == {};
      }
    } else {
      GroupsGrowSlowly(rows, key, n + 1);
      GroupsOfPrefix(rows, key, n);
      GroupsGrowSlowlyBelow(rows, key, n);
      assert key(rows[n]) in Groups(rows[..n], key) ==> Groups(rows[..n + 1], key) == Groups(rows[..n], key);
    }
  }

  lemma {:induction false} GroupsGrowSlowlyBelow<T(!new), K(!new)>(rows: seq<T>, key: T -> K, n: nat)
    requires n <= |rows|
    ensures |Groups(rows[..n], key)| <= n
    decreases n
  {
    if n == 0 {
      assert Groups(rows[..0], key) == {};
    } else {
      GroupsGrowSlowlyBelow(rows, key, n - 1);
      GroupsOfPrefix(rows, key, n - 1);
    }
  }

  /** A group member with the greatest start decides, alone, whether any row of the group is dominated. */
  lemma WitnessDecides<T(!new), K(!new)>(rows: seq<T>, key: T -> K, time: T -> Time, i: nat, w: nat)
    requires i < |rows| && w < |rows| && key(rows[w]) == key(rows[i])
    requires forall j :: 0 <= j < |rows| && key(rows[j]) == key(rows[i]) ==>
                           BoundAtMost(IntervalOf(time(rows[j])).start, IntervalOf(time(rows[w])).start)
    ensures Dominated(rows, key, time, i) <==> i != w && DefinitelyBefore(time(rows[i]), time(rows[w]))
  {
    if Dominated(rows, key, time, i) {
      var j :| 0 <= j < |rows| && key(rows[j]) == key(rows[i]) && DefinitelyBefore(time(rows[i]), time(rows[j]));
      WitnessSuffices(time(rows[i]), time(rows[j]), time(rows[w]));
    }
  }

  /** What the first pass must establish about `top`: it is the greatest start among the rows of group `k` seen so far. */
  ghost predicate GreatestStart<T(!new), K(!new)>(rows: seq<T>, key: T -> K, time: T -> Time, n: nat, k: K, top: Time)
    requires n <= |rows|
  {
    forall j :: 0 <= j < n && key(rows[j]) == k ==> BoundAtMost(IntervalOf(time(rows[j])).start, IntervalOf(top).start)
  }

  lemma GreatestDecides<T(!new)>(rows: seq<T>, time: T -> Time, i: nat, w: nat)
    requires i < |rows| && w < |rows| && GreatestStart(rows, (_: T) => 0, time, |rows|, 0, time(rows[w]))
    ensures Dominated(rows, (_: T) => 0, time, i) <==> i != w && DefinitelyBefore(time(rows[i]), time(rows[w]))
  {
    WitnessDecides(rows, (_: T) => 0, time, i, w);
  }

  lemma GreatestStartStep<T(!new), K(!new)>(rows: seq<T>, key: T -> K, time: T -> Time, n: nat, top: Time)
    requires n < |rows|
    requires GreatestStart(rows, key, time, n, key(rows[n]), top)
    ensures GreatestStart(rows, key, time, n + 1, key(rows[n]),
                          if BoundLess(IntervalOf(top).start, IntervalOf(time(rows[n])).start) then time(rows[n]) else top)
  {
    var (before, after) := (IntervalOf(top).start, IntervalOf(time(rows[n])).start);
    BoundTrichotomy(before, after);
    if BoundLess(before, after) {
      forall j | 0 <= j < n && key(rows[j]) == key(rows[n])
        ensures BoundAtMost(IntervalOf(time(rows[j])).start, after)
      {
        BoundTransitive(IntervalOf(time(rows[j])).start, before, after);
      }
    }
  }

  // --------------------------------------------------------------- one group

  /** Keeps one group's maxima in order: Ok exactly when the callback admits 2n visits and 2(n - 1) comparisons. */
  method RetainMaximal<T(!new)>(rows: seq<T>, time: T -> Time, meter: Meter) returns (retained: Result<seq<T>, WorkError>)
    modifies meter
    ensures rows == [] ==> retained == Ok([])
    ensures rows != [] ==> (retained.Ok? <==> old(meter.Admits(2 * |rows|, 2 * (|rows| - 1))))
    ensures retained.Ok? ==> retained.value == Maximal(rows, (_: T) => 0, time)
    ensures retained.Ok? && rows != [] ==> meter.comparisons == old(meter.comparisons) + 2 * (|rows| - 1)
  {
    hide Dominated;
    hide GreatestStart;
    hide DefinitelyBefore;
    hide BoundLess;
    hide IntervalOf;
    if rows == [] {
      return Ok([]);
    }
    ghost var key := (_: T) => 0;
    var failure := meter.Tick(Visit);
    if failure.Some? {
      return Err(failure.value);
    }
    var frontier := new Frontier(time(rows[0]));
    var best := 0;
    GreatestStartFirst(rows, key, time, 0);
    for index := 1 to |rows|
      invariant frontier.Valid() && fresh(frontier)
      invariant best < index && frontier.time == time(rows[best])
      invariant GreatestStart(rows, key, time, index, 0, frontier.time)
      invariant meter.comparisons == old(meter.comparisons) + index - 1
      invariant meter.remaining == old(meter.remaining) - (2 * index - 1)
      invariant meter.limit.Some? && index > 1 ==> meter.comparisons <= meter.limit.value
    {
      failure := meter.Tick(Visit);
      if failure.Some? {
        return Err(failure.value);
      }
      GreatestStartStep(rows, key, time, index, frontier.time);
      var replaced := frontier.Observe(time(rows[index]), meter);
      if replaced.Err? {
        return Err(replaced.error);
      }
      if replaced.value {
        best := index;
      }
    }
    retained := KeepGroupMaxima(rows, time, frontier, best, meter);
  }

  /** The second pass over one group: every row but the witness is compared with the frontier. */
  method KeepGroupMaxima<T(!new)>(rows: seq<T>, time: T -> Time, frontier: Frontier, best: nat, meter: Meter) returns (retained: Result<seq<T>, WorkError>)
    requires best < |rows| && frontier.Valid() && frontier.time == time(rows[best])
    requires GreatestStart(rows, (_: T) => 0, time, |rows|, 0, frontier.time)
    requires meter.limit.Some? && |rows| > 1 ==> meter.comparisons <= meter.limit.value
    modifies meter
    ensures retained.Ok? <==> old(meter.Admits(|rows|, |rows| - 1))
    ensures retained.Ok? ==> retained.value == Maximal(rows, (_: T) => 0, time)
    ensures retained.Ok? ==> meter.comparisons == old(meter.comparisons) + |rows| - 1
  {
    hide Dominated;
    hide GreatestStart;
    hide DefinitelyBefore;
    hide BoundLess;
    hide IntervalOf;
    ghost var key := (_: T) => 0;
    var failure;
    var kept := [];
    for index := 0 to |rows|
      invariant frontier.Valid() && frontier.time == time(rows[best])
      invariant kept == MaximalAmongFirst(rows, key, time, index)
      invariant meter.comparisons == old(meter.comparisons) + index - (if best < index then 1 else 0)
      invariant meter.remaining == old(meter.remaining) - 2 * index + (if best < index then 1 else 0)
      invariant meter.limit.Some? && |rows| > 1 ==> meter.comparisons <= meter.limit.value
    {
      failure := meter.Tick(Visit);
      if failure.Some? {
        return Err(failure.value);
      }
      GreatestDecides(rows, time, index, best);
      if index == best {
        kept := kept + [rows[index]];
      } else {
        var dominated := frontier.Dominates(time(rows[index]), meter);
        if dominated.Err? {
          return Err(dominated.error);
        }
        if !dominated.value {
          kept := kept + [rows[index]];
        }
      }
    }
    return Ok(kept);
  }

  // ------------------------------------------------------------- many groups

  /** How many of the first `n` rows are their group's witness. */
  ghost function WitnessCount(membership: seq<nat>, best: seq<nat>, n: nat): (count: nat)
    requires n <= |membership|
    ensures count <= n
  {
    if n == 0 then 0
    else WitnessCount(membership, best, n - 1) + if IsWitness(membership, best, n - 1) then 1 else 0
  }

  ghost predicate IsWitness(membership: seq<nat>, best: seq<nat>, i: nat)
    requires i < |membership|
  {
    membership[i] < |best| && best[membership[i]] == i
  }

  /** Every row seen so far belongs to the group of its key. */
  ghost predicate Assigned<T(!new), K(!new)>(rows: seq<T>, key: T -> K, n: nat, groups: map<K, nat>, membership: seq<nat>)
  {
    && n == |membership| <= |rows|
    && (forall i :: 0 <= i < n ==> key(rows[i]) in groups && membership[i] == groups[key(rows[i])] < |groups|)
    && (forall k :: k in groups ==> groups[k] < |groups|)
    && (forall k, l :: k in groups && l in groups && groups[k] == groups[l] ==> k == l)
  }

  /** Every group's witness is one of its rows and has the greatest start among them. */
  ghost predicate Witnessed<T(!new), K(!new)>(rows: seq<T>, key: T -> K, time: T -> Time, n: nat,
                                              membership: seq<nat>, best: seq<nat>)
  {
    && n == |membership| <= |rows|
    && (forall g :: 0 <= g < |best| ==> best[g] < n && membership[best[g]] == g)
    && (forall g :: 0 <= g < |best| ==> GreatestStart(rows, key, time, n, key(rows[best[g]]), time(rows[best[g]])))
  }

  /** The state of the first pass after `n` rows. */
  ghost predicate Grouped<T(!new), K(!new)>(rows: seq<T>, key: T -> K, time: T -> Time, n: nat,
                                            groups: map<K, nat>, membership: seq<nat>, best: seq<nat>)
  {
    && Assigned(rows, key, n, groups, membership)
    && Witnessed(rows, key, time, n, membership, best)
    && n == |membership| <= |rows|
    && groups.Keys == Groups(rows[..n], key)
    && |groups| == |best| == WitnessCount(membership, best, n)
  }

  /** A row of a grouped prefix and the witness of its group have the same key. */
  lemma GroupOfRow<T(!new), K(!new)>(rows: seq<T>, key: T -> K, time: T -> Time, n: nat,
                                     groups: map<K, nat>, membership: seq<nat>, best: seq<nat>, k: K)
    requires Grouped(rows, key, time, n, groups, membership, best) && k in groups
    ensures groups[k] < |best| && best[groups[k]] < n && key(rows[best[groups[k]]]) == k
  {
    hide GreatestStart;
    var i :| 0 <= i < |rows[..n]| && key(rows[..n][i]) == k;
    assert key(rows[i]) == k;
    assert membership[best[groups[k]]] == groups[key(rows[best[groups[k]]])];
  }

  lemma {:induction false} WitnessCountPrefix(membership: seq<nat>, best: seq<nat>, newGroup: nat, newBest: seq<nat>, n: nat)
    requires n <= |membership|
    requires best <= newBest
    requires forall i :: 0 <= i < n ==> membership[i] < |best|
    ensures WitnessCount(membership + [newGroup], newBest, n) == WitnessCount(membership, best, n)
  {
    if n > 0 {
      WitnessCountPrefix(membership, best, newGroup, newBest, n - 1);
    }
  }

  lemma {:induction false} WitnessCountReplaced(membership: seq<nat>, best: seq<nat>, group: nat, n: nat)
    requires n <= |membership| && group < |best|
    requires best[group] < |membership| && membership[best[group]] == group
    ensures WitnessCount(membership + [group], best[group := |membership|], n)
            == WitnessCount(membership, best, n) - (if best[group] < n then 1 else 0)
  {
    if n > 0 {
      WitnessCountReplaced(membership, best, group, n - 1);
    }
  }

  lemma {:induction false} WitnessCountSteps(membership: seq<nat>, best: seq<nat>, n: nat, m: nat)
    requires n <= m <= |membership|
    ensures WitnessCount(membership, best, n) <= WitnessCount(membership, best, m) <= WitnessCount(membership, best, n) + m - n
  {
    if n < m {
      WitnessCountSteps(membership, best, n, m - 1);
    }
  }

  /** A row of a new group founds that group and is its witness. */
  lemma FoundGroup<T(!new), K(!new)>(rows: seq<T>, key: T -> K, time: T -> Time, n: nat,
                                     groups: map<K, nat>, membership: seq<nat>, best: seq<nat>)
    requires n < |rows| && Grouped(rows, key, time, n, groups, membership, best)
    requires key(rows[n]) !in groups
    ensures Grouped(rows, key, time, n + 1, groups[key(rows[n]) := |best|], membership + [|best|], best + [n])
  {
    hide GreatestStart;
    hide Witnessed;
    hide Groups;
    hide Assigned;
    GroupsOfPrefix(rows, key, n);
    FoundGroupCount(rows, key, n, groups, membership, best);
    FoundGroupAssigned(rows, key, n, groups, membership);
    FoundGroupWitness(rows, key, time, n, groups, membership, best);
  }

  lemma FoundGroupCount<T(!new), K(!new)>(rows: seq<T>, key: T -> K, n: nat, groups: map<K, nat>,
                                          membership: seq<nat>, best: seq<nat>)
    requires Assigned(rows, key, n, groups, membership) && |groups| == |best|
    ensures WitnessCount(membership + [|best|], best + [n], n + 1) == WitnessCount(membership, best, n) + 1
  {
    WitnessCountPrefix(membership, best, |best|, best + [n], n);
  }

  lemma FoundGroupAssigned<T(!new), K(!new)>(rows: seq<T>, key: T -> K, n: nat, groups: map<K, nat>, membership: seq<nat>)
    requires n < |rows| && Assigned(rows, key, n, groups, membership) && key(rows[n]) !in groups
    ensures Assigned(rows, key, n + 1, groups[key(rows[n]) := |groups|], membership + [|groups|])
  {
  }

  lemma FoundGroupWitness<T(!new), K(!new)>(rows: seq<T>, key: T -> K, time: T -> Time, n: nat,
                                            groups: map<K, nat>, membership: seq<nat>, best: seq<nat>)
    requires n < |rows| && Assigned(rows, key, n, groups, membership) && Witnessed(rows, key, time, n, membership, best)
    requires key(rows[n]) !in groups
    ensures Witnessed(rows, key, time, n + 1, membership + [|best|], best + [n])
  {
    hide GreatestStart;
    var longer := best + [n];
    forall g | 0 <= g < |longer|
      ensures GreatestStart(rows, key, time, n + 1, key(rows[longer[g]]), time(rows[longer[g]]))
    {
      if g < |best| {
        assert key(rows[best[g]]) in groups;
        GreatestStartOther(rows, key, time, n, key(rows[best[g]]), time(rows[best[g]]));
      } else {
        assert forall j :: 0 <= j < n ==> key(rows[j]) in groups;
        GreatestStartFirst(rows, key, time, n);
      }
    }
  }

  lemma GreatestStartOther<T(!new), K(!new)>(rows: seq<T>, key: T -> K, time: T -> Time, n: nat, k: K, top: Time)
    requires n < |rows| && key(rows[n]) != k
    requires GreatestStart(rows, key, time, n, k, top)
    ensures GreatestStart(rows, key, time, n + 1, k, top)
  {
  }

  lemma GreatestStartFirst<T(!new), K(!new)>(rows: seq<T>, key: T -> K, time: T -> Time, n: nat)
    requires n < |rows| && forall j :: 0 <= j < n ==> key(rows[j]) != key(rows[n])
    ensures GreatestStart(rows, key, time, n + 1, key(rows[n]), time(rows[n]))
  {
  }

  /** A row of a known group joins it, and becomes its witness when it starts later than the current one. */
  lemma JoinGroup<T(!new), K(!new)>(rows: seq<T>, key: T -> K, time: T -> Time, n: nat,
                                    groups: map<K, nat>, membership: seq<nat>, best: seq<nat>)
    requires n < |rows| && Grouped(rows, key, time, n, groups, membership, best)
    requires key(rows[n]) in groups
    ensures groups[key(rows[n])] < |best| && best[groups[key(rows[n])]] < n
    ensures var group := groups[key(rows[n])];
            var later := BoundLess(IntervalOf(time(rows[best[group]])).start, IntervalOf(time(rows[n])).start);
            Grouped(rows, key, time, n + 1, groups, membership + [group], if later then best[group := n] else best)
  {
    hide GreatestStart;
    hide Witnessed;
    hide BoundLess;
    hide IntervalOf;
    GroupKnown(rows, key, n, groups);
    GroupOfRow(rows, key, time, n, groups, membership, best, key(rows[n]));
    JoinGroupWitness(rows, key, time, n, groups, membership, best);
    JoinGroupCount(membership, best, groups[key(rows[n])]);
  }

  lemma JoinGroupCount(membership: seq<nat>, best: seq<nat>, group: nat)
    requires group < |best| && best[group] < |membership| && membership[best[group]] == group
    requires forall i :: 0 <= i < |membership| ==> membership[i] < |best|
    ensures WitnessCount(membership + [group], best[group := |membership|], |membership| + 1)
            == WitnessCount(membership, best, |membership|)
            == WitnessCount(membership + [group], best, |membership| + 1)
  {
    WitnessCountReplaced(membership, best, group, |membership|);
    WitnessCountPrefix(membership, best, group, best, |membership|);
  }

  lemma JoinGroupWitness<T(!new), K(!new)>(rows: seq<T>, key: T -> K, time: T -> Time, n: nat,
                                           groups: map<K, nat>, membership: seq<nat>, best: seq<nat>)
    requires n < |rows| && Assigned(rows, key, n, groups, membership) && Witnessed(rows, key, time, n, membership, best)
    requires key(rows[n]) in groups && groups[key(rows[n])] < |best|
    requires key(rows[best[groups[key(rows[n])]]]) == key(rows[n])
    ensures var group := groups[key(rows[n])];
            var later := BoundLess(IntervalOf(time(rows[best[group]])).start, IntervalOf(time(rows[n])).start);
            && membership[best[group]] == group
            && Witnessed(rows, key, time, n + 1, membership + [group], if later then best[group := n] else best)
  {
    hide GreatestStart;
    hide BoundLess;
    hide IntervalOf;
    var group := groups[key(rows[n])];
    var later := BoundLess(IntervalOf(time(rows[best[group]])).start, IntervalOf(time(rows[n])).start);
    GreatestStartStep(rows, key, time, n, time(rows[best[group]]));
    var newer := if later then best[group := n] else best;
    forall g | 0 <= g < |best|
      ensures GreatestStart(rows, key, time, n + 1, key(rows[newer[g]]), time(rows[newer[g]]))
    {
      if g != group {
        assert membership[best[g]] == groups[key(rows[best[g]])] == g;
        GreatestStartOther(rows, key, time, n, key(rows[best[g]]), time(rows[best[g]]));
      }
    }
  }

  /** The witness of its group decides whether a row survives the reduction. */
  lemma WitnessOfRow<T(!new), K(!new)>(rows: seq<T>, key: T -> K, time: T -> Time,
                                       groups: map<K, nat>, membership: seq<nat>, best: seq<nat>, i: nat)
    requires i < |rows| && Grouped(rows, key, time, |rows|, groups, membership, best)
    ensures membership[i] < |best| && best[membership[i]] < |rows|
    ensures var w := best[membership[i]];
            Dominated(rows, key, time, i) <==> i != w && DefinitelyBefore(time(rows[i]), time(rows[w]))
  {
    GroupOfRow(rows, key, time, |rows|, groups, membership, best, key(rows[i]));
    WitnessDecides(rows, key, time, i, best[membership[i]]);
  }

  /** The frontiers hold the witnesses' times. */
  ghost predicate Holds<T(!new)>(frontiers: seq<Frontier>, rows: seq<T>, time: T -> Time, best: seq<nat>)
    reads frontiers
  {
    && |frontiers| == |best|
    && (forall g :: 0 <= g < |frontiers| ==>
          frontiers[g].Valid() && best[g] < |rows| && frontiers[g].time == time(rows[best[g]]))
  }

  /** Row `index` joins `group`: it becomes the group's witness when it starts later. */
  lemma HoldsNothing<T(!new)>(rows: seq<T>, time: T -> Time)
    ensures Holds([], rows, time, [])
  {
  }

  lemma HoldsOneMore<T(!new)>(frontiers: seq<Frontier>, rows: seq<T>, time: T -> Time, best: seq<nat>, frontier: Frontier, index: nat)
    requires Holds(frontiers, rows, time, best) && index < |rows| && frontier.Valid() && frontier.time == time(rows[index])
    ensures Holds(frontiers + [frontier], rows, time, best + [index]) && |frontiers| == |best|
  {
  }

  method ObserveMember<T(!new)>(rows: seq<T>, time: T -> Time, index: nat, group: nat, frontiers: seq<Frontier>,
                                best: seq<nat>, meter: Meter)
    returns (failure: Option<WorkError>, newer: seq<nat>)
    requires index < |rows| && group < |frontiers| && Holds(frontiers, rows, time, best)
    requires forall g, h :: 0 <= g < h < |frontiers| ==> frontiers[g] != frontiers[h]
    modifies frontiers[group], meter
    ensures failure.None? <==> old(meter.Admits(0, 1))
    ensures failure.None? ==>
              && meter.comparisons == old(meter.comparisons) + 1
              && meter.remaining == old(meter.remaining) - 1
              && newer == (if BoundLess(IntervalOf(time(rows[best[group]])).start, IntervalOf(time(rows[index])).start)
                           then best[group := index] else best)
              && Holds(frontiers, rows, time, newer)
  {
    hide BoundLess;
    hide IntervalOf;
    newer := best;
    var replaced := frontiers[group].Observe(time(rows[index]), meter);
    if replaced.Err? {
      return Some(replaced.error), newer;
    }
    if replaced.value {
      newer := best[group := index];
    }
    return None, newer;
  }

  /** First pass: the membership of every row and one frontier a group, with n - groups comparisons. */
  method GroupRows<T(!new), K(==, !new)>(rows: seq<T>, key: T -> K, time: T -> Time, meter: Meter)
    returns (failure: Option<WorkError>, frontiers: seq<Frontier>, membership: seq<nat>,
             best: seq<nat>, ghost groups: map<K, nat>)
    modifies meter
    ensures |Groups(rows, key)| <= |rows|
    ensures failure.None? <==> old(meter.Admits(|rows|, |rows| - |Groups(rows, key)|))
    ensures forall g :: 0 <= g < |frontiers| ==> fresh(frontiers[g])
    ensures failure.None? ==>
              && Grouped(rows, key, time, |rows|, groups, membership, best)
              && Holds(frontiers, rows, time, best)
              && meter.comparisons == old(meter.comparisons) + |rows| - |best|
              && meter.remaining == old(meter.remaining) - |rows| - (|rows| - |best|)
  {
    hide Assigned;
    hide Witnessed;
    hide Dominated;
    hide GreatestStart;
    hide Groups;
    hide IsWitness;
    hide WitnessCount;
    hide DefinitelyBefore;
    hide BoundLess;
    hide IntervalOf;
    hide Grouped;
    hide Holds;
    var slots: map<K, nat> := map[];
    frontiers, membership, best := [], [], [];
    groups := slots;
    failure := None;
    GroupsGrowSlowly(rows, key, 0);
    GroupedEmpty(rows, key, time);
    HoldsNothing(rows, time);
    for index := 0 to |rows|
      invariant failure.None?
      invariant forall g :: 0 <= g < |frontiers| ==> fresh(frontiers[g])
      invariant forall g, h :: 0 <= g < h < |frontiers| ==> frontiers[g] != frontiers[h]
      invariant Grouped(rows, key, time, index, slots, membership, best)
      invariant Holds(frontiers, rows, time, best) && |frontiers| == |best|
      invariant meter.comparisons == old(meter.comparisons) + index - |best|
      invariant meter.remaining == old(meter.remaining) - index - (index - |best|)
      invariant meter.limit.Some? && index > |best| ==> meter.comparisons <= meter.limit.value
    {
      GroupedParts(rows, key, time, index, slots, membership, best);
      GroupsGrowSlowly(rows, key, index);
      GroupsGrowSlowly(rows, key, index + 1);
      failure := meter.Tick(Visit);
      if failure.Some? {
        return;
      }
      var k := key(rows[index]);
      if k !in slots {
        FoundGroup(rows, key, time, index, slots, membership, best);
        var frontier := new Frontier(time(rows[index]));
        HoldsOneMore(frontiers, rows, time, best, frontier, index);
        membership := membership + [|frontiers|];
        slots := slots[k := |frontiers|];
        frontiers := frontiers + [frontier];
        best := best + [index];
      } else {
        JoinGroup(rows, key, time, index, slots, membership, best);
        GroupKnown(rows, key, index, slots);
        failure, best := ObserveMember(rows, time, index, slots[k], frontiers, best, meter);
        if failure.Some? {
          return;
        }
        membership := membership + [slots[k]];
      }
    }
    GroupedParts(rows, key, time, |rows|, slots, membership, best);
    assert rows[..|rows|] == rows;
    assert |slots| == |slots.Keys| == |Groups(rows, key)|;
    groups := slots;
  }

  /** Second pass: a row stays unless its group's frontier dominates it, with n - groups more comparisons. */
  method KeepMaxima<T(!new), K(!new)>(rows: seq<T>, ghost key: T -> K, time: T -> Time, frontiers: seq<Frontier>,
                                      membership: seq<nat>, best: seq<nat>, ghost groups: map<K, nat>, meter: Meter)
    returns (retained: Result<seq<T>, WorkError>)
    requires Grouped(rows, key, time, |rows|, groups, membership, best)
    requires Holds(frontiers, rows, time, best)
    modifies meter
    ensures retained.Ok? <==> old(meter.Admits(|rows|, |rows| - |best|))
    ensures retained.Ok? ==> retained.value == Maximal(rows, key, time)
    ensures retained.Ok? ==> meter.comparisons == old(meter.comparisons) + |rows| - |best|
    ensures retained.Ok? ==> meter.remaining == old(meter.remaining) - |rows| - (|rows| - |best|)
  {
    hide Assigned;
    hide Witnessed;
    hide Dominated;
    hide Groups;
    hide IsWitness;
    hide DefinitelyBefore;
    hide IntervalOf;
    var kept := [];
    for index := 0 to |rows|
      invariant kept == MaximalAmongFirst(rows, key, time, index)
      invariant meter.comparisons == old(meter.comparisons) + index - WitnessCount(membership, best, index)
      invariant meter.remaining == old(meter.remaining) - index - (index - WitnessCount(membership, best, index))
      invariant meter.limit.Some? && meter.comparisons > old(meter.comparisons) ==> meter.comparisons <= meter.limit.value
    {
      WitnessCountSteps(membership, best, index + 1, |rows|);
      WitnessOfRow(rows, key, time, groups, membership, best, index);
      IsWitnessMeans(membership, best, index);
      var failure := meter.Tick(Visit);
      if failure.Some? {
        return Err(failure.value);
      }
      var group := membership[index];
      if index == best[group] {
        kept := kept + [rows[index]];
      } else {
        var dominated := frontiers[group].Dominates(time(rows[index]), meter);
        if dominated.Err? {
          return Err(dominated.error);
        }
        if !dominated.value {
          kept := kept + [rows[index]];
        }
      }
    }
    return Ok(kept);
  }

  /**
   Keeps every group's maxima, in input order and with bag multiplicity: Ok exactly
   when the callback admits 2n visits and 2(n - groups) comparisons, all of them made.
   */
  method RetainMaximalByKey<T(!new), K(==, !new)>(rows: seq<T>, key: T -> K, time: T -> Time, meter: Meter)
    returns (retained: Result<seq<T>, WorkError>)
    modifies meter
    ensures |Groups(rows, key)| <= |rows|
    ensures retained.Ok? <==> old(meter.Admits(2 * |rows|, 2 * (|rows| - |Groups(rows, key)|)))
    ensures retained.Ok? ==> retained.value == Maximal(rows, key, time)
    ensures retained.Ok? ==> meter.comparisons == old(meter.comparisons) + 2 * (|rows| - |Groups(rows, key)|)
    ensures retained.Ok? ==> meter.remaining == old(meter.remaining) - 2 * |rows| - 2 * (|rows| - |Groups(rows, key)|)
  {
    var failure, frontiers, membership, best, groups := GroupRows(rows, key, time, meter);
    if failure.Some? {
      return Err(failure.value);
    }
    assert rows[..|rows|] == rows;
    retained := KeepMaxima(rows, key, time, frontiers, membership, best, groups, meter);
  }

  lemma IsWitnessMeans(membership: seq<nat>, best: seq<nat>, i: nat)
    requires i < |membership| && membership[i] < |best|
    ensures IsWitness(membership, best, i) <==> i == best[membership[i]]
  {
  }

  lemma GroupKnown<T(!new), K(!new)>(rows: seq<T>, key: T -> K, n: nat, groups: map<K, nat>)
    requires n < |rows| && groups.Keys == Groups(rows[..n], key) && key(rows[n]) in groups
    ensures Groups(rows[..n + 1], key) == Groups(rows[..n], key)
  {
    GroupsOfPrefix(rows, key, n);
  }

  lemma GroupedParts<T(!new), K(!new)>(rows: seq<T>, key: T -> K, time: T -> Time, n: nat,
                                       groups: map<K, nat>, membership: seq<nat>, best: seq<nat>)
    requires Grouped(rows, key, time, n, groups, membership, best)
    ensures groups.Keys == Groups(rows[..n], key) && |groups| == |best| && |membership| == n <= |rows|
  {
  }

  lemma GroupedEmpty<T(!new), K(!new)>(rows: seq<T>, key: T -> K, time: T -> Time)
    ensures Grouped(rows, key, time, 0, map[], [], [])
  {
  }
}
