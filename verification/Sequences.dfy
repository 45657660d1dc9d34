/** Filtering sequences and walking a set of identities in ascending order. */
module Sequences {

  ghost function Keep<T(!new)>(xs: seq<T>, p: T -> bool): (kept: seq<T>)
    ensures |kept| <= |xs|
  {
    if xs == [] then [] else Keep(xs[..|xs| - 1], p) + if p(xs[|xs| - 1]) then [xs[|xs| - 1]] else []
  }

  lemma {:induction false} KeepMembers<T(!new)>(xs: seq<T>, p: T -> bool, x: T)
    ensures x in Keep(xs, p) <==> x in xs && p(x)
  {
    if xs != [] {
      KeepMembers(xs[..|xs| - 1], p, x);
      assert xs == xs[..|xs| - 1] + [xs[|xs| - 1]];
    }
  }

  ghost function Both<T(!new)>(p: T -> bool, q: T -> bool): T -> bool {
    (x: T) => p(x) && q(x)
  }

  lemma {:induction false} KeepKeep<T(!new)>(xs: seq<T>, p: T -> bool, q: T -> bool)
    ensures Keep(Keep(xs, p), q) == Keep(xs, Both(p, q))
  {
    if xs != [] {
      KeepKeep(xs[..|xs| - 1], p, q);
      var front := Keep(xs[..|xs| - 1], p);
      assert (front + [xs[|xs| - 1]])[..|front|] == front && front + [] == front;
    }
  }

  lemma {:induction false} KeepAgree<T(!new)>(xs: seq<T>, p: T -> bool, q: T -> bool)
    requires forall x :: x in xs ==> p(x) == q(x)
    ensures Keep(xs, p) == Keep(xs, q)
  {
    if xs != [] {
      KeepAgree(xs[..|xs| - 1], p, q);
    }
  }

  lemma {:induction false} KeepAll<T(!new)>(xs: seq<T>, p: T -> bool)
    requires forall x :: x in xs ==> p(x)
    ensures Keep(xs, p) == xs
  {
    if xs != [] {
      KeepAll(xs[..|xs| - 1], p);
    }
  }

  lemma KeepSnoc<T(!new)>(xs: seq<T>, x: T, p: T -> bool)
    ensures Keep(xs + [x], p) == if p(x) then Keep(xs, p) + [x] else Keep(xs, p)
  {
    assert (xs + [x])[..|xs|] == xs && Keep(xs, p) + [] == Keep(xs, p);
  }

  lemma KeepStep<T(!new)>(xs: seq<T>, p: T -> bool, n: nat)
    requires n < |xs|
    ensures Keep(xs[..n + 1], p) == Keep(xs[..n], p) + if p(xs[n]) then [xs[n]] else []
  {
    assert xs[..n + 1][..n] == xs[..n];
  }

  // -------------------------------------------------------------- flat mapping

  ghost function FlatMap<S(!new), T(!new)>(xs: seq<S>, f: S -> seq<T>): seq<T> {
    if xs == [] then [] else FlatMap(xs[..|xs| - 1], f) + f(xs[|xs| - 1])
  }

  lemma FlatMapSnoc<S(!new), T(!new)>(xs: seq<S>, x: S, f: S -> seq<T>)
    ensures FlatMap(xs + [x], f) == FlatMap(xs, f) + f(x)
  {
    assert (xs + [x])[..|xs|] == xs;
  }

  lemma FlatMapOne<S(!new), T(!new)>(x: S, f: S -> seq<T>)
    ensures FlatMap([x], f) == f(x)
  {
    assert [x][..0] == [];
    assert FlatMap([], f) == [];
  }

  lemma {:induction false} FlatMapConcat<S(!new), T(!new)>(xs: seq<S>, ys: seq<S>, f: S -> seq<T>)
    ensures FlatMap(xs + ys, f) == FlatMap(xs, f) + FlatMap(ys, f)
  {
    if ys == [] {
      assert xs + ys == xs;
    } else {
      var front := ys[..|ys| - 1];
      FlatMapConcat(xs, front, f);
      assert (xs + ys)[..|xs + ys| - 1] == xs + front;
    }
  }

  lemma {:induction false} FlatMapAgree<S(!new), T(!new)>(xs: seq<S>, f: S -> seq<T>, g: S -> seq<T>)
    requires forall x :: x in xs ==> f(x) == g(x)
    ensures FlatMap(xs, f) == FlatMap(xs, g)
  {
    if xs != [] {
      FlatMapAgree(xs[..|xs| - 1], f, g);
    }
  }

  lemma {:induction false} FlatMapMembers<S(!new), T(!new)>(xs: seq<S>, f: S -> seq<T>, y: T)
    ensures y in FlatMap(xs, f) <==> exists x :: x in xs && y in f(x)
  {
    if xs != [] {
      var front, last := xs[..|xs| - 1], xs[|xs| - 1];
      FlatMapMembers(front, f, y);
      assert xs == front + [last];
    }
  }

  ghost function Then<S(!new), T(!new), U(!new)>(f: S -> seq<T>, g: T -> seq<U>): S -> seq<U> {
    (x: S) => FlatMap(f(x), g)
  }

  lemma {:induction false} FlatMapFlatMap<S(!new), T(!new), U(!new)>(xs: seq<S>, f: S -> seq<T>, g: T -> seq<U>)
    ensures FlatMap(FlatMap(xs, f), g) == FlatMap(xs, Then(f, g))
  {
    if xs != [] {
      FlatMapFlatMap(xs[..|xs| - 1], f, g);
      FlatMapConcat(FlatMap(xs[..|xs| - 1], f), f(xs[|xs| - 1]), g);
    }
  }

  /** Elements that map to nothing may be dropped beforehand. */
  lemma {:induction false} FlatMapKeep<S(!new), T(!new)>(xs: seq<S>, p: S -> bool, f: S -> seq<T>)
    requires forall x :: x in xs && !p(x) ==> f(x) == []
    ensures FlatMap(Keep(xs, p), f) == FlatMap(xs, f)
  {
    if xs != [] {
      var front, last := xs[..|xs| - 1], xs[|xs| - 1];
      FlatMapKeep(front, p, f);
      if p(last) {
        FlatMapSnoc(Keep(front, p), last, f);
      }
      assert Keep(front, p) + [] == Keep(front, p);
      assert FlatMap(front, f) + [] == FlatMap(front, f);
    }
  }

  // ------------------------------------------------------ ascending identities

  predicate Ascending(ids: seq<nat>) {
    forall i, j :: 0 <= i < j < |ids| ==> ids[i] < ids[j]
  }

  ghost predicate IsLeast(ids: set<nat>, least: nat) {
    least in ids && forall other :: other in ids ==> least <= other
  }

  lemma {:induction false} LeastExists(ids: set<nat>) returns (least: nat)
    requires ids != {}
    ensures IsLeast(ids, least)
  {
    var some :| some in ids;
    var rest := ids - {some};
    if rest == {} {
      least := some;
      assert ids == {some};
    } else {
      var other := LeastExists(rest);
      least := if some < other then some else other;
      assert ids == rest + {some};
    }
  }

  ghost function Least(ids: set<nat>): (least: nat)
    requires ids != {}
    ensures IsLeast(ids, least)
  {
    assert exists least :: IsLeast(ids, least) by {
      var least := LeastExists(ids);
    }
    var least :| IsLeast(ids, least);
    least
  }

  /** The members of a set of identities in ascending order, as a bitmap iterates them. */
  ghost function SortedOf(ids: set<nat>): (sorted: seq<nat>)
    ensures forall id :: id in sorted <==> id in ids
    decreases |ids|
  {
    if ids == {} then [] else [Least(ids)] + SortedOf(ids - {Least(ids)})
  }

  lemma PrependAscends(first: nat, rest: seq<nat>)
    requires Ascending(rest) && forall id :: id in rest ==> first < id
    ensures Ascending([first] + rest)
  {
    assert forall i :: 0 <= i < |rest| ==> rest[i] in rest;
  }

  lemma {:induction false} SortedAscends(ids: set<nat>)
    ensures Ascending(SortedOf(ids))
    decreases |ids|
  {
    if ids != {} {
      SortedAscends(ids - {Least(ids)});
      PrependAscends(Least(ids), SortedOf(ids - {Least(ids)}));
    }
  }

  method SortedIdentities(ids: set<nat>) returns (sorted: seq<nat>)
    ensures sorted == SortedOf(ids)
  {
    var left := ids;
    sorted := [];
    while left != {}
      invariant SortedOf(ids) == sorted + SortedOf(left)
      decreases |left|
    {
      var least := LeastOf(left);
      sorted := sorted + [least];
      left := left - {least};
    }
  }

  method LeastOf(ids: set<nat>) returns (least: nat)
    requires ids != {}
    ensures least == Least(ids)
  {
    ghost var expected := Least(ids);
    least :| least in ids && forall other :: other in ids ==> least <= other;
  }

  lemma {:induction false} SortedLength(ids: set<nat>)
    ensures |SortedOf(ids)| == |ids|
    decreases |ids|
  {
    if ids != {} {
      SortedLength(ids - {Least(ids)});
    }
  }

  lemma FirstIsMember(ids: seq<nat>)
    requires ids != []
    ensures ids[0] in ids
  {
  }

  /** An ascending sequence is determined by its members. */
  lemma {:induction false} AscendingUnique(a: seq<nat>, b: seq<nat>)
    requires Ascending(a) && Ascending(b) && forall id :: id in a <==> id in b
    ensures a == b
  {
    if a == [] || b == [] {
      if a != [] {
        FirstIsMember(a);
        assert false;
      }
      if b != [] {
        FirstIsMember(b);
        assert false;
      }
    } else {
      assert a[0] in b && b[0] in a;
      forall id | id in a[1..] ensures id in b[1..] { assert id in b; }
      forall id | id in b[1..] ensures id in a[1..] { assert id in a; }
      AscendingUnique(a[1..], b[1..]);
      assert a == [a[0]] + a[1..] && b == [b[0]] + b[1..];
    }
  }

  lemma SubsetSize<T>(a: set<T>, b: set<T>)
    requires a <= b
    ensures |a| <= |b|
  {
    assert b == a + (b - a);
  }
}
