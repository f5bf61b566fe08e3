/** Bookkeeping shared by the goroutine models: weighted counts over a sequence, and how
    they change when one element is replaced, appended or moved. */
module Tally {

  /** The sum of the weights of all elements of `xs`. */
  ghost function Sum<A>(xs: seq<A>, f: A -> nat): nat {
    if xs == [] then 0 else f(xs[0]) + Sum(xs[1..], f)
  }

  /** The tickets 0, 1, ..., n - 1. */
  function Range(n: nat): (r: seq<nat>)
    ensures |r| == n && forall i :: 0 <= i < n ==> r[i] == i
  {
    seq(n, i => i)
  }

  lemma {:induction false} SumUpdate<A>(xs: seq<A>, i: nat, x: A, f: A -> nat)
    requires i < |xs|
    ensures Sum(xs[i := x], f) + f(xs[i]) == Sum(xs, f) + f(x)
  {
    var ys := xs[i := x];
    if i == 0 {
      assert ys[1..] == xs[1..];
    } else {
      SumUpdate(xs[1..], i - 1, x, f);
      assert ys[1..] == xs[1..][i - 1 := x];
    }
  }

  lemma {:induction false} SumConcat<A>(xs: seq<A>, ys: seq<A>, f: A -> nat)
    ensures Sum(xs + ys, f) == Sum(xs, f) + Sum(ys, f)
  {
    if xs == [] {
      assert xs + ys == ys;
    } else {
      SumConcat(xs[1..], ys, f);
      assert (xs + ys)[1..] == xs[1..] + ys;
    }
  }

  lemma SumAppend<A>(xs: seq<A>, x: A, f: A -> nat)
    ensures Sum(xs + [x], f) == Sum(xs, f) + f(x)
  {
    SumConcat(xs, [x], f);
  }

  /** The weight of one element is part of the whole. */
  lemma {:induction false} SumHas<A>(xs: seq<A>, i: nat, f: A -> nat)
    requires i < |xs|
    ensures f(xs[i]) <= Sum(xs, f)
  {
    if i > 0 {
      SumHas(xs[1..], i - 1, f);
    }
  }

  /** The weights of two elements are part of the whole. */
  lemma {:induction false} SumHasBoth<A>(xs: seq<A>, i: nat, j: nat, f: A -> nat)
    requires i != j && i < |xs| && j < |xs|
    ensures f(xs[i]) + f(xs[j]) <= Sum(xs, f)
  {
    if i == 0 {
      SumHas(xs[1..], j - 1, f);
    } else if j == 0 {
      SumHas(xs[1..], i - 1, f);
    } else {
      SumHasBoth(xs[1..], i - 1, j - 1, f);
    }
  }

  lemma {:induction false} SumZero<A>(xs: seq<A>, f: A -> nat)
    requires forall i :: 0 <= i < |xs| ==> f(xs[i]) == 0
    ensures Sum(xs, f) == 0
  {
    if xs != [] {
      SumZero(xs[1..], f);
    }
  }

  /** A positive sum has an element that contributes to it. */
  lemma {:induction false} SumPositive<A>(xs: seq<A>, f: A -> nat) returns (i: nat)
    requires Sum(xs, f) > 0
    ensures i < |xs| && f(xs[i]) > 0
  {
    if f(xs[0]) > 0 {
      i := 0;
    } else {
      i := SumPositive(xs[1..], f);
      i := i + 1;
    }
  }

  /** With weights of at most one, a sum counts elements. */
  lemma {:induction false} SumBound<A>(xs: seq<A>, f: A -> nat)
    requires forall i :: 0 <= i < |xs| ==> f(xs[i]) <= 1
    ensures Sum(xs, f) <= |xs|
  {
    if xs != [] {
      SumBound(xs[1..], f);
    }
  }

  lemma {:induction false} SumPointwise<A, B>(xs: seq<A>, ys: seq<B>, f: A -> nat, g: B -> nat)
    requires |xs| == |ys| && forall i :: 0 <= i < |xs| ==> f(xs[i]) == g(ys[i])
    ensures Sum(xs, f) == Sum(ys, g)
  {
    if xs != [] {
      SumPointwise(xs[1..], ys[1..], f, g);
    }
  }

  /** A sum over 0, ..., n - 1 is its first weight and a sum over the shifted rest. */
  lemma SumShift(n: nat, f: nat -> nat, g: nat -> nat)
    requires n > 0 && forall k: nat :: k < n - 1 ==> g(k) == f(k + 1)
    ensures Sum(Range(n), f) == f(0) + Sum(Range(n - 1), g)
  {
    SumPointwise(Range(n)[1..], Range(n - 1), f, g);
  }

  lemma SumWithout<A>(xs: seq<A>, k: nat, f: A -> nat)
    requires k < |xs|
    ensures Sum(xs, f) == f(xs[k]) + Sum(xs[..k] + xs[k + 1..], f)
  {
    assert xs == xs[..k] + xs[k..];
    SumConcat(xs[..k], xs[k..], f);
    SumConcat(xs[..k], xs[k + 1..], f);
    assert xs[k..][1..] == xs[k + 1..];
  }

  ghost function Is(k: nat): nat -> nat {
    x => if x == k then 1 else 0
  }

  lemma {:induction false} SumIsMultiplicity(ks: seq<nat>, k: nat)
    ensures multiset(ks)[k] == Sum(ks, Is(k))
  {
    if ks != [] {
      assert ks == [ks[0]] + ks[1..];
      SumIsMultiplicity(ks[1..], k);
    }
  }

  /** A list of tickets in which each of 0, ..., n - 1 appears once and nothing else appears is a
      rearrangement of 0, ..., n - 1, so sums over it may be taken in ticket order. */
  lemma {:induction false} SumOverTickets(ks: seq<nat>, n: nat, f: nat -> nat)
    requires forall k: nat :: Sum(ks, Is(k)) == if k < n then 1 else 0
    ensures |ks| == n && Sum(ks, f) == Sum(Range(n), f)
    decreases n
  {
    if n == 0 {
      if ks != [] { SumHas(ks, 0, Is(ks[0])); }
    } else {
      assert Sum(ks, Is(n - 1)) == 1;
      var i := SumPositive(ks, Is(n - 1));
      var rest := ks[..i] + ks[i + 1..];
      forall k: nat
        ensures Sum(rest, Is(k)) == if k < n - 1 then 1 else 0
      {
        SumWithout(ks, i, Is(k));
      }
      SumWithout(ks, i, f);
      SumOverTickets(rest, n - 1, f);
      assert Range(n) == Range(n - 1) + [n - 1];
      SumAppend<nat>(Range(n - 1), n - 1, f);
    }
  }
}
