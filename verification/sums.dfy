/** Sums of a weight over a sequence.

    Every protocol in this project counts goroutines ("how many are seated",
    "how many are still to be woken") or adds up what they have left to do.
    Both are sums over the sequence of goroutines, and an atomic step changes
    one entry of that sequence.
 */
module Sums {

  function Sum<T>(xs: seq<T>, f: T -> nat): nat
  {
    if xs == [] then 0 else Sum(xs[..|xs| - 1], f) + f(xs[|xs| - 1])
  }

  /** Replacing one entry exchanges its weight for the weight of the new entry. */
  lemma {:induction false} SumUpdate<T>(xs: seq<T>, i: nat, x: T, f: T -> nat)
    requires i < |xs|
    ensures Sum(xs[i := x], f) + f(xs[i]) == Sum(xs, f) + f(x)
  {
    var n := |xs| - 1;
    if i == n {
      assert xs[i := x][..n] == xs[..n];
    } else {
      assert xs[i := x][..n] == xs[..n][i := x];
      SumUpdate(xs[..n], i, x, f);
    }
  }

  lemma SumAppend<T>(xs: seq<T>, x: T, f: T -> nat)
    ensures Sum(xs + [x], f) == Sum(xs, f) + f(x)
  {
    assert (xs + [x])[..|xs|] == xs;
  }

  /** One entry weighs no more than all of them. */
  lemma {:induction false} SumAtLeast<T>(xs: seq<T>, i: nat, f: T -> nat)
    requires i < |xs|
    ensures f(xs[i]) <= Sum(xs, f)
  {
    if i < |xs| - 1 {
      SumAtLeast(xs[..|xs| - 1], i, f);
    }
  }

  /** Two different entries weigh no more than all of them. */
  lemma {:induction false} SumTwo<T>(xs: seq<T>, i: nat, j: nat, f: T -> nat)
    requires i < j < |xs|
    ensures f(xs[i]) + f(xs[j]) <= Sum(xs, f)
  {
    if j < |xs| - 1 {
      SumTwo(xs[..|xs| - 1], i, j, f);
    } else {
      SumAtLeast(xs[..|xs| - 1], i, f);
    }
  }

  /** A positive sum has a positive entry. */
  lemma {:induction false} SumWitness<T>(xs: seq<T>, f: T -> nat) returns (i: nat)
    requires Sum(xs, f) > 0
    ensures i < |xs| && f(xs[i]) > 0
  {
    if f(xs[|xs| - 1]) > 0 {
      i := |xs| - 1;
    } else {
      i := SumWitness(xs[..|xs| - 1], f);
    }
  }

  /** Entries that all weigh k add up to k times their number. */
  lemma {:induction false} SumConstant<T>(xs: seq<T>, k: nat, f: T -> nat)
    requires forall i | 0 <= i < |xs| :: f(xs[i]) == k
    ensures Sum(xs, f) == k * |xs|
  {
    if xs != [] {
      SumConstant(xs[..|xs| - 1], k, f);
    }
  }

  /** Entries that weigh at most 1 add up to at most their number. */
  lemma {:induction false} SumBounded<T>(xs: seq<T>, f: T -> nat)
    requires forall i | 0 <= i < |xs| :: f(xs[i]) <= 1
    ensures Sum(xs, f) <= |xs|
  {
    if xs != [] {
      SumBounded(xs[..|xs| - 1], f);
    }
  }

  /** A larger weight makes a larger sum. */
  lemma {:induction false} SumMonotone<T>(xs: seq<T>, f: T -> nat, g: T -> nat)
    requires forall i | 0 <= i < |xs| :: f(xs[i]) <= g(xs[i])
    ensures Sum(xs, f) <= Sum(xs, g)
  {
    if xs != [] {
      SumMonotone(xs[..|xs| - 1], f, g);
    }
  }

  /** Raising every entry's weight by at most k raises the sum by at most k each. */
  lemma {:induction false} SumRaised<T>(xs: seq<T>, ys: seq<T>, k: nat, f: T -> nat)
    requires |xs| == |ys|
    requires forall i | 0 <= i < |xs| :: f(ys[i]) <= f(xs[i]) + k
    ensures Sum(ys, f) <= Sum(xs, f) + k * |xs|
  {
    if xs != [] {
      SumRaised(xs[..|xs| - 1], ys[..|ys| - 1], k, f);
    }
  }
}
