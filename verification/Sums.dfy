/** Sums of an integer weight over a sequence, with the laws the conservation proofs use. */
module Sums {

  function Sum<T>(xs: seq<T>, weight: T -> int): int {
    if xs == [] then 0 else Sum(xs[..|xs| - 1], weight) + weight(xs[|xs| - 1])
  }

  /** Replacing one element changes the sum by the difference of the two weights. */
  lemma {:induction false} SumUpdate<T>(xs: seq<T>, i: nat, x: T, weight: T -> int)
    requires i < |xs|
    ensures Sum(xs[i := x], weight) == Sum(xs, weight) - weight(xs[i]) + weight(x)
  {
    var n := |xs| - 1;
    if i == n {
      assert xs[i := x][..n] == xs[..n];
    } else {
      assert xs[i := x][..n] == xs[..n][i := x];
      SumUpdate(xs[..n], i, x, weight);
    }
  }

  lemma SumAppend<T>(xs: seq<T>, x: T, weight: T -> int)
    ensures Sum(xs + [x], weight) == Sum(xs, weight) + weight(x)
  {
    assert (xs + [x])[..|xs|] == xs;
  }

  /** A sum of non-negative weights bounds each of them. */
  lemma {:induction false} SumBoundsEach<T>(xs: seq<T>, weight: T -> int, i: nat)
    requires i < |xs|
    requires forall k :: 0 <= k < |xs| ==> weight(xs[k]) >= 0
    ensures Sum(xs, weight) >= weight(xs[i])
  {
    var n := |xs| - 1;
    SumNonNegative(xs[..n], weight);
    if i < n {
      SumBoundsEach(xs[..n], weight, i);
    }
  }

  lemma {:induction false} SumNonNegative<T>(xs: seq<T>, weight: T -> int)
    requires forall k :: 0 <= k < |xs| ==> weight(xs[k]) >= 0
    ensures Sum(xs, weight) >= 0
  {
    if xs != [] {
      SumNonNegative(xs[..|xs| - 1], weight);
    }
  }

  /** A sum of zero weights is zero. */
  lemma {:induction false} SumZero<T>(xs: seq<T>, weight: T -> int)
    requires forall k :: 0 <= k < |xs| ==> weight(xs[k]) == 0
    ensures Sum(xs, weight) == 0
  {
    if xs != [] {
      SumZero(xs[..|xs| - 1], weight);
    }
  }

  /** A positive sum of non-negative weights has a positive weight in it. */
  lemma {:induction false} SumPositive<T>(xs: seq<T>, weight: T -> int) returns (i: nat)
    requires Sum(xs, weight) > 0
    ensures i < |xs| && weight(xs[i]) > 0
  {
    var n := |xs| - 1;
    if weight(xs[n]) > 0 {
      i := n;
    } else {
      i := SumPositive(xs[..n], weight);
    }
  }

  /** A bound on every weight bounds the sum. */
  lemma {:induction false} SumUpperBound<T>(xs: seq<T>, weight: T -> int, bound: int)
    requires forall k :: 0 <= k < |xs| ==> weight(xs[k]) <= bound
    ensures Sum(xs, weight) <= |xs| * bound
  {
    if xs != [] {
      SumUpperBound(xs[..|xs| - 1], weight, bound);
    }
  }
}
