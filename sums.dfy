/**
 * Sums over sequences, accumulated left to right as Python's built-in `sum`
 * does, and the facts about them that the allocation pipeline relies on.
 */
module Sums {

  function Sum(xs: seq<real>): real
  {
    if xs == [] then 0.0 else Sum(xs[..|xs| - 1]) + xs[|xs| - 1]
  }

  function SumInts(xs: seq<int>): int
  {
    if xs == [] then 0 else SumInts(xs[..|xs| - 1]) + xs[|xs| - 1]
  }

  /** A sequence of `n` copies of `c` sums to `n * c`. */
  lemma {:induction false} SumConst(xs: seq<real>, c: real)
    requires forall i :: 0 <= i < |xs| ==> xs[i] == c
    ensures Sum(xs) == |xs| as real * c
  {
    if xs != [] {
      SumConst(xs[..|xs| - 1], c);
    }
  }

  /** Every element at least `lo` puts the sum at least `n * lo`. */
  lemma {:induction false} SumAtLeast(xs: seq<real>, lo: real)
    requires forall i :: 0 <= i < |xs| ==> lo <= xs[i]
    ensures |xs| as real * lo <= Sum(xs)
  {
    if xs != [] {
      SumAtLeast(xs[..|xs| - 1], lo);
    }
  }

  /**
   * If each integer `ys[i]` is within half a unit of `100 * xs[i]`, the
   * integer sum is within `n / 2` of `100 * Sum(xs)`.
   */
  lemma {:induction false} SumRounded(xs: seq<real>, ys: seq<int>)
    requires |ys| == |xs|
    requires forall i :: 0 <= i < |xs| ==>
      100.0 * xs[i] - 0.5 <= ys[i] as real <= 100.0 * xs[i] + 0.5
    ensures 100.0 * Sum(xs) - |xs| as real / 2.0 <= SumInts(ys) as real
    ensures SumInts(ys) as real <= 100.0 * Sum(xs) + |xs| as real / 2.0
  {
    if xs != [] {
      SumRounded(xs[..|xs| - 1], ys[..|ys| - 1]);
    }
  }

  /** Overwriting one element changes the sum by the difference. */
  lemma {:induction false} SumIntsUpdate(xs: seq<int>, k: nat, v: int)
    requires k < |xs|
    ensures SumInts(xs[k := v]) == SumInts(xs) - xs[k] + v
  {
    var m := |xs| - 1;
    if k < m {
      SumIntsUpdate(xs[..m], k, v);
      assert xs[k := v][..m] == xs[..m][k := v];
    } else {
      assert xs[k := v][..m] == xs[..m];
    }
  }
}
