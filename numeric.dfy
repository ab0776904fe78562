/** Arithmetic shared by the pipeline: Python's `int()` on a float, sums,
    means and the revenue dot product. */
module Numeric {

  /** Python's `int(x)` for a float: truncation toward zero (not floor). */
  function Trunc(x: real): (r: int)
    ensures 0.0 <= x ==> 0 <= r && r as real <= x < r as real + 1.0
    ensures x < 0.0 ==> r <= 0 && r as real - 1.0 < x <= r as real
  {
    if x >= 0.0 then x.Floor else -((-x).Floor)
  }

  lemma TruncOfInt(n: int)
    ensures Trunc(n as real) == n
  {
  }

  lemma TruncMonotone(x: real, y: real)
    requires x <= y
    ensures Trunc(x) <= Trunc(y)
  {
  }

  /** Multiplying by a non-negative number keeps the order. */
  lemma MulMonotone(k: real, a: real, b: real)
    requires 0.0 <= k && a <= b
    ensures k * a <= k * b
  {
    assert k * b - k * a == k * (b - a);
  }

  /** Scaling by a non-negative factor, then truncating, keeps the order. */
  lemma TruncScaledMonotone(k: real, a: real, b: real)
    requires 0.0 <= k && a <= b
    ensures Trunc(k * a) <= Trunc(k * b)
  {
    var x, y := k * a, k * b;
    MulMonotone(k, a, b);
    assert x <= y;
    TruncMonotone(x, y);
  }

  /** For a non-negative integer numerator, truncating n/d is integer division. */
  lemma TruncOfQuotient(n: int, d: int)
    requires 0 <= n && 0 < d
    ensures Trunc(n as real / d as real) == n / d
  {
    var q, r := n / d, n % d;
    assert n == q * d + r;
    assert n as real / d as real == q as real + r as real / d as real;
    assert 0.0 <= r as real / d as real < 1.0;
  }

  function Sum(xs: seq<int>): int
  {
    if xs == [] then 0 else xs[0] + Sum(xs[1..])
  }

  /** Adding one to a single entry adds one to the total. */
  lemma {:induction false} SumIncrement(xs: seq<int>, k: nat)
    requires k < |xs|
    ensures Sum(xs[k := xs[k] + 1]) == Sum(xs) + 1
  {
    if k > 0 {
      assert xs[k := xs[k] + 1][1..] == xs[1..][k - 1 := xs[k] + 1];
      SumIncrement(xs[1..], k - 1);
    }
  }

  /** Entry-wise at most, and strictly below at one entry: the total is
      strictly below. */
  lemma {:induction false} SumStrictlyBelow(xs: seq<int>, ys: seq<int>, k: nat)
    requires |xs| == |ys| && k < |xs|
    requires forall i :: 0 <= i < |xs| ==> xs[i] <= ys[i]
    requires xs[k] < ys[k]
    ensures Sum(xs) < Sum(ys)
  {
    if k == 0 {
      SumAtMost(xs[1..], ys[1..]);
    } else {
      SumStrictlyBelow(xs[1..], ys[1..], k - 1);
    }
  }

  /** Entry-wise at most: the total is at most. */
  lemma {:induction false} SumAtMost(xs: seq<int>, ys: seq<int>)
    requires |xs| == |ys|
    requires forall i :: 0 <= i < |xs| ==> xs[i] <= ys[i]
    ensures Sum(xs) <= Sum(ys)
  {
    if xs != [] {
      SumAtMost(xs[1..], ys[1..]);
    }
  }

  function Zeros(n: nat): (z: seq<int>)
    ensures |z| == n && Sum(z) == 0
    ensures forall i :: 0 <= i < n ==> z[i] == 0
  {
    if n == 0 then [] else [0] + Zeros(n - 1)
  }

  /** `np.mean` of a non-empty list, over the reals. */
  function Mean(xs: seq<int>): real
    requires |xs| > 0
  {
    Sum(xs) as real / |xs| as real
  }

  /** A non-empty list of non-negative values has a non-negative mean. */
  lemma MeanNonNegative(xs: seq<int>)
    requires |xs| > 0
    requires forall i :: 0 <= i < |xs| ==> 0 <= xs[i]
    ensures Mean(xs) >= 0.0
  {
    SumNonNegative(xs);
  }

  lemma {:induction false} SumNonNegative(xs: seq<int>)
    requires forall i :: 0 <= i < |xs| ==> 0 <= xs[i]
    ensures Sum(xs) >= 0
  {
    if xs != [] {
      SumNonNegative(xs[1..]);
    }
  }

  lemma {:induction false} SumPositive(xs: seq<int>)
    requires |xs| > 0
    requires forall i :: 0 <= i < |xs| ==> 0 < xs[i]
    ensures Sum(xs) > 0
  {
    SumNonNegative(xs[1..]);
  }

  /** Revenue of a vector of counts at the given prices: sum of price * count. */
  function Dot(prices: seq<int>, counts: seq<int>): int
    requires |prices| == |counts|
  {
    if prices == [] then 0 else prices[0] * counts[0] + Dot(prices[1..], counts[1..])
  }

  /** Selling one more seat in bucket k adds exactly that bucket's price. */
  lemma {:induction false} DotIncrement(prices: seq<int>, counts: seq<int>, k: nat)
    requires |prices| == |counts| && k < |counts|
    ensures Dot(prices, counts[k := counts[k] + 1]) == Dot(prices, counts) + prices[k]
  {
    if k > 0 {
      assert counts[k := counts[k] + 1][1..] == counts[1..][k - 1 := counts[k] + 1];
      DotIncrement(prices[1..], counts[1..], k - 1);
    }
  }

  function Min(a: int, b: int): int { if a <= b then a else b }

  function Max(a: int, b: int): int { if a >= b then a else b }
}
