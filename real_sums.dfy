/** Sums of sequences of reals, accumulated left to right as the loops of
    the selection routine accumulate them, and the facts about them that the
    softmax normalisation rests on. */
module RealSums {

  /** The sum of `s`, adding its elements in order. */
  function Sum(s: seq<real>): real
  {
    if |s| == 0 then 0.0 else Sum(s[..|s| - 1]) + s[|s| - 1]
  }

  /** The running total of `p` through index `t` inclusive. */
  function Cumulative(p: seq<real>, t: int): real
    requires 0 <= t < |p|
  {
    Sum(p[..t + 1])
  }

  /** Every element of `w` divided by `d`. */
  function Scaled(w: seq<real>, d: real): (q: seq<real>)
    requires d != 0.0
    ensures |q| == |w|
  {
    seq(|w|, i requires 0 <= i < |w| => w[i] / d)
  }

  ghost predicate NonNegative(s: seq<real>)
  {
    forall i :: 0 <= i < |s| ==> s[i] >= 0.0
  }

  lemma {:induction false} SumNonNegative(s: seq<real>)
    requires NonNegative(s)
    ensures Sum(s) >= 0.0
  {
    if |s| > 0 {
      SumNonNegative(s[..|s| - 1]);
    }
  }

  /** In a sequence of non-negative reals no element exceeds the sum. */
  lemma {:induction false} ElementAtMostSum(s: seq<real>, i: int)
    requires NonNegative(s) && 0 <= i < |s|
    ensures s[i] <= Sum(s)
  {
    var n := |s|;
    if i == n - 1 {
      SumNonNegative(s[..n - 1]);
    } else {
      ElementAtMostSum(s[..n - 1], i);
      assert s[n - 1] >= 0.0;
    }
  }

  /** Dividing every element by `d` divides the sum by `d`. */
  lemma {:induction false} SumScaled(w: seq<real>, d: real)
    requires d != 0.0
    ensures Sum(Scaled(w, d)) == Sum(w) / d
  {
    var n := |w|;
    if n > 0 {
      var q := Scaled(w, d);
      assert q[..n - 1] == Scaled(w[..n - 1], d);
      SumScaled(w[..n - 1], d);
      assert Sum(q) == Sum(w[..n - 1]) / d + w[n - 1] / d;
      assert Sum(w[..n - 1]) / d + w[n - 1] / d == (Sum(w[..n - 1]) + w[n - 1]) / d;
    }
  }

  /** A share of a positive total lies in [0, 1]. */
  lemma ShareOfTotal(a: real, total: real)
    requires 0.0 <= a <= total && total > 0.0
    ensures 0.0 <= a / total <= 1.0
  {
    var q := a / total;
    assert q * total == a;
    assert (q - 1.0) * total == a - total;
  }

  /** A sequence of ones sums to its length. */
  lemma {:induction false} SumOfOnes(s: seq<real>)
    requires forall i :: 0 <= i < |s| ==> s[i] == 1.0
    ensures Sum(s) == |s| as real
  {
    if |s| > 0 {
      SumOfOnes(s[..|s| - 1]);
    }
  }
}
