/** Softmax action selection with the max-subtraction trick and a
    roulette-wheel draw over the normalised probabilities. Reals stand for
    doubles and are exact; `exp` is a parameter about which only
    `exp(0) == 1` and non-negativity are known. */
module Softmax {
  import opened Servers
  import opened RealSums

  /** What the selection relies on about the exponential: it maps 0 to 1
      and is never negative (an underflow may give 0). */
  ghost predicate ExpLaw(exp: real -> real)
  {
    exp(0.0) == 1.0 && forall x :: exp(x) >= 0.0
  }

  /** The largest estimate among the first `k` servers, scanned in order. */
  function MaxEstimate(s: seq<Server>, k: int): (m: real)
    requires 1 <= k <= |s|
    ensures forall i :: 0 <= i < k ==> s[i].estimatedReward <= m
    ensures exists i :: 0 <= i < k && s[i].estimatedReward == m
  {
    if k == 1 then s[0].estimatedReward
    else
      var m' := MaxEstimate(s, k - 1);
      if s[k - 1].estimatedReward > m' then s[k - 1].estimatedReward else m'
  }

  /** The unnormalised weights `exp((estimate - max) / tau)`. */
  function Weights(s: seq<Server>, k: int, tau: real, exp: real -> real): (w: seq<real>)
    requires 1 <= k <= |s| && tau > 0.0
    ensures |w| == k
  {
    var m := MaxEstimate(s, k);
    seq(k, i requires 0 <= i < k => exp((s[i].estimatedReward - m) / tau))
  }

  /** The max subtraction makes every exponent non-positive, so `exp` is
      only ever applied to arguments at most 0: this is what prevents
      overflow of the exponential. */
  lemma ExponentsNonPositive(s: seq<Server>, k: int, tau: real)
    requires 1 <= k <= |s| && tau > 0.0
    ensures forall i :: 0 <= i < k ==> (s[i].estimatedReward - MaxEstimate(s, k)) / tau <= 0.0
  {
  }

  /** For an `exp` that is at most 1 on non-positive arguments, as the real
      and the IEEE exponential are, no weight exceeds `exp(0) = 1`. */
  lemma WeightsAtMostOne(s: seq<Server>, k: int, tau: real, exp: real -> real)
    requires 1 <= k <= |s| && tau > 0.0
    requires forall x :: x <= 0.0 ==> exp(x) <= 1.0
    ensures forall i :: 0 <= i < k ==> Weights(s, k, tau, exp)[i] <= 1.0
  {
    ExponentsNonPositive(s, k, tau);
  }

  /** Every weight is non-negative, a server attaining the maximum has
      weight exactly 1, and so the weights sum to at least 1: the division
      that normalises them cannot be by zero. */
  lemma WeightsSumAtLeastOne(s: seq<Server>, k: int, tau: real, exp: real -> real)
    requires 1 <= k <= |s| && tau > 0.0 && ExpLaw(exp)
    ensures NonNegative(Weights(s, k, tau, exp))
    ensures exists j :: 0 <= j < k && s[j].estimatedReward == MaxEstimate(s, k)
                        && Weights(s, k, tau, exp)[j] == 1.0
    ensures Sum(Weights(s, k, tau, exp)) >= 1.0
  {
    var w := Weights(s, k, tau, exp);
    var m := MaxEstimate(s, k);
    var j :| 0 <= j < k && s[j].estimatedReward == m;
    assert (s[j].estimatedReward - m) / tau == 0.0;
    assert w[j] == 1.0;
    ElementAtMostSum(w, j);
  }

  /** The normalised softmax probabilities of the first `k` servers. */
  function Probabilities(s: seq<Server>, k: int, tau: real, exp: real -> real): (p: seq<real>)
    requires 1 <= k <= |s| && tau > 0.0 && ExpLaw(exp)
    ensures |p| == k
  {
    var w := Weights(s, k, tau, exp);
    WeightsSumAtLeastOne(s, k, tau, exp);
    Scaled(w, Sum(w))
  }

  /** The probabilities lie in [0, 1] and sum to exactly 1. */
  lemma ProbabilitiesFormDistribution(s: seq<Server>, k: int, tau: real, exp: real -> real)
    requires 1 <= k <= |s| && tau > 0.0 && ExpLaw(exp)
    ensures forall i :: 0 <= i < k ==> 0.0 <= Probabilities(s, k, tau, exp)[i] <= 1.0
    ensures Sum(Probabilities(s, k, tau, exp)) == 1.0
  {
    var w := Weights(s, k, tau, exp);
    var p := Probabilities(s, k, tau, exp);
    WeightsSumAtLeastOne(s, k, tau, exp);
    var total := Sum(w);
    SumScaled(w, total);
    forall i | 0 <= i < k
      ensures 0.0 <= p[i] <= 1.0
    {
      ElementAtMostSum(w, i);
      ShareOfTotal(w[i], total);
    }
  }

  /** With a strictly positive exponential every probability is positive. */
  lemma ProbabilitiesPositive(s: seq<Server>, k: int, tau: real, exp: real -> real)
    requires 1 <= k <= |s| && tau > 0.0 && ExpLaw(exp)
    requires forall x :: exp(x) > 0.0
    ensures forall i :: 0 <= i < k ==> 0.0 < Probabilities(s, k, tau, exp)[i] <= 1.0
  {
    var w := Weights(s, k, tau, exp);
    var p := Probabilities(s, k, tau, exp);
    WeightsSumAtLeastOne(s, k, tau, exp);
    ProbabilitiesFormDistribution(s, k, tau, exp);
    forall i | 0 <= i < k
      ensures p[i] > 0.0
    {
      assert w[i] > 0.0;
      assert p[i] == w[i] / Sum(w);
    }
  }

  /** When all `k` estimates are equal (as at start, when all are 0) every
      server is chosen with probability exactly 1/k. */
  lemma EqualEstimatesGiveUniform(s: seq<Server>, k: int, tau: real, exp: real -> real)
    requires 1 <= k <= |s| && tau > 0.0 && ExpLaw(exp)
    requires forall i :: 0 <= i < k ==> s[i].estimatedReward == s[0].estimatedReward
    ensures forall i :: 0 <= i < k ==> Probabilities(s, k, tau, exp)[i] == 1.0 / k as real
  {
    var w := Weights(s, k, tau, exp);
    var m := MaxEstimate(s, k);
    assert m == s[0].estimatedReward;
    forall i | 0 <= i < k
      ensures w[i] == 1.0
    {
      assert (s[i].estimatedReward - m) / tau == 0.0;
    }
    SumOfOnes(w);
  }

  /** The roulette walk from index `from`: the first index whose running
      total reaches `r`, or the last index if none does. */
  function RouletteWalk(p: seq<real>, r: real, from: int): (j: int)
    requires 1 <= |p| && 0 <= from <= |p|
    ensures 0 <= j < |p|
    ensures (from <= j && r <= Cumulative(p, j)
             && forall t :: from <= t < j ==> Cumulative(p, t) < r)
         || (j == |p| - 1 && forall t :: from <= t < |p| ==> Cumulative(p, t) < r)
    decreases |p| - from
  {
    if from == |p| then |p| - 1
    else if r <= Cumulative(p, from) then from
    else RouletteWalk(p, r, from + 1)
  }

  /** In exact arithmetic, over probabilities summing to 1 and a draw of at
      most 1, the walk always stops at an index that reaches the draw: the
      fallback to the last index is never what decides. */
  lemma ExactWalkReachesDraw(p: seq<real>, r: real)
    requires 1 <= |p| && Sum(p) == 1.0 && r <= 1.0
    ensures r <= Cumulative(p, RouletteWalk(p, r, 0))
  {
    assert p[..|p|] == p;
    assert Cumulative(p, |p| - 1) == 1.0;
  }

  /** The softmax choice reaches the draw for every draw in [0, 1]. */
  lemma SoftmaxChoiceReachesDraw(s: seq<Server>, k: int, tau: real, exp: real -> real, r: real)
    requires 1 <= k <= |s| && tau > 0.0 && ExpLaw(exp) && r <= 1.0
    ensures var p := Probabilities(s, k, tau, exp);
            r <= Cumulative(p, RouletteWalk(p, r, 0))
  {
    ProbabilitiesFormDistribution(s, k, tau, exp);
    ExactWalkReachesDraw(Probabilities(s, k, tau, exp), r);
  }

  /** select_server_softmax: scan for the maximum estimate, fill the local
      buffer with the weights while summing them, normalise the buffer in
      place, then walk its running total against the draw `r`. */
  method SelectServerSoftmax(servers: array<Server>, k: int, tau: real, exp: real -> real, r: real)
    returns (chosen: int)
    requires 1 <= k <= K_SERVERS && k <= servers.Length
    requires tau > 0.0 && ExpLaw(exp)
    ensures 0 <= chosen < k
    ensures chosen == RouletteWalk(Probabilities(servers[..], k, tau, exp), r, 0)
  {
    var maxReward := ScanMaxReward(servers, k);
    var probabilities := new real[K_SERVERS];
    var sumExp := FillWeights(servers, k, tau, exp, maxReward, probabilities);
    WeightsSumAtLeastOne(servers[..], k, tau, exp);
    Normalize(probabilities, k, sumExp);
    assert probabilities[..k] == Probabilities(servers[..], k, tau, exp);
    chosen := RouletteSelect(probabilities, k, r);
  }

  /** Step 1 of select_server_softmax: the largest estimate among the first
      `k` servers, starting from `servers[0]`. */
  method ScanMaxReward(servers: array<Server>, k: int) returns (maxReward: real)
    requires 1 <= k <= servers.Length
    ensures forall i :: 0 <= i < k ==> servers[i].estimatedReward <= maxReward
    ensures exists i :: 0 <= i < k && servers[i].estimatedReward == maxReward
    // The two clauses above also follow from this one and `MaxEstimate`'s
    // contract; they are kept to state the scan's promise directly.
    ensures maxReward == MaxEstimate(servers[..], k)
  {
    maxReward := servers[0].estimatedReward;
    var i := 1;
    while i < k
      invariant 1 <= i <= k
      invariant maxReward == MaxEstimate(servers[..], i)
    {
      if servers[i].estimatedReward > maxReward {
        maxReward := servers[i].estimatedReward;
      }
      i := i + 1;
    }
  }

  /** Step 2 of select_server_softmax: write the weight of each of the first
      `k` servers into the buffer and return their sum. */
  method FillWeights(servers: array<Server>, k: int, tau: real, exp: real -> real, maxReward: real,
                     probabilities: array<real>)
    returns (sumExp: real)
    requires 1 <= k <= servers.Length && k <= probabilities.Length && tau > 0.0
    requires maxReward == MaxEstimate(servers[..], k)
    modifies probabilities
    ensures probabilities[..k] == Weights(servers[..], k, tau, exp)
    ensures probabilities[k..] == old(probabilities[k..])
    ensures sumExp == Sum(Weights(servers[..], k, tau, exp))
  {
    ghost var w := Weights(servers[..], k, tau, exp);
    sumExp := 0.0;
    var i := 0;
    while i < k
      invariant 0 <= i <= k
      invariant forall j :: 0 <= j < i ==> probabilities[j] == w[j]
      invariant forall j :: k <= j < probabilities.Length ==> probabilities[j] == old(probabilities[j])
      invariant sumExp == Sum(w[..i])
    {
      probabilities[i] := exp((servers[i].estimatedReward - maxReward) / tau);
      sumExp := sumExp + probabilities[i];
      assert w[..i + 1][..i] == w[..i];
      i := i + 1;
    }
    assert w[..k] == w;
  }

  /** Step 3 of select_server_softmax: divide the first `k` buffer entries
      by their sum, in place. */
  method Normalize(probabilities: array<real>, k: int, sumExp: real)
    requires 0 <= k <= probabilities.Length && sumExp != 0.0
    modifies probabilities
    ensures probabilities[..k] == Scaled(old(probabilities[..k]), sumExp)
    ensures probabilities[k..] == old(probabilities[k..])
  {
    var i := 0;
    while i < k
      invariant 0 <= i <= k
      invariant forall j :: 0 <= j < i ==> probabilities[j] == old(probabilities[j]) / sumExp
      invariant forall j :: i <= j < probabilities.Length ==> probabilities[j] == old(probabilities[j])
    {
      probabilities[i] := probabilities[i] / sumExp;
      i := i + 1;
    }
  }

  /** Step 4 of select_server_softmax: walk the running total of the first
      `k` buffer entries and return the first index at which it reaches `r`,
      falling back to the last index `k - 1`. */
  method RouletteSelect(probabilities: array<real>, k: int, r: real) returns (chosen: int)
    requires 1 <= k <= probabilities.Length
    ensures 0 <= chosen < k
    ensures chosen == RouletteWalk(probabilities[..k], r, 0)
  {
    ghost var p := probabilities[..k];
    var cumulative := 0.0;
    var i := 0;
    while i < k
      invariant 0 <= i <= k
      invariant cumulative == Sum(p[..i])
      invariant RouletteWalk(p, r, i) == RouletteWalk(p, r, 0)
    {
      cumulative := cumulative + probabilities[i];
      assert p[..i + 1][..i] == p[..i];
      if r <= cumulative {
        return i;
      }
      i := i + 1;
    }
    return k - 1;
  }
}
