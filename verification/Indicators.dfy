/**
 Indicators both live strategies compute over their price buffers: bounded
 buffers, simple means, and Wilder's relative strength index.
 */
module Indicators {
  import opened Sums

  const BUFFER: nat := 260

  /** Appending to a bounded buffer drops the oldest entry when it is full. */
  function Push<T>(xs: seq<T>, x: T): (r: seq<T>)
    requires |xs| <= BUFFER
    ensures |r| == (if |xs| == BUFFER then BUFFER else |xs| + 1) && r[|r| - 1] == x
  {
    if |xs| == BUFFER then xs[1..] + [x] else xs + [x]
  }

  function Total(xs: seq<real>): real {
    if xs == [] then 0.0 else Total(xs[..|xs| - 1]) + xs[|xs| - 1]
  }

  /** The mean of the last `n` entries, undefined before there are that many. */
  function Mean(xs: seq<real>, n: nat): Option<real>
    requires n > 0
  {
    if |xs| < n then None else Some(Total(xs[|xs| - n..]) / n as real)
  }

  function Gain(cs: seq<real>, i: nat): real
    requires 0 < i < |cs|
  {
    if cs[i] - cs[i - 1] > 0.0 then cs[i] - cs[i - 1] else 0.0
  }

  function Loss(cs: seq<real>, i: nat): real
    requires 0 < i < |cs|
  {
    if cs[i] - cs[i - 1] < 0.0 then -(cs[i] - cs[i - 1]) else 0.0
  }

  /** The sum of the first `k` gains. */
  function GainSum(cs: seq<real>, k: nat): real
    requires k < |cs|
  {
    if k == 0 then 0.0 else GainSum(cs, k - 1) + Gain(cs, k)
  }

  function LossSum(cs: seq<real>, k: nat): real
    requires k < |cs|
  {
    if k == 0 then 0.0 else LossSum(cs, k - 1) + Loss(cs, k)
  }

  function Smooth(avg: real, x: real, period: nat): real
    requires period > 0
  {
    (avg * (period - 1) as real + x) / period as real
  }

  /** Wilder's average after `k` gains: a plain mean, then exponential smoothing. */
  function AvgGain(cs: seq<real>, period: nat, k: nat): real
    requires 0 < period <= k < |cs|
  {
    if k == period then GainSum(cs, period) / period as real else Smooth(AvgGain(cs, period, k - 1), Gain(cs, k), period)
  }

  function AvgLoss(cs: seq<real>, period: nat, k: nat): real
    requires 0 < period <= k < |cs|
  {
    if k == period then LossSum(cs, period) / period as real else Smooth(AvgLoss(cs, period, k - 1), Loss(cs, k), period)
  }

  function RsiOf(avgGain: real, avgLoss: real): real
    requires avgGain >= 0.0 && avgLoss >= 0.0
  {
    if avgLoss == 0.0 then 100.0
    else
      NonNegativeQuotient(avgGain, avgLoss);
      100.0 - 100.0 / (1.0 + avgGain / avgLoss)
  }

  lemma NonNegativeQuotient(a: real, b: real)
    requires a >= 0.0 && b > 0.0
    ensures a / b >= 0.0
  {
  }

  lemma SumsNotNegative(cs: seq<real>, k: nat)
    requires k < |cs|
    ensures GainSum(cs, k) >= 0.0 && LossSum(cs, k) >= 0.0
  {
  }

  lemma {:induction false} AveragesNotNegative(cs: seq<real>, period: nat, k: nat)
    requires 0 < period <= k < |cs|
    ensures AvgGain(cs, period, k) >= 0.0 && AvgLoss(cs, period, k) >= 0.0
    decreases k
  {
    if k == period {
      SumsNotNegative(cs, period);
      NonNegativeQuotient(GainSum(cs, period), period as real);
      NonNegativeQuotient(LossSum(cs, period), period as real);
    } else {
      AveragesNotNegative(cs, period, k - 1);
      SmoothNotNegative(AvgGain(cs, period, k - 1), Gain(cs, k), period);
      SmoothNotNegative(AvgLoss(cs, period, k - 1), Loss(cs, k), period);
    }
  }

  lemma SmoothNotNegative(avg: real, x: real, period: nat)
    requires avg >= 0.0 && x >= 0.0 && period > 0
    ensures Smooth(avg, x, period) >= 0.0
  {
    var p := (period - 1) as real;
    assert avg * p >= 0.0;
    NonNegativeQuotient(avg * p + x, period as real);
  }

  function Rsi(cs: seq<real>, period: nat): Option<real>
    requires period > 0
  {
    if |cs| < period + 1 then None
    else
      AveragesNotNegative(cs, period, |cs| - 1);
      Some(RsiOf(AvgGain(cs, period, |cs| - 1), AvgLoss(cs, period, |cs| - 1)))
  }

  /** `_wilder_rsi`, as its loops compute it. */
  method WilderRsi(cs: seq<real>, period: nat) returns (r: Option<real>)
    requires period > 0
    ensures r == Rsi(cs, period)
  {
    if |cs| < period + 1 { return None; }
    var gains: seq<real> := [];
    var losses: seq<real> := [];
    for i := 1 to |cs|
      invariant |gains| == i - 1 && |losses| == i - 1
      invariant forall k :: 0 <= k < i - 1 ==> gains[k] == Gain(cs, k + 1) && losses[k] == Loss(cs, k + 1)
    {
      var ch := cs[i] - cs[i - 1];
      gains := gains + [if ch > 0.0 then ch else 0.0];
      losses := losses + [if ch < 0.0 then -ch else 0.0];
    }
    var g, l := 0.0, 0.0;
    for i := 0 to period
      invariant g == GainSum(cs, i) && l == LossSum(cs, i)
    {
      g, l := g + gains[i], l + losses[i];
    }
    g, l := g / period as real, l / period as real;
    for i := period to |gains|
      invariant g == AvgGain(cs, period, i) && l == AvgLoss(cs, period, i)
    {
      g, l := Smooth(g, gains[i], period), Smooth(l, losses[i], period);
    }
    AveragesNotNegative(cs, period, |cs| - 1);
    r := Some(RsiOf(g, l));
  }

  /** The index lies in [0, 100], and is 100 exactly when the smoothed loss is zero. */
  lemma RsiRange(cs: seq<real>, period: nat)
    requires 0 < period < |cs|
    ensures 0.0 <= Rsi(cs, period).value <= 100.0
    ensures Rsi(cs, period).value == 100.0 <==> AvgLoss(cs, period, |cs| - 1) == 0.0
  {
    AveragesNotNegative(cs, period, |cs| - 1);
    hide AvgGain, AvgLoss;
    var g, l := AvgGain(cs, period, |cs| - 1), AvgLoss(cs, period, |cs| - 1);
    if l != 0.0 {
      NonNegativeQuotient(g, l);
      ShareOfHundred(1.0 + g / l);
    }
  }

  lemma ShareOfHundred(x: real)
    requires x >= 1.0
    ensures 0.0 < 100.0 / x <= 100.0
  {
  }

  /** The smoothed loss is zero exactly when no close of the buffer is below the one before it. */
  lemma {:induction false} NoLossNoFall(cs: seq<real>, period: nat, k: nat)
    requires 0 < period <= k < |cs|
    ensures period > 1 ==> (AvgLoss(cs, period, k) == 0.0 <==> forall i :: 0 < i <= k ==> cs[i - 1] <= cs[i])
    decreases k
  {
    if k == period {
      LossSumZero(cs, k);
      SumsNotNegative(cs, k);
      ZeroQuotient(LossSum(cs, k), period as real);
    } else {
      NoLossNoFall(cs, period, k - 1);
      AveragesNotNegative(cs, period, k - 1);
      if period > 1 { SmoothZero(AvgLoss(cs, period, k - 1), Loss(cs, k), period); }
    }
  }

  lemma ZeroQuotient(a: real, b: real)
    requires a >= 0.0 && b > 0.0
    ensures a / b == 0.0 <==> a == 0.0
  {
    var q := a / b;
    assert q * b == a;
  }

  lemma SmoothZero(avg: real, x: real, period: nat)
    requires avg >= 0.0 && x >= 0.0 && period > 1
    ensures Smooth(avg, x, period) == 0.0 <==> avg == 0.0 && x == 0.0
  {
    var p := (period - 1) as real;
    assert avg > 0.0 ==> avg * p > 0.0;
    ZeroQuotient(avg * p + x, period as real);
  }

  lemma {:induction false} LossSumZero(cs: seq<real>, k: nat)
    requires k < |cs|
    ensures LossSum(cs, k) == 0.0 <==> forall i :: 0 < i <= k ==> cs[i - 1] <= cs[i]
    decreases k
  {
    if k > 0 {
      LossSumZero(cs, k - 1);
      SumsNotNegative(cs, k - 1);
    }
  }
}
