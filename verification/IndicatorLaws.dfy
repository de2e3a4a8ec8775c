/**
 What the indicators are worth, without their loops: buffers keep the latest
 entries, means are sums over counts, and the strength index is the share of
 the smoothed gains, which mirrored prices turn into the share of the losses.
 */
module IndicatorLaws {
  import opened Sums
  import opened Indicators

  // ----- Buffers -----

  /** The last `n` entries, or all when there are fewer. */
  function Latest<T>(xs: seq<T>, n: nat): seq<T> {
    if |xs| <= n then xs else xs[|xs| - n..]
  }

  /** A buffer that took every entry so far holds the last 260 of them. */
  lemma PushKeepsLatest<T>(xs: seq<T>, x: T)
    ensures |Latest(xs, 260)| <= BUFFER && Push(Latest(xs, 260), x) == Latest(xs + [x], 260)
  {
    if |xs| >= 260 {
      assert xs[|xs| - 260..][1..] == xs[|xs| - 259..];
      assert (xs + [x])[|xs| - 259..] == xs[|xs| - 259..] + [x];
    }
  }

  lemma LatestOfLatest<T>(xs: seq<T>, m: nat, n: nat)
    requires n <= m
    ensures Latest(Latest(xs, m), n) == Latest(xs, n) && (|Latest(xs, m)| >= n <==> |xs| >= n)
  {
    if |xs| > m { assert xs[|xs| - m..][m - n..] == xs[|xs| - n..]; }
  }

  // ----- Means -----

  function Itself(x: real): real { x }

  lemma {:induction false} TotalIsSum(xs: seq<real>)
    ensures Total(xs) == SeqSum(xs, Itself)
    decreases |xs|
  {
    if xs != [] { TotalIsSum(xs[..|xs| - 1]); }
  }

  /** A mean needs `n` entries, and times `n` is the sum of the last `n`. */
  lemma MeanIs(xs: seq<real>, n: nat)
    requires n > 0
    ensures Mean(xs, n).Some? <==> |xs| >= n
    ensures |xs| >= n ==> Mean(xs, n).value * n as real == SeqSum(Latest(xs, n), Itself)
  {
    if |xs| >= n {
      var sum := Total(xs[|xs| - n..]);
      TotalIsSum(xs[|xs| - n..]);
      Whole(sum, n as real);
      assert Latest(xs, n) == xs[|xs| - n..];
    }
  }

  /** A multiple of `x`. */
  function Times(x: real, n: nat): real {
    x * n as real
  }

  lemma QuotientTimes(x: real, n: nat)
    requires n > 0
    ensures Times(x / n as real, n) == x
  {
    Whole(x, n as real);
  }

  // ----- Strength -----

  /** The rise of a close over the one before it, and zero for a fall. */
  function Up(cs: seq<real>): int -> real {
    (i: int) => if 0 < i < |cs| && cs[i] > cs[i - 1] then cs[i] - cs[i - 1] else 0.0
  }

  function Down(cs: seq<real>): int -> real {
    (i: int) => if 0 < i < |cs| && cs[i] < cs[i - 1] then cs[i - 1] - cs[i] else 0.0
  }

  /** The numbers `1 .. k`. */
  function UpTo(k: nat): seq<int> {
    if k == 0 then [] else UpTo(k - 1) + [k]
  }

  lemma {:induction false} GainsAreUps(cs: seq<real>, k: nat)
    requires k < |cs|
    ensures GainSum(cs, k) == SeqSum(UpTo(k), Up(cs)) && LossSum(cs, k) == SeqSum(UpTo(k), Down(cs))
    decreases k
  {
    if k > 0 {
      GainsAreUps(cs, k - 1);
      SeqSumMore(UpTo(k - 1), k, Up(cs));
      SeqSumMore(UpTo(k - 1), k, Down(cs));
      hide SeqSum;
    }
  }

  /**
   Wilder's averages: times the period, the first is the sum of the first
   rises, and each later one is the one before it, once less, plus its rise;
   the same for the falls.
   */
  lemma WilderExactly(cs: seq<real>, period: nat, k: nat)
    requires 0 < period <= k < |cs|
    ensures if k == period then
              && Times(AvgGain(cs, period, k), period) == SeqSum(UpTo(k), Up(cs))
              && Times(AvgLoss(cs, period, k), period) == SeqSum(UpTo(k), Down(cs))
            else
              && Times(AvgGain(cs, period, k), period) == Times(AvgGain(cs, period, k - 1), period - 1) + Up(cs)(k)
              && Times(AvgLoss(cs, period, k), period) == Times(AvgLoss(cs, period, k - 1), period - 1) + Down(cs)(k)
  {
    hide AvgGain, AvgLoss, SeqSum, Times;
    if k == period { FirstAverages(cs, period); } else { LaterAverages(cs, period, k); }
  }

  lemma FirstAverages(cs: seq<real>, period: nat)
    requires 0 < period < |cs|
    ensures Times(AvgGain(cs, period, period), period) == SeqSum(UpTo(period), Up(cs))
    ensures Times(AvgLoss(cs, period, period), period) == SeqSum(UpTo(period), Down(cs))
  {
    hide GainSum, LossSum, SeqSum, Times;
    GainsAreUps(cs, period);
    QuotientTimes(GainSum(cs, period), period);
    QuotientTimes(LossSum(cs, period), period);
  }

  lemma LaterAverages(cs: seq<real>, period: nat, k: nat)
    requires 0 < period < k < |cs|
    ensures Times(AvgGain(cs, period, k), period) == Times(AvgGain(cs, period, k - 1), period - 1) + Up(cs)(k)
    ensures Times(AvgLoss(cs, period, k), period) == Times(AvgLoss(cs, period, k - 1), period - 1) + Down(cs)(k)
  {
    hide AvgGain, AvgLoss, Smooth, Times;
    assert Up(cs)(k) == Gain(cs, k) && Down(cs)(k) == Loss(cs, k);
    hide Gain, Loss, Up, Down;
    NextAverage(cs, period, k);
    SmoothIs(AvgGain(cs, period, k - 1), Gain(cs, k), period);
    SmoothIs(AvgLoss(cs, period, k - 1), Loss(cs, k), period);
  }

  lemma NextAverage(cs: seq<real>, period: nat, k: nat)
    requires 0 < period < k < |cs|
    ensures AvgGain(cs, period, k) == Smooth(AvgGain(cs, period, k - 1), Gain(cs, k), period)
    ensures AvgLoss(cs, period, k) == Smooth(AvgLoss(cs, period, k - 1), Loss(cs, k), period)
  {
    hide Smooth, Gain, Loss;
  }

  lemma SmoothIs(avg: real, x: real, period: nat)
    requires period > 0
    ensures Times(Smooth(avg, x, period), period) == Times(avg, period - 1) + x
  {
    QuotientTimes(avg * (period - 1) as real + x, period);
  }

  /** The index is the share of the gains in gains and losses, out of a hundred, and a hundred without losses. */
  lemma RsiExactly(cs: seq<real>, period: nat)
    requires period > 0
    ensures Rsi(cs, period).Some? <==> |cs| > period
    ensures |cs| > period ==>
              var g, l, r := AvgGain(cs, period, |cs| - 1), AvgLoss(cs, period, |cs| - 1), Rsi(cs, period).value;
              g >= 0.0 && l >= 0.0 && if l == 0.0 then r == 100.0 else (g + l) * r == 100.0 * g
  {
    if |cs| > period {
      AveragesNotNegative(cs, period, |cs| - 1);
      hide AvgGain, AvgLoss;
      ShareIs(AvgGain(cs, period, |cs| - 1), AvgLoss(cs, period, |cs| - 1));
      hide RsiOf;
    }
  }

  lemma ShareIs(g: real, l: real)
    requires g >= 0.0 && l >= 0.0
    ensures if l == 0.0 then RsiOf(g, l) == 100.0 else (g + l) * RsiOf(g, l) == 100.0 * g
  {
    if l != 0.0 {
      var q := g / l;
      Whole(g, l);
      NonNegativeQuotient(g, l);
      var y := 100.0 / (1.0 + q);
      Whole(100.0, 1.0 + q);
      assert RsiOf(g, l) == 100.0 - y;
      OverBoth(g, l, q, y);
    }
  }

  lemma OverBoth(g: real, l: real, q: real, y: real)
    requires q * l == g && y * (1.0 + q) == 100.0
    ensures (g + l) * (100.0 - y) == 100.0 * g
  {
    calc {
      (100.0 - y) * (g + l);
      100.0 * (g + l) - y * (g + l);
      { assert g + l == (1.0 + q) * l; }
      100.0 * (g + l) - y * ((1.0 + q) * l);
      { assert y * ((1.0 + q) * l) == (y * (1.0 + q)) * l; }
      100.0 * g;
    }
  }

  // ----- Mirrored prices -----

  /** Rises and falls of `ds` are the falls and rises of `cs`. */
  ghost predicate Mirrored(cs: seq<real>, ds: seq<real>) {
    |cs| == |ds| && forall i :: 0 <= i < |cs| - 1 ==> ds[i + 1] - ds[i] == cs[i] - cs[i + 1]
  }

  lemma MirrorOne(cs: seq<real>, ds: seq<real>, k: nat)
    requires Mirrored(cs, ds) && 0 < k < |cs|
    ensures Gain(ds, k) == Loss(cs, k) && Loss(ds, k) == Gain(cs, k)
  {
    var i := k - 1;
    assert ds[i + 1] - ds[i] == cs[i] - cs[i + 1];
  }

  lemma {:induction false} MirrorSums(cs: seq<real>, ds: seq<real>, k: nat)
    requires Mirrored(cs, ds) && k < |cs|
    ensures GainSum(ds, k) == LossSum(cs, k) && LossSum(ds, k) == GainSum(cs, k)
    decreases k
  {
    if k > 0 {
      MirrorSums(cs, ds, k - 1);
      MirrorOne(cs, ds, k);
    }
  }

  lemma {:induction false} MirrorAverages(cs: seq<real>, ds: seq<real>, period: nat, k: nat)
    requires Mirrored(cs, ds) && 0 < period <= k < |cs|
    ensures AvgGain(ds, period, k) == AvgLoss(cs, period, k) && AvgLoss(ds, period, k) == AvgGain(cs, period, k)
    decreases k
  {
    if k == period {
      MirrorSums(cs, ds, k);
    } else {
      hide Mirrored, Smooth;
      MirrorAverages(cs, ds, period, k - 1);
      MirrorOne(cs, ds, k);
    }
  }

  /** With gains and losses, mirrored prices have the complementary index: strength over 55 is weakness under 45 in the mirror. */
  lemma MirrorRsi(cs: seq<real>, ds: seq<real>, period: nat)
    requires Mirrored(cs, ds) && 0 < period < |cs|
    requires AvgGain(cs, period, |cs| - 1) > 0.0 && AvgLoss(cs, period, |cs| - 1) > 0.0
    ensures Rsi(ds, period).value == 100.0 - Rsi(cs, period).value
  {
    var k := |cs| - 1;
    MirrorAverages(cs, ds, period, k);
    AveragesNotNegative(cs, period, k);
    AveragesNotNegative(ds, period, k);
    hide AvgGain, AvgLoss, Mirrored, RsiOf;
    Complement(AvgGain(cs, period, k), AvgLoss(cs, period, k));
  }

  lemma Complement(g: real, l: real)
    requires g > 0.0 && l > 0.0
    ensures RsiOf(l, g) == 100.0 - RsiOf(g, l)
  {
    ShareIs(g, l);
    ShareIs(l, g);
    assert l + g == g + l;
    hide RsiOf;
    Fill(RsiOf(g, l), RsiOf(l, g), g, l, g + l);
  }

  lemma Fill(r: real, s: real, g: real, l: real, t: real)
    requires t > 0.0 && t == g + l && t * r == 100.0 * g && t * s == 100.0 * l
    ensures s == 100.0 - r
  {
    Distribute(t, r, s);
    Cancel(t, r + s, 100.0);
  }

  lemma Cancel(t: real, x: real, c: real)
    requires t > 0.0 && t * x == c * t
    ensures x == c
  {
    if x < c {
      ScaleStrict(x, c, t);
    } else if c < x {
      ScaleStrict(c, x, t);
    }
  }
}
