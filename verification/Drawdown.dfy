/**
 Maximum drawdown, as both the return metrics and the equity script compute
 it: one pass with a running peak.  It is the worst ratio between a level and
 any earlier one, which is the quadratic definition.
 */
module Drawdown {

  /** Multiplication under a name, so that products can be reasoned about as terms. */
  function Mul(a: real, b: real): real {
    a * b
  }

  function Quot(a: real, b: real): (q: real)
    requires b != 0.0
    ensures Mul(q, b) == a
  {
    a / b
  }

  /** Compounded levels: `cumprod(1 + r)`. */
  function CumProd(rets: seq<real>): (levels: seq<real>)
    ensures |levels| == |rets|
  {
    if rets == [] then []
    else
      var init := CumProd(rets[..|rets| - 1]);
      init + [(if init == [] then 1.0 else init[|init| - 1]) * (1.0 + rets[|rets| - 1])]
  }

  /** The first level is one plus the first return; each later one is the one before it times one plus its return. */
  lemma {:induction false} Compounds(rets: seq<real>, i: nat)
    requires i < |rets|
    ensures CumProd(rets)[i] == Mul(if i == 0 then 1.0 else CumProd(rets)[i - 1], 1.0 + rets[i])
    decreases |rets|
  {
    if i < |rets| - 1 { Compounds(rets[..|rets| - 1], i); }
  }

  /** The running maximum. */
  function Peaks(levels: seq<real>): (peaks: seq<real>)
    ensures |peaks| == |levels|
  {
    if levels == [] then []
    else
      var init := Peaks(levels[..|levels| - 1]);
      var x := levels[|levels| - 1];
      init + [if init == [] || init[|init| - 1] < x then x else init[|init| - 1]]
  }

  /** The smallest `(level - peak) / peak`, zero for an empty series. */
  function MaxDrawdown(levels: seq<real>): real
    requires forall k :: 0 <= k < |levels| ==> Peaks(levels)[k] != 0.0
  {
    if levels == [] then 0.0
    else
      var l := |levels| - 1;
      PeaksPrefix(levels);
      var dd := Quot(levels[l] - Peaks(levels)[l], Peaks(levels)[l]);
      if l == 0 then dd
      else
        var before := MaxDrawdown(levels[..l]);
        if dd < before then dd else before
  }

  lemma PeaksPrefix(levels: seq<real>)
    requires levels != []
    ensures Peaks(levels[..|levels| - 1]) == Peaks(levels)[..|levels| - 1]
  {
  }

  ghost predicate Positive(levels: seq<real>) {
    forall k :: 0 <= k < |levels| ==> levels[k] > 0.0
  }

  /** The peak at `i` is a level up to `i`, and none up to `i` is higher. */
  lemma {:induction false} PeakIsMax(levels: seq<real>, i: nat)
    requires i < |levels|
    ensures forall j :: 0 <= j <= i ==> levels[j] <= Peaks(levels)[i]
    ensures exists j :: 0 <= j <= i && levels[j] == Peaks(levels)[i]
    decreases |levels|
  {
    var l := |levels| - 1;
    PeaksPrefix(levels);
    if i < l {
      PeakIsMax(levels[..l], i);
      var j :| 0 <= j <= i && levels[..l][j] == Peaks(levels[..l])[i];
      assert levels[j] == Peaks(levels)[i];
      assert forall k :: 0 <= k <= i ==> levels[..l][k] == levels[k];
    } else if l > 0 {
      PeakIsMax(levels[..l], l - 1);
      var j :| 0 <= j <= l - 1 && levels[..l][j] == Peaks(levels[..l])[l - 1];
      assert levels[j] == Peaks(levels)[l - 1];
      assert forall k :: 0 <= k <= l - 1 ==> levels[..l][k] == levels[k];
      assert levels[l] == Peaks(levels)[l] || levels[j] == Peaks(levels)[l];
    }
  }

  lemma PeaksPositive(levels: seq<real>)
    requires Positive(levels)
    ensures forall k :: 0 <= k < |levels| ==> Peaks(levels)[k] > 0.0
  {
    forall k | 0 <= k < |levels| ensures Peaks(levels)[k] > 0.0 { PeakIsMax(levels, k); }
  }

  function Ratio(levels: seq<real>, i: nat, j: nat): real
    requires i < |levels| && j < |levels| && levels[j] != 0.0
  {
    Quot(levels[i], levels[j]) - 1.0
  }

  lemma RatioMonotone(a: real, b: real, p: real)
    requires a > 0.0 && 0.0 < b <= p
    ensures Quot(a, p) <= Quot(a, b) && Quot(a - p, p) == Quot(a, p) - 1.0
  {
    hide Mul, Quot;
    var x, y, z := Quot(a, p), Quot(a, b), Quot(a - p, p);
    PositiveFactor(x, p);
    Widen(x, b, p);
    CancelLeq(x, y, b);
    Distribute(z, p);
    CancelLeq(z + 1.0, x, p);
    CancelLeq(x, z + 1.0, p);
  }

  lemma PositiveFactor(x: real, p: real)
    requires Mul(x, p) > 0.0 && p > 0.0
    ensures x > 0.0
  {
  }

  lemma Widen(x: real, b: real, p: real)
    requires x > 0.0 && b <= p
    ensures Mul(x, b) <= Mul(x, p)
  {
  }

  lemma Distribute(z: real, p: real)
    ensures Mul(z + 1.0, p) == Mul(z, p) + p
  {
  }

  lemma Unit(p: real)
    ensures Mul(1.0, p) == p && Mul(0.0, p) == 0.0 && Mul(-1.0, p) == -p
  {
  }

  lemma Strict(a: real, b: real, c: real)
    requires a < b && c > 0.0
    ensures Mul(a, c) < Mul(b, c)
  {
  }

  lemma CancelLeq(a: real, b: real, c: real)
    requires c > 0.0 && Mul(a, c) <= Mul(b, c)
    ensures a <= b
  {
    hide Mul;
    if b < a { Strict(b, a, c); }
  }

  /**
   The one-pass drawdown is the minimum of `level_i / level_j - 1` over all
   `j <= i`, and lies in (-1, 0].
   */
  lemma {:induction false} FastIsQuadratic(levels: seq<real>)
    requires Positive(levels) && levels != []
    ensures forall k :: 0 <= k < |levels| ==> Peaks(levels)[k] != 0.0
    ensures forall i, j :: 0 <= j <= i < |levels| ==> MaxDrawdown(levels) <= Ratio(levels, i, j)
    ensures exists i, j :: 0 <= j <= i < |levels| && MaxDrawdown(levels) == Ratio(levels, i, j)
    ensures -1.0 < MaxDrawdown(levels) <= 0.0
    decreases |levels|
  {
    PeaksPositive(levels);
    var l := |levels| - 1;
    var init := levels[..l];
    PeakIsMax(levels, l);
    var p := Peaks(levels)[l];
    var top :| 0 <= top <= l && levels[top] == p;
    var dd := Quot(levels[l] - p, p);
    RatioMonotone(levels[l], p, p);
    assert dd == Ratio(levels, l, top);
    forall j | 0 <= j <= l ensures dd <= Ratio(levels, l, j) { RatioMonotone(levels[l], levels[j], p); }
    LastDrop(levels[l], p);
    if l > 0 {
      PeaksPrefix(levels);
      FastIsQuadratic(init);
      assert forall i, j :: 0 <= j <= i < l ==> Ratio(init, i, j) == Ratio(levels, i, j);
      var i0, j0 :| 0 <= j0 <= i0 < l && MaxDrawdown(init) == Ratio(init, i0, j0);
      assert MaxDrawdown(init) == Ratio(levels, i0, j0);
    }
  }

  lemma LastDrop(x: real, p: real)
    requires 0.0 < x <= p
    ensures -1.0 < Quot(x - p, p) <= 0.0
  {
    hide Mul, Quot;
    var d := Quot(x - p, p);
    Unit(p);
    CancelLeq(d, 0.0, p);
    if d <= -1.0 { CancelLeqBack(d, -1.0, p); }
  }

  lemma CancelLeqBack(a: real, b: real, c: real)
    requires c > 0.0 && a <= b
    ensures Mul(a, c) <= Mul(b, c)
  {
    hide Mul;
    if a < b { Strict(a, b, c); }
  }

  /** There is no drawdown exactly when the series never falls. */
  lemma NoDrawdown(levels: seq<real>)
    requires Positive(levels) && levels != []
    ensures forall k :: 0 <= k < |levels| ==> Peaks(levels)[k] != 0.0
    ensures MaxDrawdown(levels) == 0.0 <==> forall i, j :: 0 <= j <= i < |levels| ==> levels[j] <= levels[i]
  {
    FastIsQuadratic(levels);
    var i0, j0 :| 0 <= j0 <= i0 < |levels| && MaxDrawdown(levels) == Ratio(levels, i0, j0);
    forall i, j | 0 <= j <= i < |levels| ensures Ratio(levels, i, j) >= 0.0 <==> levels[j] <= levels[i] {
      SignOfRatio(levels[i], levels[j]);
    }
    if MaxDrawdown(levels) == 0.0 {
      forall i, j | 0 <= j <= i < |levels| ensures levels[j] <= levels[i] {
        assert Ratio(levels, i, j) >= 0.0;
      }
    }
  }

  lemma SignOfRatio(a: real, b: real)
    requires a > 0.0 && b > 0.0
    ensures Quot(a, b) - 1.0 >= 0.0 <==> b <= a
  {
    hide Mul, Quot;
    var x := Quot(a, b);
    Unit(b);
    if x >= 1.0 { CancelLeqBack(1.0, x, b); } else { Strict(x, 1.0, b); }
  }

  /** Returns above -1 compound to positive levels, so the metrics' drawdown is always the quadratic one. */
  lemma {:induction false} CompoundedPositive(rets: seq<real>)
    requires forall k :: 0 <= k < |rets| ==> rets[k] > -1.0
    ensures Positive(CumProd(rets))
    decreases |rets|
  {
    if rets != [] {
      var l := |rets| - 1;
      var init := CumProd(rets[..l]);
      CompoundedPositive(rets[..l]);
      Strict(0.0, if init == [] then 1.0 else init[|init| - 1], 1.0 + rets[l]);
      Unit(1.0 + rets[l]);
    }
  }

  lemma MetricsDrawdown(rets: seq<real>)
    requires rets != [] && forall k :: 0 <= k < |rets| ==> rets[k] > -1.0
    ensures var levels := CumProd(rets);
            && (forall k :: 0 <= k < |levels| ==> Peaks(levels)[k] != 0.0 && levels[k] != 0.0)
            && (forall i, j :: 0 <= j <= i < |levels| ==> MaxDrawdown(levels) <= Ratio(levels, i, j))
            && (exists i, j :: 0 <= j <= i < |levels| && MaxDrawdown(levels) == Ratio(levels, i, j))
            && -1.0 < MaxDrawdown(levels) <= 0.0
  {
    CompoundedPositive(rets);
    FastIsQuadratic(CumProd(rets));
  }
}
