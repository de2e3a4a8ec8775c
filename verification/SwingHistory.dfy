/**
 The swing strategy as its past bars see it: what its buffers hold after any
 run that starts with positions taken over, and, from the bars alone, exactly
 which bar opens a position, how large, and which bar closes one.
 */
module SwingHistory {
  import opened Sums
  import opened Indicators
  import opened IndicatorLaws
  import opened Swing
  import opened SwingLaws

  /** The bars the strategy took for the symbol. */
  function Seen(events: seq<Event>, s: Sym): seq<Bar> {
    if events == [] then []
    else
      var e := events[|events| - 1];
      Seen(events[..|events| - 1], s) + if e.s == s && Listed(s) then [e.bar] else []
  }

  function Closes(h: seq<Bar>): seq<real> { seq(|h|, i requires 0 <= i < |h| => h[i].close) }

  function Highs(h: seq<Bar>): seq<real> { seq(|h|, i requires 0 <= i < |h| => h[i].high) }

  function Lows(h: seq<Bar>): seq<real> { seq(|h|, i requires 0 <= i < |h| => h[i].low) }

  function Volumes(h: seq<Bar>): seq<real> { seq(|h|, i requires 0 <= i < |h| => h[i].volume) }

  function Pasts(h: seq<Bar>): seq<Past> { seq(|h|, i requires 0 <= i < |h| => Past(h[i].high, h[i].low, h[i].close)) }

  lemma ColumnsGrow(h: seq<Bar>, b: Bar)
    ensures Closes(h + [b]) == Closes(h) + [b.close] && Highs(h + [b]) == Highs(h) + [b.high] && Lows(h + [b]) == Lows(h) + [b.low]
    ensures Volumes(h + [b]) == Volumes(h) + [b.volume] && Pasts(h + [b]) == Pasts(h) + [Past(b.high, b.low, b.close)]
  {
  }

  /** The leg's memory is the latest 260 bars. */
  ghost predicate Remembers(leg: Leg, h: seq<Bar>) {
    && leg.closes == Latest(Closes(h), 260) && leg.highs == Latest(Highs(h), 260) && leg.lows == Latest(Lows(h), 260)
    && leg.volumes == Latest(Volumes(h), 260) && leg.history == Latest(Pasts(h), 260)
  }

  lemma AbsorbRemembers(leg: Leg, h: seq<Bar>, b: Bar)
    requires Remembers(leg, h) && Buffered(leg)
    ensures Remembers(Absorb(leg, b), h + [b])
  {
    ColumnsGrow(h, b);
    PushKeepsLatest(Closes(h), b.close);
    PushKeepsLatest(Highs(h), b.high);
    PushKeepsLatest(Lows(h), b.low);
    PushKeepsLatest(Volumes(h), b.volume);
    PushKeepsLatest(Pasts(h), Past(b.high, b.low, b.close));
    hide Closes, Highs, Lows, Volumes, Pasts, Latest, Push;
  }

  lemma StepRemembers(leg: Leg, h: seq<Bar>, b: Bar, openCount: int, vix: Option<real>, shorts: bool)
    requires Remembers(leg, h) && Buffered(leg)
    ensures Remembers(LegStep(leg, b, openCount, vix, shorts).0, h + [b])
  {
    hide Absorb, Buffered, Closes, Highs, Lows, Volumes, Pasts, Latest, Usable, LongSetup, ShortSetup, VixOk, ExitDue, Shares, Atr, Stop, Target;
    AbsorbRemembers(leg, h, b);
  }

  lemma TakenRemembers(legs: Legs, s: Sym, long: Option<bool>, t: Sym)
    requires Remembers(LegOf(legs, t), [])
    ensures Remembers(LegOf(Restore(legs, s, long), t), [])
  {
    hide Buffered, Closes, Highs, Lows, Volumes, Pasts, Latest;
  }

  lemma {:induction false} TakenOverFresh(overs: seq<(Sym, Option<bool>)>, s: Sym)
    ensures Remembers(LegOf(TakenOver(overs), s), [])
    decreases |overs|
  {
    if overs == [] {
      hide Buffered;
    } else {
      hide Remembers, Restore, Buffered;
      var l := |overs| - 1;
      TakenOverFresh(overs[..l], s);
      TakenRemembers(TakenOver(overs[..l]), overs[l].0, overs[l].1, s);
    }
  }

  /** What the takeovers leave of a symbol: one share of the side last taken over, and nothing without a side. */
  lemma {:induction false} TakenOverExactly(overs: seq<(Sym, Option<bool>)>, s: Sym, k: nat)
    requires k < |overs| && overs[k].0 == s && forall j :: k < j < |overs| ==> overs[j].0 != s
    ensures LegOf(TakenOver(overs), s).position == if overs[k].1 == Some(true) then 1 else if overs[k].1 == Some(false) then -1 else 0
    decreases |overs|
  {
    hide Buffered;
    var l := |overs| - 1;
    if k < l { TakenOverExactly(overs[..l], s, k); }
  }

  lemma PairRemembers(st: State, e: Event, shorts: bool, s: Sym, h: seq<Bar>)
    requires Remembers(LegOf(st.legs, s), h)
    ensures Remembers(LegOf(Pair(st, e, shorts).legs, s), h + if e.s == s && Listed(s) then [e.bar] else [])
  {
    hide Remembers, LegStep, HeldCount, Listed, Buffered, PostBar;
    SameLegs(st.(legs := OnBar(st.legs, e.s, e.bar, e.vix, shorts).0), e.s, e.placeOk, e.cancelOk);
    StepRemembers(LegOf(st.legs, s), h, e.bar, HeldCount(st.legs), e.vix, shorts);
    assert h + [] == h;
  }

  /** On every run, for every symbol. */
  lemma {:induction false} RunRemembers(overs: seq<(Sym, Option<bool>)>, shorts: bool, events: seq<Event>, s: Sym)
    ensures Remembers(LegOf(Run(TakenOver(overs), shorts, events).legs, s), Seen(events, s))
    decreases |events|
  {
    hide Remembers, Pair, TakenOver, Listed, Buffered;
    if events == [] {
      TakenOverFresh(overs, s);
    } else {
      var init := events[..|events| - 1];
      RunRemembers(overs, shorts, init, s);
      PairRemembers(Run(TakenOver(overs), shorts, init), events[|events| - 1], shorts, s, Seen(init, s));
    }
  }

  // ----- Readiness -----

  function SumLast(xs: seq<real>, n: nat): real {
    SeqSum(Latest(xs, n), Itself)
  }

  /** Fifty bars, the last twenty of them with volume in sum. */
  ghost predicate Ready(h: seq<Bar>) {
    |h| >= 50 && SumLast(Volumes(h), 20) > 0.0
  }

  /** A mean over a buffer is the sum of the symbol's last entries over their number. */
  lemma BufferMean(all: seq<real>, buffer: seq<real>, n: nat)
    requires buffer == Latest(all, 260) && 0 < n <= 260
    ensures Mean(buffer, n).Some? <==> |all| >= n
    ensures |all| >= n ==> Times(Mean(buffer, n).value, n) == SumLast(all, n)
  {
    MeanIs(buffer, n);
    LatestOfLatest(all, 260, n);
    hide Mean, SeqSum, Latest;
  }

  lemma UsableIsReady(leg: Leg, h: seq<Bar>)
    requires Remembers(leg, h)
    ensures Usable(leg) <==> Ready(h)
  {
    BufferMean(Closes(h), leg.closes, 10);
    BufferMean(Closes(h), leg.closes, 50);
    BufferMean(Volumes(h), leg.volumes, 20);
    hide Mean, Latest, Pasts, Highs, Lows, SumLast;
  }

  // ----- Setups -----

  /** The bar `k` bars back has its high at the ten-bar mean of its own day, or over it by at most one percent. */
  ghost predicate Dips(h: seq<Bar>, k: nat) {
    |h| >= k + 10 && InBand(SumLast(Closes(h[..|h| - k]), 10), h[|h| - 1 - k].high)
  }

  /** Ten times the high is at the sum or over it by at most one percent. */
  ghost predicate InBand(s10: real, high: real) {
    s10 > 0.0 && s10 <= 10.0 * high <= 1.01 * s10
  }

  /** More than 1.2 times the mean volume of twenty bars. */
  ghost predicate Heavy(h: seq<Bar>) {
    |h| >= 20 && 20.0 * h[|h| - 1].volume > 1.2 * SumLast(Volumes(h), 20)
  }

  ghost function Index(h: seq<Bar>): Option<real> {
    Rsi(Latest(Closes(h), 260), 14)
  }

  /** The close is over the means of 10, 50 and 200, the 50 over the 200, with a strong index, volume and a recent dip. */
  ghost predicate LongBars(h: seq<Bar>) {
    && |h| >= 200
    && var c, s10, s50, s200 := h[|h| - 1].close, SumLast(Closes(h), 10), SumLast(Closes(h), 50), SumLast(Closes(h), 200);
       && 10.0 * c > s10 && 50.0 * c > s50 && 200.0 * c > s200 && 4.0 * s50 > s200
       && Index(h).Some? && Index(h).value > 55.0 && Heavy(h) && (Dips(h, 1) || Dips(h, 2))
  }

  /** The mirror, with the close under the means of 10 and 50 and the 50 under the 200. */
  ghost predicate ShortBars(h: seq<Bar>) {
    && |h| >= 200
    && var c, s10, s50, s200 := h[|h| - 1].close, SumLast(Closes(h), 10), SumLast(Closes(h), 50), SumLast(Closes(h), 200);
       && 10.0 * c < s10 && 50.0 * c < s50 && 4.0 * s50 < s200
       && Index(h).Some? && Index(h).value < 45.0 && Heavy(h) && (Dips(h, 1) || Dips(h, 2))
  }

  lemma TouchIs(high: real, mean: real, sum: real)
    requires Times(mean, 10) == sum
    ensures Touches(high, mean) <==> InBand(sum, high)
  {
    if mean > 0.0 && high >= mean {
      var d := high - mean;
      Whole(d, mean);
      if d / mean <= 0.01 { Scale(d / mean, 0.01, mean); } else { ScaleStrict(0.01, d / mean, mean); }
    }
  }

  /** The closes as they were `k` bars ago. */
  lemma ClosesThen(leg: Leg, h: seq<Bar>, k: nat)
    requires Remembers(leg, h) && |h| >= 200 && k <= 2
    ensures |leg.closes| >= 200 && |leg.highs| == |leg.closes| == |leg.history|
    ensures leg.highs[|leg.highs| - 1 - k] == h[|h| - 1 - k].high == leg.history[|leg.history| - 1 - k].high
    ensures Mean(leg.closes[..|leg.closes| - k], 10).Some?
    ensures Times(Mean(leg.closes[..|leg.closes| - k], 10).value, 10) == SumLast(Closes(h[..|h| - k]), 10)
  {
    hide Mean, SeqSum, Remembers, Latest, Closes, Times;
    HighThen(leg, h, k);
    LatestThen(leg, h, k);
    LastTen(leg.closes[..|leg.closes| - k], Closes(h[..|h| - k]));
  }

  lemma LastTen(xs: seq<real>, ys: seq<real>)
    requires |xs| >= 10 && Latest(xs, 10) == Latest(ys, 10)
    ensures Mean(xs, 10).Some? && Times(Mean(xs, 10).value, 10) == SumLast(ys, 10)
  {
    MeanIs(xs, 10);
    hide Mean, SeqSum, Latest;
  }

  lemma FromBack<T>(all: seq<T>, buffer: seq<T>, k: nat)
    requires buffer == Latest(all, 260) && k < 260 && k < |all|
    ensures k < |buffer| && buffer[|buffer| - 1 - k] == all[|all| - 1 - k]
  {
  }

  lemma Shortened(all: seq<real>, buffer: seq<real>, k: nat)
    requires buffer == Latest(all, 260) && |all| >= 200 && k <= 2
    ensures |buffer| >= 200 && Latest(buffer[..|buffer| - k], 10) == Latest(all[..|all| - k], 10)
  {
    if |all| > 260 {
      var d := |all| - 260;
      assert all[d..][..260 - k] == all[d..|all| - k];
      assert all[d..|all| - k][250 - k..] == all[|all| - k - 10..|all| - k];
    }
  }

  lemma ColumnLengths(h: seq<Bar>)
    ensures |Closes(h)| == |Highs(h)| == |Pasts(h)| == |h|
  {
  }

  lemma ColumnsAt(h: seq<Bar>, i: nat)
    requires i < |h| == |Highs(h)| == |Pasts(h)|
    ensures Highs(h)[i] == h[i].high && Pasts(h)[i].high == h[i].high
  {
  }

  lemma ClosesShortened(h: seq<Bar>, n: nat)
    requires n <= |h| == |Closes(h)|
    ensures Closes(h)[..n] == Closes(h[..n])
  {
  }

  lemma SameLength<S, T>(xs: seq<S>, ys: seq<T>)
    requires |xs| == |ys|
    ensures |Latest(xs, 260)| == |Latest(ys, 260)|
  {
  }

  lemma HighThen(leg: Leg, h: seq<Bar>, k: nat)
    requires Remembers(leg, h) && |h| >= 200 && k <= 2
    ensures |leg.closes| >= 200 && |leg.highs| == |leg.closes| == |leg.history|
    ensures leg.highs[|leg.highs| - 1 - k] == h[|h| - 1 - k].high == leg.history[|leg.history| - 1 - k].high
  {
    hide Volumes, Lows, Highs, Pasts, Closes, Latest;
    ColumnLengths(h);
    ColumnsAt(h, |h| - 1 - k);
    FromBack(Closes(h), leg.closes, 199);
    FromBack(Highs(h), leg.highs, k);
    FromBack(Pasts(h), leg.history, k);
    SameLength(Closes(h), Highs(h));
    SameLength(Closes(h), Pasts(h));
  }

  lemma LatestThen(leg: Leg, h: seq<Bar>, k: nat)
    requires Remembers(leg, h) && |h| >= 200 && k <= 2
    ensures |leg.closes| >= 200 && Latest(leg.closes[..|leg.closes| - k], 10) == Latest(Closes(h[..|h| - k]), 10)
  {
    hide Volumes, Lows, Highs, Pasts, Closes, Latest;
    ColumnLengths(h);
    ClosesShortened(h, |h| - k);
    Shortened(Closes(h), leg.closes, k);
  }

  lemma TouchForm(leg: Leg, k: nat, high: real, mean: real)
    requires k <= 2 && |leg.closes| >= 200 && |leg.highs| == |leg.closes| == |leg.history|
    requires leg.highs[|leg.highs| - 1 - k] == high == leg.history[|leg.history| - 1 - k].high
    requires Mean(leg.closes[..|leg.closes| - k], 10) == Some(mean)
    ensures PullbackAt(leg, k) <==> Touches(high, mean)
    ensures ResistanceAt(leg, k) <==> Touches(high, mean)
  {
    hide Mean, Touches;
  }

  lemma PullbackIsDip(leg: Leg, h: seq<Bar>, k: nat)
    requires Remembers(leg, h) && |h| >= 200 && k <= 2
    ensures PullbackAt(leg, k) <==> Dips(h, k)
    ensures ResistanceAt(leg, k) <==> Dips(h, k)
  {
    ClosesThen(leg, h, k);
    hide Remembers, Mean, SumLast, Touches, InBand, PullbackAt, ResistanceAt, Closes, Times;
    var high, mean := h[|h| - 1 - k].high, Mean(leg.closes[..|leg.closes| - k], 10).value;
    TouchIs(high, mean, SumLast(Closes(h[..|h| - k]), 10));
    TouchForm(leg, k, high, mean);
  }

  lemma CompareMean(c: real, mean: real, sum: real, n: nat)
    requires n > 0 && Times(mean, n) == sum
    ensures c > mean <==> Times(c, n) > sum
    ensures c < mean <==> Times(c, n) < sum
  {
    if c > mean {
      ScaleStrict(mean, c, n as real);
    } else if c < mean {
      ScaleStrict(c, mean, n as real);
    }
  }

  lemma HeavyIs(leg: Leg, h: seq<Bar>)
    requires Remembers(leg, h) && Ready(h)
    ensures Usable(leg) && (VolumeOk(leg, h[|h| - 1]) <==> Heavy(h))
  {
    UsableIsReady(leg, h);
    BufferMean(Volumes(h), leg.volumes, 20);
    hide Remembers, Mean, SumLast, Volumes;
    var v, mean := h[|h| - 1].volume, Mean(leg.volumes, 20).value;
    assert Times(mean, 20) == 20.0 * mean;
  }

  /** The three means, as sums. */
  lemma MeansAre(leg: Leg, h: seq<Bar>, n: nat, c: real)
    requires Remembers(leg, h) && 0 < n <= 260 && |h| >= n
    ensures var m := Mean(leg.closes, n);
            && m.Some? && Times(m.value, n) == SumLast(Closes(h), n)
            && (c > m.value <==> Times(c, n) > SumLast(Closes(h), n))
            && (c < m.value <==> Times(c, n) < SumLast(Closes(h), n))
  {
    BufferMean(Closes(h), leg.closes, n);
    assert |Closes(h)| >= n;
    hide Remembers, Mean, SumLast, Closes, Times;
    CompareMean(c, Mean(leg.closes, n).value, SumLast(Closes(h), n), n);
  }

  /** The close against the three means, and the means against each other, as sums. */
  ghost predicate MeansAreSums(leg: Leg, h: seq<Bar>, c: real)
    requires Usable(leg) && |leg.closes| >= 200
  {
    var sma10, sma50, sma200 := Mean(leg.closes, 10).value, Mean(leg.closes, 50).value, Mean(leg.closes, 200).value;
    var s10, s50, s200 := SumLast(Closes(h), 10), SumLast(Closes(h), 50), SumLast(Closes(h), 200);
    && (c > sma10 <==> 10.0 * c > s10) && (c < sma10 <==> 10.0 * c < s10)
    && (c > sma50 <==> 50.0 * c > s50) && (c < sma50 <==> 50.0 * c < s50) && (c > sma200 <==> 200.0 * c > s200)
    && (sma50 > sma200 <==> 4.0 * s50 > s200) && (sma50 < sma200 <==> 4.0 * s50 < s200)
  }

  lemma AllMeans(leg: Leg, h: seq<Bar>, c: real)
    requires Remembers(leg, h) && |h| >= 200 && Ready(h)
    ensures Usable(leg) && |leg.closes| >= 200 && MeansAreSums(leg, h, c)
  {
    HeavyIs(leg, h);
    ClosesThen(leg, h, 0);
    MeansAre(leg, h, 10, c);
    MeansAre(leg, h, 50, c);
    MeansAre(leg, h, 200, c);
    hide Remembers, Mean, SumLast, Closes, Usable, Heavy, VolumeOk, Ready;
    assert Times(c, 10) == 10.0 * c && Times(c, 50) == 50.0 * c && Times(c, 200) == 200.0 * c;
    FiftyOverTwoHundred(Mean(leg.closes, 50).value, Mean(leg.closes, 200).value);
    hide Times;
  }

  /** What the setups are made of, in the leg's terms and in the bars'. */
  ghost predicate PartsAgree(leg: Leg, h: seq<Bar>) {
    && h != [] && Usable(leg) && |leg.closes| >= 200 && MeansAreSums(leg, h, h[|h| - 1].close)
    && (VolumeOk(leg, h[|h| - 1]) <==> Heavy(h)) && Index(h).Some? && Rsi(leg.closes, 14) == Index(h)
    && (PullbackAt(leg, 1) || PullbackAt(leg, 2) <==> Dips(h, 1) || Dips(h, 2))
    && (ResistanceAt(leg, 1) || ResistanceAt(leg, 2) <==> Dips(h, 1) || Dips(h, 2))
  }

  lemma Parts(leg: Leg, h: seq<Bar>)
    requires Remembers(leg, h) && |h| >= 200 && Ready(h)
    ensures PartsAgree(leg, h)
  {
    assert leg.closes == Latest(Closes(h), 260);
    hide Remembers, MeansAreSums, Mean, Closes, Latest, Usable, VolumeOk, Heavy, PullbackAt, ResistanceAt, Dips, Rsi, Ready;
    AllMeans(leg, h, h[|h| - 1].close);
    HeavyIs(leg, h);
    PullbackIsDip(leg, h, 1);
    PullbackIsDip(leg, h, 2);
    RsiExactly(leg.closes, 14);
  }

  lemma LongIs(leg: Leg, h: seq<Bar>)
    requires |h| >= 200 && PartsAgree(leg, h)
    ensures LongSetup(leg, h[|h| - 1]) <==> LongBars(h)
  {
    hide Mean, SumLast, Usable, VolumeOk, Heavy, PullbackAt, ResistanceAt, Dips, Rsi, Index, Closes;
  }

  lemma ShortIs(leg: Leg, h: seq<Bar>)
    requires |h| >= 200 && PartsAgree(leg, h)
    ensures ShortSetup(leg, h[|h| - 1]) <==> ShortBars(h)
  {
    hide Mean, SumLast, Usable, VolumeOk, Heavy, PullbackAt, ResistanceAt, Dips, Rsi, Index, Closes;
  }

  lemma SetupsAre(leg: Leg, h: seq<Bar>)
    requires Remembers(leg, h) && |h| >= 200 && Ready(h)
    ensures Usable(leg) && |leg.closes| >= 200
    ensures LongSetup(leg, h[|h| - 1]) <==> LongBars(h)
    ensures ShortSetup(leg, h[|h| - 1]) <==> ShortBars(h)
  {
    Parts(leg, h);
    LongIs(leg, h);
    ShortIs(leg, h);
    hide LongSetup, ShortSetup, LongBars, ShortBars, Usable, MeansAreSums, Remembers, Ready;
  }

  lemma FiftyOverTwoHundred(a: real, b: real)
    ensures a > b <==> 4.0 * Times(a, 50) > Times(b, 200)
    ensures a < b <==> 4.0 * Times(a, 50) < Times(b, 200)
  {
  }

  // ----- Ranges -----

  /** `r` is the widest of the bar's own range and its reach from the close before it. */
  ghost predicate Widest(h: seq<Bar>, i: int, r: real) {
    && 1 <= i < |h|
    && var hi, lo, c := h[i].high, h[i].low, h[i - 1].close;
       && r >= hi - lo && r >= hi - c && r >= c - hi && r >= lo - c && r >= c - lo
       && (r == hi - lo || r == hi - c || r == c - hi || r == lo - c || r == c - lo)
  }

  lemma RangeIsWidest(h: seq<Bar>, i: int)
    requires 1 <= i < |h|
    ensures forall r :: Widest(h, i, r) <==> r == TrueRange(Pasts(h)[i - 1], Pasts(h)[i])
  {
  }

  /** The average range is a fourteenth of the sum of the last fourteen ranges, and zero before there are that many. */
  lemma AtrIs(leg: Leg, h: seq<Bar>, ranges: seq<real>)
    requires Remembers(leg, h) && |h| >= 15
    requires |ranges| == 14 && forall k :: 0 <= k < 14 ==> Widest(h, |h| - 14 + k, ranges[k])
    ensures Times(Atr(leg.history), 14) == SeqSum(ranges, Itself)
  {
    hide Ranges, TrueRange, Widest, Pasts, Remembers, Total, SeqSum, Times;
    PastAt(leg, h, 0);
    var all := Ranges(leg.history);
    forall k | 0 <= k < 14 ensures |all| >= 14 && ranges[k] == all[|all| - 14 + k] {
      RangeAt(leg, h, k);
      RangeIsWidest(h, |h| - 14 + k);
      assert Widest(h, |h| - 14 + k, ranges[k]);
    }
    SameTail(all, ranges);
    TotalIsSum(ranges);
    QuotientTimes(Total(ranges), 14);
  }

  lemma SameTail(all: seq<real>, ranges: seq<real>)
    requires |ranges| == 14 && |all| >= 14 && forall k :: 0 <= k < 14 ==> ranges[k] == all[|all| - 14 + k]
    ensures all[|all| - 14..] == ranges
  {
  }

  lemma RangesAt(history: seq<Past>, j: nat)
    requires j + 1 < |history|
    ensures Ranges(history)[j] == TrueRange(history[j], history[j + 1])
  {
    hide TrueRange;
  }

  lemma RangeAt(leg: Leg, h: seq<Bar>, k: nat)
    requires Remembers(leg, h) && |h| >= 15 && k < 14
    ensures |leg.history| >= 15 && |Pasts(h)| == |h|
    ensures var all, i := Ranges(leg.history), |h| - 14 + k; all[|all| - 14 + k] == TrueRange(Pasts(h)[i - 1], Pasts(h)[i])
  {
    hide TrueRange, Ranges, Pasts, Remembers;
    PastAt(leg, h, k);
    PastAt(leg, h, k + 1);
    RangesAt(leg.history, |leg.history| - 15 + k);
  }

  lemma PastAt(leg: Leg, h: seq<Bar>, k: nat)
    requires Remembers(leg, h) && |h| >= 15 && k < 15
    ensures |leg.history| >= 15 && |Pasts(h)| == |h| && leg.history[|leg.history| - 15 + k] == Pasts(h)[|h| - 15 + k]
  {
    hide Pasts, Closes, Highs, Lows, Volumes, Latest;
    ColumnLengths(h);
    FromBack(Pasts(h), leg.history, 14 - k);
    FromBack(Pasts(h), leg.history, 14);
  }

  // ----- What a bar does -----

  /** Two ranges under a long's entry and four over it, and the other way round for a short; without a range, four and eight percent. */
  lemma LevelsAre(entry: real, atr: real)
    ensures atr > 0.0 ==> Stop(true, entry, atr) == entry - 2.0 * atr && Target(true, entry, atr) == entry + 4.0 * atr
    ensures atr > 0.0 ==> Stop(false, entry, atr) == entry + 2.0 * atr && Target(false, entry, atr) == entry - 4.0 * atr
    ensures atr <= 0.0 ==> Stop(true, entry, atr) == 0.96 * entry && Target(true, entry, atr) == 1.08 * entry
    ensures atr <= 0.0 ==> Stop(false, entry, atr) == 1.04 * entry && Target(false, entry, atr) == 0.92 * entry
  {
  }

  /** The bar ends a position of the given side, entry, range and days held. */
  ghost predicate EndsIt(b: Bar, long: bool, entry: real, atr: real, held: int) {
    || held >= 20
    || (long && atr > 0.0 && (b.close <= entry - 2.0 * atr || b.high >= entry + 4.0 * atr))
    || (long && atr <= 0.0 && (b.close <= 0.96 * entry || b.high >= 1.08 * entry))
    || (!long && atr > 0.0 && (b.close >= entry + 2.0 * atr || b.low <= entry - 4.0 * atr))
    || (!long && atr <= 0.0 && (b.close >= 1.04 * entry || b.low <= 0.92 * entry))
  }

  /** The bar ends the leg's position; one taken over counts as entered at this close, with no range and no day. */
  ghost predicate EndsLeg(leg: Leg, b: Bar, day: int) {
    EndsIt(b, leg.position > 0,
           if leg.entryPrice.Some? then leg.entryPrice.value else b.close,
           if leg.entryAtr.Some? then leg.entryAtr.value else 0.0,
           if leg.entryDay.Some? then day - leg.entryDay.value else 0)
  }

  lemma ExitIsEnd(leg: Leg, b: Bar, day: int)
    ensures ExitDue(leg, b, day) <==> EndsLeg(leg, b, day)
  {
    LevelsAre(if leg.entryPrice.Some? then leg.entryPrice.value else b.close, AtrOf(leg));
    hide Stop, Target;
  }

  /** What an opened leg notes: the close, the day and the average range, for as many shares as are nearest to 30000. */
  ghost predicate Noted(h: seq<Bar>, z: Leg) {
    && h != [] && h[|h| - 1].day.Some? && h[|h| - 1].close > 0.0
    && z.entryPrice == Some(h[|h| - 1].close) && z.entryDay == h[|h| - 1].day && z.entryAtr.Some?
    && Near(z.position, h[|h| - 1].close) && IsMeanRange(h, z.entryAtr.value)
  }

  /** Fourteen times `atr` is the sum of the last fourteen ranges. */
  ghost predicate IsMeanRange(h: seq<Bar>, atr: real) {
    forall ranges: seq<real> :: |ranges| == 14 && (forall k :: 0 <= k < 14 ==> Widest(h, |h| - 14 + k, ranges[k]))
      ==> Times(atr, 14) == SeqSum(ranges, Itself)
  }

  lemma AtrIsMeanRange(leg: Leg, h: seq<Bar>)
    requires Remembers(leg, h) && |h| >= 15
    ensures IsMeanRange(h, Atr(leg.history))
  {
    hide Atr, Widest, Times, SeqSum, Remembers;
    forall ranges: seq<real> | |ranges| == 14 && (forall k :: 0 <= k < 14 ==> Widest(h, |h| - 14 + k, ranges[k]))
      ensures Times(Atr(leg.history), 14) == SeqSum(ranges, Itself)
    {
      AtrIs(leg, h, ranges);
    }
  }

  lemma NearShares(close: real)
    requires close != 0.0 && Shares(close) >= 1
    ensures close > 0.0 && Near(Shares(close), close) && Near(-Shares(close), close)
  {
    SharesNearCap(close);
    hide Shares;
  }

  /** The position's value is within half a share of 30000. */
  ghost predicate Near(position: int, price: real) {
    30000.0 - 0.5 * price <= (if position > 0 then position else -position) as real * price <= 30000.0 + 0.5 * price
  }

  lemma OpenNotes(leg: Leg, h: seq<Bar>, day: int, long: bool)
    requires Remembers(leg, h) && |h| >= 200 && h[|h| - 1].day == Some(day) && leg.position == 0
    ensures var z := Open(leg, h[|h| - 1], day, long).0;
            if z.position == 0 then z == leg else Noted(h, z) && (z.position > 0 <==> long)
  {
    var b := h[|h| - 1];
    hide Shares, Atr, Remembers, Near, IsMeanRange, Open, Noted;
    OpenIs(leg, b, day, long);
    if b.close != 0.0 && Shares(b.close) >= 1 {
      AtrIsMeanRange(leg, h);
      NearShares(b.close);
      OpenedNoted(h, Open(leg, b, day, long).0);
    }
  }

  lemma OpenedNoted(h: seq<Bar>, z: Leg)
    requires h != [] && h[|h| - 1].day.Some? && h[|h| - 1].close > 0.0 && Near(z.position, h[|h| - 1].close)
    requires z.entryPrice == Some(h[|h| - 1].close) && z.entryDay == h[|h| - 1].day && z.entryAtr.Some? && IsMeanRange(h, z.entryAtr.value)
    ensures Noted(h, z)
  {
    hide Near, IsMeanRange;
  }

  lemma OpenIs(leg: Leg, b: Bar, day: int, long: bool)
    ensures Open(leg, b, day, long).0
         == if b.close == 0.0 || Shares(b.close) < 1 then leg
            else leg.(position := if long then Shares(b.close) else -Shares(b.close), entryPrice := Some(b.close),
                      entryDay := Some(day), entryAtr := Some(Atr(leg.history)))
  {
    hide Shares, Atr, Stop, Target;
  }

  /** A positive close whose share count rounds to one at least, which is one under 60000. */
  lemma OpensSide(leg: Leg, b: Bar, day: int, long: bool)
    requires leg.position == 0
    ensures var z := Open(leg, b, day, long).0;
            if 0.0 < b.close < 60000.0 then (if long then z.position > 0 else z.position < 0) else z.position == 0
  {
    if b.close > 0.0 {
      SharesExist(b.close);
    } else if b.close < 0.0 {
      if Shares(b.close) >= 1 { SharesNearCap(b.close); }
    }
    hide Shares, Atr, Stop, Target;
  }

  /** What a bar does to a flat leg that is ready for it. */
  lemma FlatByBars(leg: Leg, h: seq<Bar>, day: int, held: int, vix: Option<real>, shorts: bool)
    requires Remembers(leg, h) && Ready(h) && h[|h| - 1].day == Some(day) && leg.position == 0 && Usable(leg)
    ensures var b, z := h[|h| - 1], Enter(leg, h[|h| - 1], day, held, vix, shorts).0;
            var room := held < 2 && 0.0 < b.close < 60000.0;
            && (z.position > 0 <==> room && LongBars(h) && vix.Some? && 15.0 <= vix.value <= 30.0)
            && (z.position < 0 <==> room && ShortBars(h) && shorts)
            && (z.position != 0 ==> Noted(h, z)) && (z.position == 0 ==> z == leg)
  {
    var b := h[|h| - 1];
    if |h| >= 200 {
      SetupsAre(leg, h);
      NotBothWays(leg, b);
      OpensSide(leg, b, day, true);
      OpensSide(leg, b, day, false);
      OpenNotes(leg, h, day, true);
      OpenNotes(leg, h, day, false);
      hide Open, LongSetup, ShortSetup, LongBars, ShortBars, Noted, Usable, Ready, Remembers;
    } else {
      assert |leg.closes| < 200;
      hide Open, LongSetup, ShortSetup, Noted, Usable, Ready, Remembers;
    }
  }

  /** What a bar does to a leg, in all. */
  lemma LegByBars(leg: Leg, h: seq<Bar>, b: Bar, held: int, vix: Option<real>, shorts: bool)
    requires Buffered(leg) && Remembers(leg, h)
    ensures LegResult(leg, h + [b], held, vix, shorts, LegStep(leg, b, held, vix, shorts).0)
  {
    AbsorbRemembers(leg, h, b);
    var l, g := Absorb(leg, b), h + [b];
    UsableIsReady(l, g);
    AbsorbUnmoved(leg, b);
    hide Absorb, Buffered, Remembers, Usable, Ready, LegResult, LegStep;
    if Ready(g) && b.day.Some? {
      if leg.position == 0 { FlatResult(leg, g, held, vix, shorts, l); } else { HeldResult(leg, g, held, vix, shorts, l); }
      StepOfAbsorbed(leg, b, held, vix, shorts);
    } else {
      StepOfAbsorbed(leg, b, held, vix, shorts);
      IdleResult(leg, g, held, vix, shorts, l);
    }
  }

  lemma AbsorbUnmoved(leg: Leg, b: Bar)
    requires Buffered(leg)
    ensures Unmoved(leg, Absorb(leg, b))
  {
    hide Push;
  }

  lemma StepOfAbsorbed(leg: Leg, b: Bar, held: int, vix: Option<real>, shorts: bool)
    requires Buffered(leg)
    ensures var l := Absorb(leg, b);
            LegStep(leg, b, held, vix, shorts).0
            == if !Usable(l) || b.day.None? then l
               else if l.position == 0 then Enter(l, b, b.day.value, held, vix, shorts).0 else Exits(l, b, b.day.value).0
  {
    hide Absorb, Usable, Buffered, Enter, Exits;
  }

  lemma IdleResult(leg: Leg, h: seq<Bar>, held: int, vix: Option<real>, shorts: bool, z: Leg)
    requires h != [] && (!Ready(h) || h[|h| - 1].day.None?) && Unmoved(leg, z)
    ensures LegResult(leg, h, held, vix, shorts, z)
  {
    hide Ready, Noted, LongBars, ShortBars, EndsLeg;
  }

  lemma FlatResult(leg: Leg, h: seq<Bar>, held: int, vix: Option<real>, shorts: bool, l: Leg)
    requires Remembers(l, h) && Ready(h) && h[|h| - 1].day.Some? && leg.position == 0 && Unmoved(leg, l) && Usable(l)
    ensures LegResult(leg, h, held, vix, shorts, Enter(l, h[|h| - 1], h[|h| - 1].day.value, held, vix, shorts).0)
  {
    FlatByBars(l, h, h[|h| - 1].day.value, held, vix, shorts);
    hide Ready, Noted, LongBars, ShortBars, EndsLeg, Enter, Remembers, Usable;
  }

  lemma HeldResult(leg: Leg, h: seq<Bar>, held: int, vix: Option<real>, shorts: bool, l: Leg)
    requires Ready(h) && h[|h| - 1].day.Some? && leg.position != 0 && Unmoved(leg, l)
    ensures LegResult(leg, h, held, vix, shorts, Exits(l, h[|h| - 1], h[|h| - 1].day.value).0)
  {
    var b := h[|h| - 1];
    ExitIsEnd(l, b, b.day.value);
    SameEnd(leg, l, b, b.day.value);
    hide Ready, Noted, LongBars, ShortBars, EndsLeg, ExitDue;
  }

  lemma SameEnd(leg: Leg, l: Leg, b: Bar, day: int)
    requires Unmoved(leg, l)
    ensures EndsLeg(leg, b, day) <==> EndsLeg(l, b, day)
  {
  }

  /** From `leg` to `z` by the last bar of `h`, with `held` symbols held before it. */
  ghost predicate LegResult(leg: Leg, h: seq<Bar>, held: int, vix: Option<real>, shorts: bool, z: Leg)
    requires h != []
  {
    var b := h[|h| - 1];
    var room := held < 2 && 0.0 < b.close < 60000.0;
    if !Ready(h) || b.day.None? then Unmoved(leg, z)
    else if leg.position != 0 then
      if EndsLeg(leg, b, b.day.value) then z.position == 0 && z.entryPrice.None? && z.entryDay.None? && z.entryAtr.None?
      else Unmoved(leg, z)
    else
      && (z.position > 0 <==> room && LongBars(h) && vix.Some? && 15.0 <= vix.value <= 30.0)
      && (z.position < 0 <==> room && ShortBars(h) && shorts)
      && (z.position != 0 ==> Noted(h, z)) && (z.position == 0 ==> Unmoved(leg, z))
  }

  /** The listed symbols with a position. */
  ghost function HeldNow(legs: Legs): set<Sym> {
    set s | s in SYMBOLS && LegOf(legs, s).position != 0
  }

  lemma HeldCountIs(legs: Legs)
    ensures HeldCount(legs) == |HeldNow(legs)|
  {
    SymbolsDistinct();
    CountIsSize(legs, SYMBOLS, |SYMBOLS|);
    assert SYMBOLS[..|SYMBOLS|] == SYMBOLS;
    hide LegOf, Buffered;
    assert HeldNow(legs) == HeldIn(legs, SYMBOLS);
  }

  /**
   After any takeovers and any run, a bar of a listed symbol moves its leg as
   the symbol's bars say: nothing before fifty of them or without a date; a
   held leg is cleared exactly when the bar ends it; a flat one is opened
   exactly on the long or the short setup, with room for it, and notes its
   entry.
   */
  lemma BarByTheBars(overs: seq<(Sym, Option<bool>)>, shorts: bool, events: seq<Event>, e: Event)
    requires Listed(e.s)
    ensures var x, z := Run(TakenOver(overs), shorts, events), Run(TakenOver(overs), shorts, events + [e]);
            LegResult(LegOf(x.legs, e.s), Seen(events, e.s) + [e.bar], |HeldNow(x.legs)|, e.vix, shorts, LegOf(z.legs, e.s))
  {
    hide LegResult, LegStep, HeldCount, HeldNow, Listed, Buffered, PostBar, Remembers, TakenOver;
    var st := Run(TakenOver(overs), shorts, events);
    assert (events + [e])[..|events|] == events;
    RunRemembers(overs, shorts, events, e.s);
    HeldCountIs(st.legs);
    SameLegs(st.(legs := OnBar(st.legs, e.s, e.bar, e.vix, shorts).0), e.s, e.placeOk, e.cancelOk);
    LegByBars(LegOf(st.legs, e.s), Seen(events, e.s), e.bar, HeldCount(st.legs), e.vix, shorts);
  }

  // ----- What a bar announces -----

  /**
   The order that goes with a leg's move from `leg` to `z`: a buy or a short
   sale of the new position with its stop and target, a sale or a cover of the
   whole old one, and no order when the position stays.
   */
  ghost predicate Announces(leg: Leg, z: Leg, b: Bar, outcome: Outcome) {
    var atr := if z.entryAtr.Some? then z.entryAtr.value else 0.0;
    if leg.position == z.position then outcome == Quiet || (outcome == Raised && b.close == 0.0)
    else if z.position > 0 then
      outcome == Trade(Buy, z.position, Some(if atr > 0.0 then Bracket(b.close - 2.0 * atr, b.close + 4.0 * atr)
                                             else Bracket(0.96 * b.close, 1.08 * b.close)))
    else if z.position < 0 then outcome == Trade(SellShort, -z.position, Some(Bracket(b.close + 2.0 * atr, b.close - 4.0 * atr)))
    else outcome == if leg.position > 0 then Trade(Sell, leg.position, None) else Trade(BuyToCover, -leg.position, None)
  }

  lemma OpenAnnounces(leg: Leg, b: Bar, day: int, long: bool)
    requires leg.position == 0
    ensures Announces(leg, Open(leg, b, day, long).0, b, Open(leg, b, day, long).1)
  {
    LevelsAre(b.close, Atr(leg.history));
    hide Shares, Atr, Stop, Target;
  }

  lemma ExitAnnounces(leg: Leg, b: Bar, day: int)
    requires leg.position != 0
    ensures Announces(leg, Exits(leg, b, day).0, b, Exits(leg, b, day).1)
  {
    hide ExitDue;
  }

  lemma EntryAnnounces(leg: Leg, b: Bar, day: int, held: int, vix: Option<real>, shorts: bool)
    requires leg.position == 0 && Usable(leg)
    ensures var (z, outcome) := Enter(leg, b, day, held, vix, shorts); Announces(leg, z, b, outcome)
  {
    assert Announces(leg, leg, b, Quiet);
    hide Announces, LongSetup, ShortSetup, VixOk, Open, Usable;
    OpenAnnounces(leg, b, day, true);
    OpenAnnounces(leg, b, day, false);
  }

  lemma SamePosition(leg: Leg, l: Leg, z: Leg, b: Bar, outcome: Outcome)
    requires leg.position == l.position && Announces(l, z, b, outcome)
    ensures Announces(leg, z, b, outcome)
  {
  }

  lemma StepAnnounces(leg: Leg, b: Bar, held: int, vix: Option<real>, shorts: bool)
    requires Buffered(leg)
    ensures var (z, outcome) := LegStep(leg, b, held, vix, shorts); Announces(leg, z, b, outcome)
  {
    var l := Absorb(leg, b);
    var (z, outcome) := LegStep(leg, b, held, vix, shorts);
    AbsorbUnmoved(leg, b);
    assert Announces(l, l, b, Quiet);
    hide Announces, Absorb, Usable, Enter, Exits, Buffered;
    if Usable(l) && b.day.Some? {
      if l.position == 0 { EntryAnnounces(l, b, b.day.value, held, vix, shorts); } else { ExitAnnounces(l, b, b.day.value); }
    }
    SamePosition(leg, l, z, b, outcome);
  }

  /** In every run, for every bar of a listed symbol. */
  lemma BarAnnounces(overs: seq<(Sym, Option<bool>)>, shorts: bool, events: seq<Event>, e: Event)
    requires Listed(e.s)
    ensures var x, z := Run(TakenOver(overs), shorts, events), Run(TakenOver(overs), shorts, events + [e]);
            Announces(LegOf(x.legs, e.s), LegOf(z.legs, e.s), e.bar, OnBar(x.legs, e.s, e.bar, e.vix, shorts).1)
  {
    hide Announces, LegStep, HeldCount, Listed, Buffered, PostBar, TakenOver;
    var st := Run(TakenOver(overs), shorts, events);
    assert (events + [e])[..|events|] == events;
    SameLegs(st.(legs := OnBar(st.legs, e.s, e.bar, e.vix, shorts).0), e.s, e.placeOk, e.cancelOk);
    StepAnnounces(LegOf(st.legs, e.s), e.bar, HeldCount(st.legs), e.vix, shorts);
  }
}
