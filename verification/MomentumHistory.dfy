/**
 The momentum strategy as its past bars see it: what its buffers and session
 totals hold after any run, and, from the bars alone, exactly when a symbol
 is bought, for how many shares, and when it is sold.
 */
module MomentumHistory {
  import opened Sums
  import opened Indicators
  import opened IndicatorLaws
  import opened Momentum

  /** The bars the strategy took for the symbol. */
  function Taken(bars: seq<(Sym, Bar)>, s: Sym): seq<Bar> {
    if bars == [] then []
    else
      var (t, bar) := bars[|bars| - 1];
      Taken(bars[..|bars| - 1], s) + if t == s && s in {"AVGO", "LLY", "TSM", "GEV"} && bar.stamped then [bar] else []
  }

  function Closes(h: seq<Bar>): seq<real> { seq(|h|, i requires 0 <= i < |h| => h[i].close) }

  function Highs(h: seq<Bar>): seq<real> { seq(|h|, i requires 0 <= i < |h| => h[i].high) }

  function Lows(h: seq<Bar>): seq<real> { seq(|h|, i requires 0 <= i < |h| => h[i].low) }

  function Volumes(h: seq<Bar>): seq<real> { seq(|h|, i requires 0 <= i < |h| => h[i].volume) }

  lemma ColumnsGrow(h: seq<Bar>, b: Bar)
    ensures Closes(h + [b]) == Closes(h) + [b.close] && Highs(h + [b]) == Highs(h) + [b.high]
    ensures Lows(h + [b]) == Lows(h) + [b.low] && Volumes(h + [b]) == Volumes(h) + [b.volume]
  {
  }

  /** The latest bars, back to the last change of date. */
  function Session(h: seq<Bar>): seq<Bar> {
    var l := |h| - 1;
    if |h| <= 1 then h
    else if h[l].date == h[l - 1].date then Session(h[..l]) + [h[l]]
    else [h[l]]
  }

  function Traded(b: Bar): real {
    if b.volume > 0.0 then b.volume else 0.0
  }

  /** What a bar adds to the session's money: its volume at the mean of high, low and close. */
  function Money(b: Bar): real {
    if b.volume > 0.0 then (b.high + b.low + b.close) / 3.0 * b.volume else 0.0
  }

  ghost predicate Buffers(leg: Leg, h: seq<Bar>) {
    && leg.closes == Latest(Closes(h), 260) && leg.highs == Latest(Highs(h), 260)
    && leg.lows == Latest(Lows(h), 260) && leg.volumes == Latest(Volumes(h), 260)
  }

  ghost predicate Totals(leg: Leg, h: seq<Bar>) {
    && leg.session == (if h == [] then None else Some(h[|h| - 1].date))
    && leg.cumVol == SeqSum(Session(h), Traded) && leg.cumTpVol == SeqSum(Session(h), Money)
  }

  /** The leg's memory is the latest 260 bars, the totals of the session, and the previous bar's high. */
  ghost predicate Remembers(leg: Leg, h: seq<Bar>) {
    Buffers(leg, h) && Totals(leg, h) && leg.prevHigh == if h == [] then None else Some(h[|h| - 1].high)
  }

  lemma SessionGrows(h: seq<Bar>, b: Bar)
    ensures var now := if h != [] && h[|h| - 1].date == b.date then Session(h) else [];
            && SeqSum(Session(h + [b]), Traded) == SeqSum(now, Traded) + Traded(b)
            && SeqSum(Session(h + [b]), Money) == SeqSum(now, Money) + Money(b)
  {
    hide Money, Traded;
    var now := if h != [] && h[|h| - 1].date == b.date then Session(h) else [];
    assert (h + [b])[..|h|] == h;
    assert Session(h + [b]) == now + [b];
    SeqSumMore(now, b, Traded);
    SeqSumMore(now, b, Money);
  }

  lemma AbsorbBuffers(leg: Leg, h: seq<Bar>, b: Bar)
    requires Buffers(leg, h) && Buffered(leg)
    ensures Buffers(Absorb(leg, b).0, h + [b])
  {
    ColumnsGrow(h, b);
    PushKeepsLatest(Closes(h), b.close);
    PushKeepsLatest(Highs(h), b.high);
    PushKeepsLatest(Lows(h), b.low);
    PushKeepsLatest(Volumes(h), b.volume);
    hide Closes, Highs, Lows, Volumes, Latest, Push, Ratio, TypicalVolume;
  }

  lemma AbsorbTotals(leg: Leg, h: seq<Bar>, b: Bar)
    requires Totals(leg, h) && Buffered(leg)
    ensures Totals(Absorb(leg, b).0, h + [b])
  {
    SessionGrows(h, b);
    assert SeqSum([], Traded) == 0.0 && SeqSum([], Money) == 0.0;
    BarAdds(b);
    hide Session, SeqSum, Push, Ratio, TypicalVolume, Money, Traded, Buffered;
  }

  lemma BarAdds(b: Bar)
    ensures if b.volume > 0.0 then Traded(b) == b.volume && Money(b) == TypicalVolume(b) else Traded(b) == 0.0 && Money(b) == 0.0
  {
  }

  /** The part of the memory that `Absorb` has already brought up to the bar. */
  ghost predicate Recalls(leg: Leg, h: seq<Bar>) {
    Buffers(leg, h) && Totals(leg, h)
  }

  lemma AbsorbRecalls(leg: Leg, h: seq<Bar>, b: Bar)
    requires Remembers(leg, h) && Buffered(leg)
    ensures Recalls(Absorb(leg, b).0, h + [b])
  {
    hide Buffers, Totals, Absorb, Buffered;
    AbsorbBuffers(leg, h, b);
    AbsorbTotals(leg, h, b);
  }

  /** Exit and entry checks leave the memory alone, but for the high they note. */
  lemma ChecksRemember(leg: Leg, b: Bar, vwap: Option<real>, openCount: int, h: seq<Bar>)
    requires Recalls(leg, h) && h != [] && h[|h| - 1] == b
    ensures Remembers(ExitChecks(leg, b).0, h) && Remembers(EntryChecks(leg, b, vwap, openCount).0, h)
  {
    hide Session, Closes, Highs, Lows, Volumes, Latest, SeqSum, Mean, EntrySignal, SharesFor, Money, Traded;
  }

  lemma StepRemembers(leg: Leg, h: seq<Bar>, b: Bar, openCount: int)
    requires Remembers(leg, h) && Buffered(leg)
    ensures Remembers(Step(leg, b, openCount).0, h + [b])
  {
    hide Remembers, Recalls, Absorb, ExitChecks, EntryChecks, Buffered;
    AbsorbRecalls(leg, h, b);
    var (l, vwap) := Absorb(leg, b);
    ChecksRemember(l, b, vwap, openCount, h + [b]);
  }

  /** On every run, for every symbol. */
  lemma {:induction false} RunRemembers(bars: seq<(Sym, Bar)>, s: Sym)
    ensures Remembers(LegOf(Run(bars), s), Taken(bars, s))
    decreases |bars|
  {
    if bars != [] {
      var init := bars[..|bars| - 1];
      var (t, bar) := bars[|bars| - 1];
      RunRemembers(init, s);
      hide Remembers, Step;
      StepRemembers(LegOf(Run(init), s), Taken(init, s), bar, |OpenSet(Run(init))|);
      if t != s { OthersUntouched(Run(init), t, bar, s); }
      assert Taken(init, s) + [] == Taken(init, s);
    }
  }

  // ----- Buying -----

  /** How many symbols are held. */
  ghost function HeldNow(bars: seq<(Sym, Bar)>): nat {
    |set t | t in Run(bars) && Run(bars)[t].position > 0|
  }

  /** What the bars up to and with the present one must show to buy. */
  ghost predicate BuyBars(h: seq<Bar>, held: int) {
    && |h| >= 2
    && var b := h[|h| - 1];
       && 34500 <= b.clock <= 50400 && held < 2 && 0.0 < b.close <= 25000.0
       && b.close > h[|h| - 2].high && Surges(h) && AboveSession(h) && StrongBars(h)
  }

  /** The volume is over one and a half times its twenty-bar mean. */
  ghost predicate Surges(h: seq<Bar>) {
    && |h| >= 20 && SeqSum(Latest(Volumes(h), 20), Itself) > 0.0
    && 20.0 * h[|h| - 1].volume > 1.5 * SeqSum(Latest(Volumes(h), 20), Itself)
  }

  /** There is a ratio `a / b`, and `c` is over it. */
  ghost predicate Over(a: real, b: real, c: real) {
    b > 0.0 && b * c > a
  }

  /** The close is over the session's mean price: the money over the shares traded. */
  ghost predicate AboveSession(h: seq<Bar>) {
    h != [] && Over(SeqSum(Session(h), Money), SeqSum(Session(h), Traded), h[|h| - 1].close)
  }

  /** The index of the latest closes is over 55. */
  ghost predicate StrongBars(h: seq<Bar>) {
    var rsi := Rsi(Latest(Closes(h), 260), 14);
    rsi.Some? && rsi.value > 55.0
  }

  lemma RatioIs(a: real, b: real, c: real)
    ensures Ratio(a, b).Some? && c > Ratio(a, b).value <==> Over(a, b, c)
  {
    if b > 0.0 {
      var q := a / b;
      Whole(a, b);
      if c > q { ScaleStrict(q, c, b); } else { Scale(c, q, b); }
    }
  }

  lemma SurgeIs(volumes: seq<real>, v: real)
    ensures var m, sum := Mean(volumes, 20), SeqSum(Latest(volumes, 20), Itself);
            m.Some? && m.value > 0.0 && v > m.value * 1.5 <==> |volumes| >= 20 && sum > 0.0 && 20.0 * v > 1.5 * sum
  {
    MeanIs(volumes, 20);
    hide Mean, SeqSum;
  }

  lemma AbsorbedVwap(leg: Leg, b: Bar)
    requires Buffered(leg)
    ensures var (l, vwap) := Absorb(leg, b); vwap == Ratio(l.cumTpVol, l.cumVol)
  {
    hide Push, Ratio, TypicalVolume;
  }

  lemma VolumesSurge(leg: Leg, h: seq<Bar>)
    requires Recalls(leg, h) && h != []
    ensures var m := Mean(leg.volumes, 20); m.Some? && m.value > 0.0 && h[|h| - 1].volume > m.value * 1.5 <==> Surges(h)
  {
    SurgeIs(leg.volumes, h[|h| - 1].volume);
    LatestOfLatest(Volumes(h), 260, 20);
    hide Session, Closes, Highs, Lows, Latest, SeqSum, Mean;
  }

  lemma ClosesAbove(leg: Leg, h: seq<Bar>)
    requires Recalls(leg, h) && h != []
    ensures var m := Ratio(leg.cumTpVol, leg.cumVol); m.Some? && h[|h| - 1].close > m.value <==> AboveSession(h)
  {
    RatioIs(leg.cumTpVol, leg.cumVol, h[|h| - 1].close);
    hide Session, Buffers, SeqSum, Ratio, Over;
  }

  /** The conditions of an entry, read off the bars. */
  lemma BuyIsByBars(leg: Leg, h: seq<Bar>, b: Bar, held: int)
    requires Buffered(leg) && LegInv(leg) && leg.position == 0 && Remembers(leg, h)
    ensures Step(leg, b, held).0.position > 0 <==> BuyBars(h + [b], held)
  {
    BoughtExactly(leg, b, held);
    AbsorbRecalls(leg, h, b);
    AbsorbedVwap(leg, b);
    var l := Absorb(leg, b).0;
    assert leg.prevHigh == if h == [] then None else Some(h[|h| - 1].high);
    hide Step, Absorb, Mean, Rsi, Ratio, LegInv, Buffered, Surges, AboveSession, Remembers;
    VolumesSurge(l, h + [b]);
    ClosesAbove(l, h + [b]);
    assert l.closes == Latest(Closes(h + [b]), 260);
    hide Recalls, Closes, Latest, Buffers, Totals;
  }

  /** How many shares: as many as 25000 buys. */
  lemma BoughtShares(leg: Leg, b: Bar, held: int)
    requires Buffered(leg) && LegInv(leg) && leg.position == 0
    ensures var z := Step(leg, b, held).0;
            z.position > 0 ==> b.close > 0.0 && z.position == (25000.0 / b.close).Floor && z.entryPrice == Some(b.close)
  {
    if b.close > 0.0 { RiskNeverBinds(b.close); }
    hide Mean, Rsi, SharesFor, Push, EntrySignal;
  }

  lemma RunStep(bars: seq<(Sym, Bar)>, s: Sym, b: Bar)
    requires s in SYMBOLS && b.stamped
    ensures LegOf(Run(bars + [(s, b)]), s) == Step(LegOf(Run(bars), s), b, HeldNow(bars)).0
  {
    hide Step, Buffered;
    assert (bars + [(s, b)])[..|bars|] == bars;
    assert OpenSet(Run(bars)) == set t | t in Run(bars) && Run(bars)[t].position > 0;
  }

  /** As many whole shares as 25000 buys. */
  ghost predicate Affordable(n: int, price: real) {
    n as real * price <= 25000.0 < (n + 1) as real * price
  }

  lemma Afford(price: real, n: int)
    requires price > 0.0 && n == (25000.0 / price).Floor
    ensures Affordable(n, price)
  {
    FloorIs(25000.0, price, n);
    assert n as real * price == Value(n, price) && (n + 1) as real * price == Value(n + 1, price);
  }

  /**
   After any run, a bar of a flat symbol buys if and only if the bars say
   so: the hours, fewer than two symbols held, a close over the previous
   bar's high and over the session's mean price, volume over one and a half
   times its twenty-bar mean, and an index over 55.  It then buys as many
   whole shares as 25000 buys, and remembers the close.
   */
  lemma BoughtByTheBars(bars: seq<(Sym, Bar)>, s: Sym, b: Bar)
    requires s in SYMBOLS && b.stamped && LegOf(Run(bars), s).position == 0
    ensures var z := LegOf(Run(bars + [(s, b)]), s);
            && (z.position > 0 <==> BuyBars(Taken(bars, s) + [b], HeldNow(bars)))
            && (z.position > 0 ==> z.entryPrice == Some(b.close) && Affordable(z.position, b.close))
  {
    hide Run, Step, BuyBars, Remembers, Taken, SignalInv, IsMax, ClosesSinceEntry, Signals, Affordable;
    SymbolLaws(bars, s);
    RunRemembers(bars, s);
    RunStep(bars, s, b);
    var leg := LegOf(Run(bars), s);
    BuyIsByBars(leg, Taken(bars, s), b, HeldNow(bars));
    BoughtShares(leg, b, HeldNow(bars));
    var z := LegOf(Run(bars + [(s, b)]), s);
    if z.position > 0 { Afford(b.close, z.position); }
  }

  // ----- Selling -----

  /** While held, the entry price is the first close since entry. */
  lemma {:induction false} EntryIsFirst(bars: seq<(Sym, Bar)>, s: Sym)
    ensures var leg, xs := LegOf(Run(bars), s), ClosesSinceEntry(bars, s);
            leg.position > 0 ==> xs != [] && leg.entryPrice == Some(xs[0])
    decreases |bars|
  {
    if bars != [] {
      var init := bars[..|bars| - 1];
      var (t, b) := bars[|bars| - 1];
      EntryIsFirst(init, s);
      SymbolLaws(init, s);
      var leg := LegOf(Run(init), s);
      hide Step, SignalInv, IsMax;
      if t != s {
        OthersUntouched(Run(init), t, b, s);
      } else if s in SYMBOLS && b.stamped {
        assert init + [(s, b)] == bars;
        RunStep(init, s, b);
        EntryStays(leg, b, HeldNow(init));
      }
    }
  }

  lemma EntryStays(leg: Leg, b: Bar, held: int)
    requires Buffered(leg) && LegInv(leg)
    ensures var z := Step(leg, b, held).0;
            z.position > 0 ==> leg.position >= 0 && z.entryPrice == if leg.position > 0 then leg.entryPrice else Some(b.close)
  {
    if leg.position > 0 { StopStep(leg, b, held); } else { BoughtShares(leg, b, held); }
    hide Step, EffectiveStop;
  }

  /** What the bars must show to sell, bought at `entry`, with `top` the highest close since and with the present one. */
  ghost predicate SellBars(h: seq<Bar>, entry: real, top: real)
    requires h != []
  {
    var b := h[|h| - 1];
    || b.clock >= 57300 || b.high >= 1.03 * entry || b.low <= 0.92 * entry
    || (|h| >= 20 && 20.0 * b.close < SeqSum(Latest(Closes(h), 20), Itself))
    || (top >= 1.02 * entry && (b.low <= 0.99 * top || b.close <= 0.99 * top))
  }

  lemma UnderMeanIs(closes: seq<real>, c: real)
    ensures var m := Mean(closes, 20);
            m.Some? && c < m.value <==> |closes| >= 20 && 20.0 * c < SeqSum(Latest(closes, 20), Itself)
  {
    MeanIs(closes, 20);
    hide Mean, SeqSum;
  }

  lemma SellIsByBars(leg: Leg, h: seq<Bar>, b: Bar, held: int)
    requires Buffered(leg) && LegInv(leg) && leg.position > 0 && Remembers(leg, h)
    ensures Step(leg, b, held).0.position == 0
       <==> SellBars(h + [b], leg.entryPrice.value, Max(leg.highClose.value, b.close))
  {
    SoldExactly(leg, b, held);
    ColumnsGrow(h, b);
    PushKeepsLatest(Closes(h), b.close);
    UnderMeanIs(Push(leg.closes, b.close), b.close);
    LatestOfLatest(Closes(h + [b]), 260, 20);
    hide Step, Session, Highs, Lows, Volumes, Latest, SeqSum, Mean, Push, Money, Traded, Buffered;
  }

  /**
   After any run, a bar of a held symbol sells if and only if the bars since
   its entry say so: the end of the session, the target 3% over entry, the
   stop 8% under it, a close under its twenty-bar mean, or, once the highest
   close reached 1.02 of entry, a low or close 1% under that highest close.
   */
  lemma SoldByTheBars(bars: seq<(Sym, Bar)>, s: Sym, b: Bar, top: real)
    requires s in SYMBOLS && b.stamped && LegOf(Run(bars), s).position > 0
    requires IsMax(top, ClosesSinceEntry(bars, s) + [b.close])
    ensures ClosesSinceEntry(bars, s) != []
    ensures LegOf(Run(bars + [(s, b)]), s).position == 0 <==> SellBars(Taken(bars, s) + [b], ClosesSinceEntry(bars, s)[0], top)
  {
    hide Run, Step, SellBars, Remembers, Taken, SignalInv, ClosesSinceEntry, Signals;
    SymbolLaws(bars, s);
    RunRemembers(bars, s);
    RunStep(bars, s, b);
    EntryIsFirst(bars, s);
    var leg, xs := LegOf(Run(bars), s), ClosesSinceEntry(bars, s);
    MaxGrows(leg.highClose.value, xs, b.close);
    OneMax(top, Max(leg.highClose.value, b.close), xs + [b.close]);
    SellIsByBars(leg, Taken(bars, s), b, HeldNow(bars));
  }

  lemma OneMax(m: real, n: real, xs: seq<real>)
    requires IsMax(m, xs) && IsMax(n, xs)
    ensures m == n
  {
  }
}
