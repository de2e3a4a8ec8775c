/**
 The intraday momentum strategy (strategy 002, long only): entries on a
 breakout between 9:35 and 14:00, exits by stop, mean, target, trailing stop
 or the 15:55 flatten.  The source's per-symbol dictionaries are one record
 per symbol here; times are New York seconds of the day.
 */
module Momentum {
  import opened Sums
  import opened Indicators

  type Sym = string

  datatype Bar = Bar(stamped: bool, date: int, clock: int, close: real, high: real, low: real, volume: real)

  datatype Leg = Leg(
    closes: seq<real>, highs: seq<real>, lows: seq<real>, volumes: seq<real>,
    position: int, entryPrice: Option<real>, highClose: Option<real>, armed: Option<bool>,
    prevHigh: Option<real>, session: Option<int>, cumTpVol: real, cumVol: real)

  datatype Signal = Buy(qty: int) | Sell(qty: int)

  const NewLeg := Leg([], [], [], [], 0, None, None, None, None, None, 0.0, 0.0)

  const SYMBOLS: set<Sym> := {"AVGO", "LLY", "TSM", "GEV"}
  const ENTRY_START: int := 34500
  const ENTRY_END: int := 50400
  const EOD_FLAT: int := 57300
  const MAX_POSITIONS: int := 2

  predicate Buffered(leg: Leg) {
    |leg.closes| <= BUFFER && |leg.highs| <= BUFFER && |leg.lows| <= BUFFER && |leg.volumes| <= BUFFER
  }

  type Legs = m: map<Sym, Leg> | forall s :: s in m ==> Buffered(m[s]) witness map[]

  function LegOf(legs: Legs, s: Sym): (leg: Leg)
    ensures Buffered(leg)
  {
    if s in legs then legs[s] else NewLeg
  }

  /** The stop in force: 8% below entry, or 1% below the highest close once the trail is armed. */
  function EffectiveStop(leg: Leg): real {
    if leg.entryPrice.None? then 0.0
    else
      var stop := leg.entryPrice.value * 0.92;
      if leg.armed == Some(true) && leg.highClose.Some? then Max(stop, leg.highClose.value * 0.99) else stop
  }

  /** The bar's typical price times its volume. */
  function TypicalVolume(bar: Bar): real {
    (bar.high + bar.low + bar.close) / 3.0 * bar.volume
  }

  function Ratio(a: real, b: real): Option<real> {
    if b <= 0.0 then None else Some(a / b)
  }

  /** Buffers, session totals and the bar's session VWAP. */
  function Absorb(leg: Leg, bar: Bar): (r: (Leg, Option<real>))
    requires Buffered(leg)
    ensures Buffered(r.0)
  {
    var l1 := if leg.session == Some(bar.date) then leg else leg.(session := Some(bar.date), cumTpVol := 0.0, cumVol := 0.0);
    var l2 := l1.(closes := Push(l1.closes, bar.close), highs := Push(l1.highs, bar.high),
                  lows := Push(l1.lows, bar.low), volumes := Push(l1.volumes, bar.volume));
    var l3 := if bar.volume > 0.0 then l2.(cumVol := l2.cumVol + bar.volume, cumTpVol := l2.cumTpVol + TypicalVolume(bar)) else l2;
    (l3, Ratio(l3.cumTpVol, l3.cumVol))
  }

  lemma BufferedExits(leg: Leg, bar: Bar, vwap: Option<real>, openCount: int)
    requires Buffered(leg)
    ensures Buffered(ExitChecks(leg, bar).0) && Buffered(EntryChecks(leg, bar, vwap, openCount).0)
  {
    hide Mean, EntrySignal, SharesFor;
  }

  function Flatten(leg: Leg, bar: Bar): (Leg, Option<Signal>) {
    (leg.(position := 0, entryPrice := None, highClose := None, armed := None, prevHigh := Some(bar.high)), Some(Sell(leg.position)))
  }

  /** What stays of a held leg whose exits are all behind it: its trail armed once the high calls for it, unless the trail sells it. */
  function TrailChecks(leg: Leg, bar: Bar, entry: real, hc: real): (Leg, Option<Signal>) {
    var l2 := if hc >= entry * 1.02 then leg.(armed := Some(true)) else leg;
    if l2.armed != Some(true) then (l2.(prevHigh := Some(bar.high)), None)
    else
      var eff := Max(entry * (1.0 - 0.08), hc * (1.0 - 0.01));
      if bar.close <= eff || bar.low <= eff then Flatten(l2, bar) else (l2.(prevHigh := Some(bar.high)), None)
  }

  /** A held leg after its exit checks, in their order: flattened by the session's end, the stop, the mean, the target or the trail, or held on. */
  function ExitChecks(leg: Leg, bar: Bar): (Leg, Option<Signal>) {
    if bar.clock >= EOD_FLAT then Flatten(leg, bar)
    else
      var entry := if leg.entryPrice.Some? then leg.entryPrice.value else bar.close;
      var hc := Max(if leg.highClose.Some? then leg.highClose.value else bar.close, bar.close);
      var l1 := leg.(highClose := Some(hc));
      var sma20 := Mean(l1.closes, 20);
      if bar.low <= entry * (1.0 - 0.08) then Flatten(l1, bar)
      else if sma20.Some? && bar.close < sma20.value then Flatten(l1, bar)
      else if bar.high >= entry * 1.03 then Flatten(l1, bar)
      else TrailChecks(l1, bar, entry, hc)
  }

  predicate EntrySignal(leg: Leg, bar: Bar, vwap: Option<real>, prevHigh: Option<real>, openCount: int) {
    var vol20, rsi := Mean(leg.volumes, 20), Rsi(leg.closes, 14);
    && vol20.Some? && vol20.value > 0.0 && vwap.Some? && rsi.Some? && prevHigh.Some?
    && ENTRY_START <= bar.clock <= ENTRY_END && openCount < MAX_POSITIONS
    && bar.close > prevHigh.value && bar.volume > vol20.value * 1.5 && bar.close > vwap.value && rsi.value > 55.0
  }

  /** 500 dollars of risk at 1.5% a share, capped at 25000 dollars of notional, in whole shares. */
  function SharesFor(close: real): int
    requires close > 0.0
  {
    var byRisk, byNotional := (500.0 / (close * 0.015)).Floor, (25000.0 / close).Floor;
    if byNotional < byRisk then byNotional else byRisk
  }

  /** A flat leg after its entry checks: still flat, or opened at the close. */
  function EntryChecks(leg: Leg, bar: Bar, vwap: Option<real>, openCount: int): (Leg, Option<Signal>) {
    var l2 := leg.(prevHigh := Some(bar.high));
    if !EntrySignal(leg, bar, vwap, leg.prevHigh, openCount) || bar.close * 0.015 <= 0.0 then (l2, None)
    else
      var shares := SharesFor(bar.close);
      if shares < 1 then (l2, None)
      else (l2.(position := shares, entryPrice := Some(bar.close), highClose := Some(bar.close), armed := Some(false)), Some(Buy(shares)))
  }

  /** `openCount` counts open positions over all symbols, before this bar. */
  function Step(leg: Leg, bar: Bar, openCount: int): (r: (Leg, Option<Signal>))
    requires Buffered(leg)
    ensures Buffered(r.0)
  {
    var (l1, vwap) := Absorb(leg, bar);
    BufferedExits(l1, bar, vwap, openCount);
    if l1.position > 0 then ExitChecks(l1, bar)
    else EntryChecks(l1, bar, vwap, openCount)
  }

  function OpenSet(legs: Legs): set<Sym> {
    set s | s in legs && legs[s].position > 0
  }

  function OnBar(legs: Legs, s: Sym, bar: Bar): (Legs, Option<Signal>) {
    if s !in SYMBOLS || !bar.stamped then (legs, None)
    else
      var (leg, signal) := Step(LegOf(legs, s), bar, |OpenSet(legs)|);
      (legs[s := leg], signal)
  }

  lemma CountOne(legs: Legs, left: set<Sym>, s: Sym)
    requires s in left && left <= legs.Keys
    ensures |OpenSet(legs) - (left - {s})| == |OpenSet(legs) - left| + if legs[s].position > 0 then 1 else 0
  {
    hide Buffered;
    if legs[s].position > 0 {
      assert OpenSet(legs) - (left - {s}) == (OpenSet(legs) - left) + {s};
    } else {
      assert OpenSet(legs) - (left - {s}) == OpenSet(legs) - left;
    }
  }

  class EquityMomentumStrategy {
    var legs: Legs

    constructor ()
      ensures legs == map[]
    {
      legs := map[];
    }

    method OpenPositionCount() returns (n: int)
      ensures n == |OpenSet(legs)|
    {
      hide Buffered;
      n := 0;
      var left := legs.Keys;
      while left != {}
        invariant left <= legs.Keys && n == |OpenSet(legs) - left|
        decreases |left|
      {
        var s :| s in left;
        CountOne(legs, left, s);
        left := left - {s};
        if legs[s].position > 0 {
          n := n + 1;
        }
      }
      assert OpenSet(legs) - left == OpenSet(legs);
    }

    method HandleBar(s: Sym, bar: Bar) returns (signal: Option<Signal>)
      modifies this
      ensures (legs, signal) == OnBar(old(legs), s, bar)
    {
      hide Mean, Rsi, Absorb, ExitChecks, EntryChecks;
      hide Buffered;
      if s !in SYMBOLS { return None; }
      if !bar.stamped { return None; }
      var leg0 := LegOf(legs, s);
      var leg, vwap := AbsorbBar(leg0, bar);
      var vol20 := Mean(leg.volumes, 20);
      var rsi := WilderRsi(leg.closes, 14);
      ghost var n := |OpenSet(legs)|;
      BufferedExits(leg, bar, vwap, n);
      var pos := leg.position;
      if pos > 0 {
        leg, signal := CheckExits(leg, bar);
        legs := legs[s := leg];
        return;
      }
      var count := OpenPositionCount();
      leg, signal := CheckEntry(leg, bar, vwap, vol20, rsi, count);
      legs := legs[s := leg];
    }

    method CheckEntry(leg0: Leg, bar: Bar, vwap: Option<real>, vol20: Option<real>, rsi: Option<real>, count: int)
      returns (leg: Leg, signal: Option<Signal>)
      requires vol20 == Mean(leg0.volumes, 20) && rsi == Rsi(leg0.closes, 14)
      ensures (leg, signal) == EntryChecks(leg0, bar, vwap, count)
    {
      hide Mean, Rsi, SharesFor;
      var prevHigh := leg0.prevHigh;
      leg := leg0.(prevHigh := Some(bar.high));
      signal := None;
      if vol20.None? || vol20.value <= 0.0 || vwap.None? || rsi.None? || prevHigh.None? { return; }
      if !(ENTRY_START <= bar.clock <= ENTRY_END) { return; }
      if count >= MAX_POSITIONS { return; }
      var surge, breakout := bar.volume > vol20.value * 1.5, bar.close > prevHigh.value;
      var trend, mom := bar.close > vwap.value, rsi.value > 55.0;
      if breakout && surge && trend && mom {
        var riskPx := bar.close * 0.015;
        if riskPx <= 0.0 { return; }
        var shares := SharesFor(bar.close);
        if shares < 1 { return; }
        leg := leg.(position := shares, entryPrice := Some(bar.close), highClose := Some(bar.close), armed := Some(false));
        signal := Some(Buy(shares));
      }
    }

    method AbsorbBar(leg0: Leg, bar: Bar) returns (leg: Leg, vwap: Option<real>)
      requires Buffered(leg0)
      ensures (leg, vwap) == Absorb(leg0, bar)
    {
      hide Push, TypicalVolume, Ratio;
      leg := leg0;
      if leg.session != Some(bar.date) {
        leg := leg.(session := Some(bar.date), cumTpVol := 0.0, cumVol := 0.0);
      }
      leg := leg.(closes := Push(leg.closes, bar.close), highs := Push(leg.highs, bar.high));
      leg := leg.(lows := Push(leg.lows, bar.low), volumes := Push(leg.volumes, bar.volume));
      if bar.volume > 0.0 {
        leg := leg.(cumVol := leg.cumVol + bar.volume, cumTpVol := leg.cumTpVol + TypicalVolume(bar));
      }
      vwap := Ratio(leg.cumTpVol, leg.cumVol);
    }

    method ClearLeg(leg0: Leg, bar: Bar) returns (leg: Leg)
      ensures leg == leg0.(position := 0, entryPrice := None, highClose := None, armed := None, prevHigh := Some(bar.high))
    {
      leg := leg0.(position := 0);
      leg := leg.(entryPrice := None, highClose := None, armed := None);
      leg := leg.(prevHigh := Some(bar.high));
    }

    method CheckExits(leg0: Leg, bar: Bar) returns (leg: Leg, signal: Option<Signal>)
      ensures (leg, signal) == ExitChecks(leg0, bar)
    {
      hide Mean;
      leg, signal := leg0, None;
      var q := leg.position;
      var entry := if leg.entryPrice.Some? then leg.entryPrice.value else bar.close;
      if bar.clock >= EOD_FLAT {
        leg := ClearLeg(leg, bar);
        return leg, Some(Sell(q));
      }
      var stopPx, tgtPx := entry * (1.0 - 0.08), entry * 1.03;
      var hc := Max(if leg.highClose.Some? then leg.highClose.value else bar.close, bar.close);
      leg := leg.(highClose := Some(hc));
      if bar.low <= stopPx {
        leg := ClearLeg(leg, bar);
        return leg, Some(Sell(q));
      }
      var sma20 := Mean(leg.closes, 20);
      if sma20.Some? && bar.close < sma20.value {
        leg := ClearLeg(leg, bar);
        return leg, Some(Sell(q));
      }
      if bar.high >= tgtPx {
        leg := ClearLeg(leg, bar);
        return leg, Some(Sell(q));
      }
      if hc >= entry * 1.02 {
        leg := leg.(armed := Some(true));
      }
      if leg.armed == Some(true) {
        var trail := hc * (1.0 - 0.01);
        var effStop := Max(stopPx, trail);
        if bar.close <= effStop || bar.low <= effStop {
          leg := ClearLeg(leg, bar);
          return leg, Some(Sell(q));
        }
      }
      leg := leg.(prevHigh := Some(bar.high));
    }
  }

  // ----- One bar -----

  /** A flat leg remembers no entry; a held one knows its entry, its highest close, and arms its trail exactly at 1.02. */
  ghost predicate Held(leg: Leg) {
    && leg.entryPrice.Some? && leg.highClose.Some? && leg.armed.Some?
    && leg.entryPrice.value > 0.0 && leg.highClose.value >= leg.entryPrice.value
    && (leg.armed.value <==> leg.highClose.value >= leg.entryPrice.value * 1.02)
  }

  ghost predicate LegInv(leg: Leg) {
    && leg.position >= 0
    && (leg.position == 0 ==> leg.entryPrice.None? && leg.highClose.None? && leg.armed.None?)
    && (leg.position > 0 ==> Held(leg))
  }

  lemma StepKeeps(leg: Leg, bar: Bar, openCount: int)
    requires Buffered(leg) && LegInv(leg)
    ensures var (z, signal) := Step(leg, bar, openCount);
            && LegInv(z)
            && (signal.None? ==> z.position == leg.position)
            && (signal.Some? && signal.value.Buy? ==> leg.position == 0 && z.position == signal.value.qty > 0)
            && (signal.Some? && signal.value.Sell? ==> leg.position == signal.value.qty > 0 && z.position == 0)
  {
    hide Mean, EntrySignal, SharesFor, Push;
  }

  /** While held, the effective stop never falls, and a bar that leaves the leg open stayed above it. */
  lemma StopStep(leg: Leg, bar: Bar, openCount: int)
    requires Buffered(leg) && LegInv(leg) && leg.position > 0
    ensures var z := Step(leg, bar, openCount).0;
            z.position > 0 ==>
              (EffectiveStop(z) >= EffectiveStop(leg) && bar.low > EffectiveStop(z)
               && z.entryPrice == leg.entryPrice && z.highClose == Some(Max(leg.highClose.value, bar.close)))
  {
    hide Mean, EntrySignal, SharesFor, Push;
  }

  /**
   A held leg is sold exactly when the session is at its end, the target is
   met, the close is below its 20-bar mean, or the bar touches the effective
   stop: 8% below entry, raised to 1% below the highest close once that
   reached 1.02 of entry.
   */
  lemma SoldExactly(leg: Leg, bar: Bar, openCount: int)
    requires Buffered(leg) && LegInv(leg) && leg.position > 0
    ensures var entry, hc := leg.entryPrice.value, Max(leg.highClose.value, bar.close);
            var armed := hc >= entry * 1.02;
            var stop := if armed then Max(entry * 0.92, hc * 0.99) else entry * 0.92;
            var sma20 := Mean(Push(leg.closes, bar.close), 20);
            Step(leg, bar, openCount).0.position == 0 <==>
              (bar.clock >= EOD_FLAT || bar.high >= entry * 1.03 || (sma20.Some? && bar.close < sma20.value)
               || bar.low <= stop || (armed && bar.close <= stop))
  {
    hide Mean, EntrySignal, SharesFor, Push;
  }

  /** An entry risks at most 500 dollars and commits at most 25000. */
  lemma SizeIsCapped(close: real)
    requires close > 0.0
    ensures SharesFor(close) >= 0
    ensures SharesFor(close) as real * (close * 0.015) <= 500.0 && SharesFor(close) as real * close <= 25000.0
  {
    FloorTimes(500.0, close * 0.015);
    FloorTimes(25000.0, close);
    var n := SharesFor(close) as real;
    Scale(n, (500.0 / (close * 0.015)).Floor as real, close * 0.015);
    Scale(n, (25000.0 / close).Floor as real, close);
  }

  /** The notional cap always binds: sizing by risk never gives fewer shares, and an entry is possible exactly up to a close of 25000. */
  lemma RiskNeverBinds(close: real)
    requires close > 0.0
    ensures SharesFor(close) == (25000.0 / close).Floor
    ensures SharesFor(close) >= 1 <==> close <= 25000.0
  {
    var n, r := 25000.0 / close, 500.0 / (close * 0.015);
    assert n * close == 25000.0 && r * (close * 0.015) == 500.0;
    assert r >= n by {
      if r < n { Scale(r, n, close); }
    }
    assert n >= 1.0 <==> close <= 25000.0 by {
      if n >= 1.0 { Scale(1.0, n, close); } else { ScaleStrict(n, 1.0, close); }
    }
  }

  /** A flat leg is bought exactly in the entry hours with room for it, on a breakout with surging volume above the session's mean price and a strong index, at a close that buys a share. */
  lemma BoughtExactly(leg: Leg, bar: Bar, openCount: int)
    requires Buffered(leg) && LegInv(leg) && leg.position == 0
    ensures var (l, vwap) := Absorb(leg, bar);
            var vol20, rsi := Mean(l.volumes, 20), Rsi(l.closes, 14);
            Step(leg, bar, openCount).0.position > 0 <==>
              (34500 <= bar.clock <= 50400 && openCount < 2 && 0.0 < bar.close <= 25000.0
               && leg.prevHigh.Some? && bar.close > leg.prevHigh.value
               && vol20.Some? && vol20.value > 0.0 && bar.volume > vol20.value * 1.5
               && vwap.Some? && bar.close > vwap.value && rsi.Some? && rsi.value > 55.0)
  {
    hide Mean, Rsi, SharesFor, Push, Ratio, TypicalVolume, Buffered;
    if bar.close > 0.0 { RiskNeverBinds(bar.close); }
  }

  lemma FloorTimes(a: real, p: real)
    requires a >= 0.0 && p > 0.0
    ensures (a / p).Floor >= 0 && (a / p).Floor as real * p <= a
  {
    var q := a / p;
    assert q * p == a;
    assert q >= 0.0;
    Scale(q.Floor as real, q, p);
  }

  // ----- Runs -----

  function Run(bars: seq<(Sym, Bar)>): Legs {
    if bars == [] then map[] else OnBar(Run(bars[..|bars| - 1]), bars[|bars| - 1].0, bars[|bars| - 1].1).0
  }

  /** The signals a symbol has given. */
  function Signals(bars: seq<(Sym, Bar)>, s: Sym): seq<Signal> {
    if bars == [] then []
    else
      var (t, bar) := bars[|bars| - 1];
      var signal := OnBar(Run(bars[..|bars| - 1]), t, bar).1;
      Signals(bars[..|bars| - 1], s) + if t == s && signal.Some? then [signal.value] else []
  }

  /** The closes of a symbol since, and with, the bar that opened its position; none while flat. */
  function ClosesSinceEntry(bars: seq<(Sym, Bar)>, s: Sym): seq<real> {
    if bars == [] then []
    else
      var (t, bar) := bars[|bars| - 1];
      var before := ClosesSinceEntry(bars[..|bars| - 1], s);
      if t != s || s !in SYMBOLS || !bar.stamped then before
      else if LegOf(Run(bars), s).position > 0 then before + [bar.close]
      else []
  }

  ghost predicate IsMax(m: real, xs: seq<real>) {
    m in xs && forall x :: x in xs ==> x <= m
  }

  /** Buys and sells take turns, starting with a buy, and each sell is for what was bought. */
  ghost predicate Alternate(signals: seq<Signal>) {
    forall i :: 0 <= i < |signals| ==> TurnAt(signals, i)
  }

  ghost predicate TurnAt(signals: seq<Signal>, i: nat)
    requires i < |signals|
  {
    if i % 2 == 0 then signals[i].Buy? && signals[i].qty > 0
    else signals[i].Sell? && signals[i].qty == signals[i - 1].qty
  }

  function Net(signals: seq<Signal>): int {
    if signals == [] then 0
    else
      var l := signals[|signals| - 1];
      Net(signals[..|signals| - 1]) + if l.Buy? then l.qty else -l.qty
  }

  ghost predicate SymInv(bars: seq<(Sym, Bar)>, s: Sym) {
    var leg, signals := LegOf(Run(bars), s), Signals(bars, s);
    && LegInv(leg) && SignalInv(signals, leg.position)
    && (leg.position > 0 ==> IsMax(leg.highClose.value, ClosesSinceEntry(bars, s)))
    && (leg.position == 0 ==> ClosesSinceEntry(bars, s) == [])
  }

  lemma OthersUntouched(legs: Legs, t: Sym, bar: Bar, s: Sym)
    requires s != t
    ensures LegOf(OnBar(legs, t, bar).0, s) == LegOf(legs, s)
  {
    hide Step;
  }

  /**
   Per symbol, over any interleaving of bars: signals alternate with equal
   quantities and net to the position; while held, the stored high is the
   highest close since entry, and the trail is armed exactly when that high
   reached 1.02 of entry.
   */
  lemma {:induction false} SymbolLaws(bars: seq<(Sym, Bar)>, s: Sym)
    ensures SymInv(bars, s)
    decreases |bars|
  {
    if bars != [] {
      var init := bars[..|bars| - 1];
      SymbolLaws(init, s);
      var (t, bar) := bars[|bars| - 1];
      var legs := Run(init);
      if t == s && s in SYMBOLS && bar.stamped {
        StepLaws(init, bars, s, bar);
      } else {
        IdleLaws(init, bars, t, s, bar);
      }
    }
  }

  /** A bar of another symbol, or one the strategy does not take, changes nothing for `s`. */
  lemma IdleLaws(init: seq<(Sym, Bar)>, bars: seq<(Sym, Bar)>, t: Sym, s: Sym, bar: Bar)
    requires SymInv(init, s) && (t != s || s !in SYMBOLS || !bar.stamped)
    requires bars != [] && bars[..|bars| - 1] == init && bars[|bars| - 1] == (t, bar)
    ensures SymInv(bars, s)
  {
    hide LegInv, Alternate, Net, IsMax, Step, Buffered;
    assert Run(bars) == OnBar(Run(init), t, bar).0;
    if t != s { OthersUntouched(Run(init), t, bar, s); }
    assert Signals(bars, s) == Signals(init, s) + [] == Signals(init, s);
    assert ClosesSinceEntry(bars, s) == ClosesSinceEntry(init, s);
    assert LegOf(Run(bars), s) == LegOf(Run(init), s);
  }

  /** What one bar of `s` does to its leg, as the signals and closes so far see it. */
  ghost predicate Moves(leg: Leg, bar: Bar, z: Leg, signal: Option<Signal>) {
    && LegInv(z)
    && (signal.None? ==> z.position == leg.position)
    && (signal.Some? && signal.value.Buy? ==> leg.position == 0 && z.position == signal.value.qty > 0)
    && (signal.Some? && signal.value.Sell? ==> leg.position == signal.value.qty > 0 && z.position == 0)
    && (z.position > 0 && leg.position == 0 ==> z.highClose == Some(bar.close))
    && (z.position > 0 && leg.position > 0 ==> leg.highClose.Some? && z.highClose == Some(Max(leg.highClose.value, bar.close)))
  }

  lemma StepMoves(leg: Leg, bar: Bar, openCount: int)
    requires Buffered(leg) && LegInv(leg)
    ensures Moves(leg, bar, Step(leg, bar, openCount).0, Step(leg, bar, openCount).1)
  {
    StepKeeps(leg, bar, openCount);
    if leg.position > 0 {
      StopStep(leg, bar, openCount);
    } else {
      EntryHigh(leg, bar, openCount);
    }
    hide Step, EffectiveStop;
  }

  lemma StepLaws(init: seq<(Sym, Bar)>, bars: seq<(Sym, Bar)>, s: Sym, bar: Bar)
    requires SymInv(init, s) && s in SYMBOLS && bar.stamped
    requires bars != [] && bars[..|bars| - 1] == init && bars[|bars| - 1] == (s, bar)
    ensures SymInv(bars, s)
  {
    hide Step, LegInv, Alternate, Net, IsMax, OpenSet, Max;
    var legs := Run(init);
    var leg := LegOf(legs, s);
    var n := |OpenSet(legs)|;
    StepMoves(leg, bar, n);
    var (z, signal) := Step(leg, bar, n);
    assert LegOf(Run(bars), s) == z;
    var before := Signals(init, s);
    assert Signals(bars, s) == before + if signal.Some? then [signal.value] else [];
    Settled(leg);
    SignalsExtend(before, leg, bar, z, signal);
    var xs := ClosesSinceEntry(init, s);
    assert ClosesSinceEntry(bars, s) == if z.position > 0 then xs + [bar.close] else [];
    Settled(z);
    if z.position > 0 {
      assert z.highClose == Some(if xs == [] then bar.close else Max(leg.highClose.value, bar.close)) by {
        if leg.position > 0 { MaxOfSome(leg.highClose.value, xs); }
      }
      MaxGrows(if leg.position > 0 then leg.highClose.value else bar.close, xs, bar.close);
    }
  }

  lemma Settled(leg: Leg)
    requires LegInv(leg)
    ensures leg.position >= 0 && (leg.position > 0 ==> leg.highClose.Some?)
  {
  }

  ghost predicate SignalInv(signals: seq<Signal>, position: int) {
    && Alternate(signals) && Net(signals) == position
    && (position > 0 <==> |signals| % 2 == 1)
    && (position > 0 ==> signals[|signals| - 1].qty == position)
  }

  lemma SignalsExtend(before: seq<Signal>, leg: Leg, bar: Bar, z: Leg, signal: Option<Signal>)
    requires SignalInv(before, leg.position) && Moves(leg, bar, z, signal) && leg.position >= 0
    ensures SignalInv(before + if signal.Some? then [signal.value] else [], z.position)
  {
    hide LegInv;
    if signal.Some? {
      var after := before + [signal.value];
      assert after[..|before|] == before;
      assert Net(after) == Net(before) + if signal.value.Buy? then signal.value.qty else -signal.value.qty;
      AlternateExtends(before, signal.value, leg.position);
    } else {
      assert before + [] == before;
    }
  }

  lemma AlternateExtends(before: seq<Signal>, l: Signal, position: int)
    requires SignalInv(before, position) && position >= 0
    requires if l.Buy? then position == 0 && l.qty > 0 else l.qty == position > 0
    ensures Alternate(before + [l])
  {
    var after, n := before + [l], |before|;
    forall i | 0 <= i < n
      ensures TurnAt(after, i)
    {
      assert TurnAt(before, i);
    }
    assert TurnAt(after, n) by {
      if n % 2 == 1 { assert after[n - 1] == before[n - 1]; }
    }
  }

  lemma EntryHigh(leg: Leg, bar: Bar, openCount: int)
    requires Buffered(leg) && LegInv(leg) && leg.position == 0
    ensures var z := Step(leg, bar, openCount).0; z.position > 0 ==> z.highClose == Some(bar.close)
  {
    hide Mean, EntrySignal, SharesFor, Push;
  }

  lemma MaxOfSome(m: real, xs: seq<real>)
    requires IsMax(m, xs)
    ensures xs != []
  {
  }

  lemma MaxGrows(m: real, xs: seq<real>, x: real)
    requires xs == [] || IsMax(m, xs)
    ensures IsMax(if xs == [] then x else Max(m, x), xs + [x])
  {
    assert (xs + [x])[|xs|] == x;
    if xs != [] {
      var i :| 0 <= i < |xs| && xs[i] == m;
      assert (xs + [x])[i] == m;
    }
  }

  /** In any run, any stamped bar at or after 15:55 leaves its symbol flat. */
  lemma FlatAfterClose(bars: seq<(Sym, Bar)>)
    requires bars != [] && bars[|bars| - 1].0 in SYMBOLS && bars[|bars| - 1].1.stamped && bars[|bars| - 1].1.clock >= EOD_FLAT
    ensures LegOf(Run(bars), bars[|bars| - 1].0).position == 0
  {
    hide Step, LegInv;
    var init := bars[..|bars| - 1];
    var (s, bar) := bars[|bars| - 1];
    SymbolLaws(init, s);
    var leg := LegOf(Run(init), s);
    FlatStep(leg, bar, |OpenSet(Run(init))|);
  }

  lemma FlatStep(leg: Leg, bar: Bar, openCount: int)
    requires Buffered(leg) && LegInv(leg) && bar.clock >= EOD_FLAT
    ensures Step(leg, bar, openCount).0.position == 0
  {
    hide Mean, Rsi, SharesFor, Push;
  }

  /** In any run, while a symbol stays held its effective stop never falls. */
  lemma StopNeverFalls(bars: seq<(Sym, Bar)>, s: Sym)
    requires bars != []
    ensures var x, z := LegOf(Run(bars[..|bars| - 1]), s), LegOf(Run(bars), s);
            x.position > 0 && z.position > 0 ==> EffectiveStop(z) >= EffectiveStop(x)
  {
    hide Step, EffectiveStop, LegInv;
    var init := bars[..|bars| - 1];
    var (t, bar) := bars[|bars| - 1];
    SymbolLaws(init, s);
    var leg := LegOf(Run(init), s);
    if t != s {
      OthersUntouched(Run(init), t, bar, s);
    } else if leg.position > 0 {
      StopStep(leg, bar, |OpenSet(Run(init))|);
    }
  }

  /** At most two symbols are ever held. */
  lemma {:induction false} AtMostTwo(bars: seq<(Sym, Bar)>)
    ensures |OpenSet(Run(bars))| <= 2
    decreases |bars|
  {
    if bars != [] {
      var init := bars[..|bars| - 1];
      AtMostTwo(init);
      var (s, bar) := bars[|bars| - 1];
      SymbolLaws(init, s);
      var legs := Run(init);
      hide Run;
      AtMostTwoStep(legs, s, bar);
    }
  }

  lemma AtMostTwoStep(legs: Legs, s: Sym, bar: Bar)
    requires |OpenSet(legs)| <= 2 && LegInv(LegOf(legs, s))
    ensures |OpenSet(OnBar(legs, s, bar).0)| <= 2
  {
    hide Step, LegInv;
    if s in SYMBOLS && bar.stamped {
      var leg, n := LegOf(legs, s), |OpenSet(legs)|;
      var z := Step(leg, bar, n).0;
      Settled(leg);
      if leg.position == 0 { BuysWithRoom(leg, bar, n); }
      OpenSetAfter(legs, s, z);
    }
  }

  lemma OpenSetAfter(legs: Legs, s: Sym, z: Leg)
    requires |OpenSet(legs)| <= 2 && Buffered(z)
    requires z.position > 0 && LegOf(legs, s).position <= 0 ==> |OpenSet(legs)| < 2
    ensures |OpenSet(legs[s := z])| <= 2
  {
    hide Buffered;
    var after := OpenSet(legs[s := z]);
    if z.position > 0 && LegOf(legs, s).position <= 0 {
      assert after == OpenSet(legs) + {s};
    } else {
      assert after <= OpenSet(legs);
      Smaller(after, OpenSet(legs));
    }
  }

  lemma BuysWithRoom(leg: Leg, bar: Bar, openCount: int)
    requires Buffered(leg) && LegInv(leg) && leg.position == 0
    ensures Step(leg, bar, openCount).0.position > 0 ==> openCount < 2
  {
    hide Mean, Rsi, SharesFor, Push;
  }
}
