/**
 The equity swing strategy (strategy 004): pullback entries on daily bars,
 ATR exits, and one good-till-cancelled protective stop at the broker for
 every position it opened.  The source's per-symbol dictionaries are one
 record per symbol here; a position is a signed number of shares.
 */
module Swing {
  import opened Sums
  import opened Indicators

  type Sym = string

  datatype Bar = Bar(day: Option<int>, close: real, high: real, low: real, volume: real)

  datatype Past = Past(high: real, low: real, close: real)

  datatype Leg = Leg(
    closes: seq<real>, highs: seq<real>, lows: seq<real>, volumes: seq<real>, history: seq<Past>,
    position: int, entryPrice: Option<real>, entryDay: Option<int>, entryAtr: Option<real>)

  datatype Action = Buy | Sell | SellShort | BuyToCover

  datatype Bracket = Bracket(stop: real, target: real)

  datatype Outcome = Quiet | Raised | Trade(action: Action, qty: int, bracket: Option<Bracket>)

  const NewLeg := Leg([], [], [], [], [], 0, None, None, None)

  const SYMBOLS: seq<Sym> := [
    "NVDA", "ARM", "AVGO", "AMD", "SMCI", "GEV", "LLY", "MU", "TSM",
    "ORCL", "CRM", "ADBE", "NOW", "PANW", "CRWD", "SNOW", "DDOG", "HUBS"]

  predicate Listed(s: Sym) {
    s in SYMBOLS
  }

  const VIX_MIN: real := 15.0
  const VIX_MAX: real := 30.0
  const MAX_HOLD_DAYS: int := 20
  const MAX_POSITIONS: int := 2
  const NOTIONAL_CAP: real := 30000.0
  const ATR_PERIOD: nat := 14

  predicate Buffered(leg: Leg) {
    |leg.closes| == |leg.highs| == |leg.lows| == |leg.volumes| == |leg.history| <= BUFFER
  }

  type Legs = m: map<Sym, Leg> | forall s :: s in m ==> Buffered(m[s]) witness map[]

  function LegOf(legs: Legs, s: Sym): (leg: Leg)
    ensures Buffered(leg)
  {
    if s in legs then legs[s] else NewLeg
  }

  // ----- Prices -----

  function TrueRange(before: Past, now: Past): (r: real)
    ensures r >= 0.0 && r >= now.high - now.low
  {
    Max(Max(now.high - now.low, Abs(now.high - before.close)), Abs(now.low - before.close))
  }

  function Ranges(history: seq<Past>): (r: seq<real>)
    requires history != []
    ensures |r| == |history| - 1
  {
    seq(|history| - 1, i requires 0 <= i < |history| - 1 => TrueRange(history[i], history[i + 1]))
  }

  /** The mean of the last fourteen true ranges, zero before there are that many. */
  function Atr(history: seq<Past>): real {
    if |history| < ATR_PERIOD + 1 then 0.0
    else
      var ranges := Ranges(history);
      Total(ranges[|ranges| - ATR_PERIOD..]) / ATR_PERIOD as real
  }

  lemma {:induction false} TotalNotNegative(xs: seq<real>)
    requires forall i :: 0 <= i < |xs| ==> xs[i] >= 0.0
    ensures Total(xs) >= 0.0
    decreases |xs|
  {
    if xs != [] { TotalNotNegative(xs[..|xs| - 1]); }
  }

  lemma AtrNotNegative(history: seq<Past>)
    ensures Atr(history) >= 0.0
  {
    if |history| >= ATR_PERIOD + 1 {
      var ranges := Ranges(history);
      TotalNotNegative(ranges[|ranges| - ATR_PERIOD..]);
      NonNegativeQuotient(Total(ranges[|ranges| - ATR_PERIOD..]), ATR_PERIOD as real);
    }
  }

  /** Rounding to the nearest integer, ties to the even one. */
  function RoundHalfEven(x: real): int {
    var f := x.Floor;
    var d := x - f as real;
    if d < 0.5 || (d == 0.5 && f % 2 == 0) then f else f + 1
  }

  /** An integer is the rounding exactly when it is within one half, and even if two are. */
  lemma NearestInteger(x: real, n: int)
    ensures RoundHalfEven(x) == n <==>
      (x - 0.5 <= n as real <= x + 0.5 && (n as real == x - 0.5 || n as real == x + 0.5 ==> n % 2 == 0))
  {
  }

  function Stop(long: bool, entry: real, atr: real): real {
    if long then (if atr > 0.0 then entry - 2.0 * atr else entry * 0.96)
    else (if atr > 0.0 then entry + 2.0 * atr else entry * (2.0 - 0.96))
  }

  function Target(long: bool, entry: real, atr: real): real {
    if long then (if atr > 0.0 then entry + 4.0 * atr else entry * 1.08)
    else (if atr > 0.0 then entry - 4.0 * atr else entry * (2.0 - 1.08))
  }

  function Shares(close: real): int
    requires close != 0.0
  {
    RoundHalfEven(NOTIONAL_CAP / close)
  }

  // ----- One bar of one symbol -----

  function Absorb(leg: Leg, bar: Bar): (r: Leg)
    requires Buffered(leg)
    ensures Buffered(r)
  {
    leg.(closes := Push(leg.closes, bar.close), highs := Push(leg.highs, bar.high), lows := Push(leg.lows, bar.low),
         volumes := Push(leg.volumes, bar.volume), history := Push(leg.history, Past(bar.high, bar.low, bar.close)))
  }

  predicate Usable(leg: Leg) {
    var v20 := Mean(leg.volumes, 20);
    Mean(leg.closes, 10).Some? && Mean(leg.closes, 50).Some? && v20.Some? && v20.value > 0.0
  }

  function AtrOf(leg: Leg): real {
    if leg.entryAtr.Some? then leg.entryAtr.value else 0.0
  }

  predicate ExitDue(leg: Leg, bar: Bar, day: int) {
    var entry := if leg.entryPrice.Some? then leg.entryPrice.value else bar.close;
    var held := if leg.entryDay.Some? then day - leg.entryDay.value else 0;
    var long := leg.position > 0;
    var stop, target := Stop(long, entry, AtrOf(leg)), Target(long, entry, AtrOf(leg));
    || (if long then bar.close <= stop || bar.high >= target else bar.low <= target || bar.close >= stop)
    || held >= MAX_HOLD_DAYS
  }

  function Close(leg: Leg): (Leg, Outcome) {
    (leg.(position := 0, entryPrice := None, entryDay := None, entryAtr := None),
     if leg.position > 0 then Trade(Sell, leg.position, None) else Trade(BuyToCover, -leg.position, None))
  }

  function Exits(leg: Leg, bar: Bar, day: int): (Leg, Outcome) {
    if ExitDue(leg, bar, day) then Close(leg) else (leg, Quiet)
  }

  /** The high lies on the mean or at most 1% above it. */
  predicate Touches(high: real, mean: real) {
    mean > 0.0 && Abs(high - mean) / mean <= 0.01 && high >= mean
  }

  predicate PullbackAt(leg: Leg, k: nat) {
    && |leg.history| >= k + 1 && |leg.closes| >= k + 10
    && Touches(leg.history[|leg.history| - 1 - k].high, Mean(leg.closes[..|leg.closes| - k], 10).value)
  }

  predicate ResistanceAt(leg: Leg, k: nat) {
    && |leg.highs| == |leg.closes| && |leg.closes| >= k + 10
    && Touches(leg.highs[|leg.closes| - 1 - k], Mean(leg.closes[..|leg.closes| - k], 10).value)
  }

  predicate VolumeOk(leg: Leg, bar: Bar)
    requires Usable(leg)
  {
    bar.volume > Mean(leg.volumes, 20).value * 1.2
  }

  predicate LongSetup(leg: Leg, bar: Bar)
    requires Usable(leg) && |leg.closes| >= 200
  {
    var sma10, sma50, sma200 := Mean(leg.closes, 10).value, Mean(leg.closes, 50).value, Mean(leg.closes, 200).value;
    && bar.close > sma10 && bar.close > sma50 && bar.close > sma200 && sma50 > sma200
    && Rsi(leg.closes, 14).value > 55.0 && VolumeOk(leg, bar)
    && (PullbackAt(leg, 1) || PullbackAt(leg, 2))
  }

  predicate ShortSetup(leg: Leg, bar: Bar)
    requires Usable(leg) && |leg.closes| >= 200
  {
    var sma10, sma50, sma200 := Mean(leg.closes, 10).value, Mean(leg.closes, 50).value, Mean(leg.closes, 200).value;
    && bar.close < sma50 && sma50 < sma200 && (ResistanceAt(leg, 1) || ResistanceAt(leg, 2))
    && bar.close < sma10 && Rsi(leg.closes, 14).value < 45.0 && VolumeOk(leg, bar)
  }

  /** A volatility index of zero counts as unavailable; it must lie between 15 and 30. */
  predicate VixOk(vix: Option<real>) {
    vix.Some? && vix.value != 0.0 && VIX_MIN <= vix.value <= VIX_MAX
  }

  /** Opening at the close; a zero close divides by zero and raises. */
  function Open(leg: Leg, bar: Bar, day: int, long: bool): (Leg, Outcome) {
    if bar.close == 0.0 then (leg, Raised)
    else
      var shares, atr := Shares(bar.close), Atr(leg.history);
      if shares < 1 then (leg, Quiet)
      else
        var entered := leg.(position := if long then shares else -shares, entryPrice := Some(bar.close),
                           entryDay := Some(day), entryAtr := Some(atr));
        if long then (entered, Trade(Buy, shares, Some(Bracket(Stop(true, bar.close, atr), Target(true, bar.close, atr)))))
        else (entered, Trade(SellShort, shares, Some(Bracket(bar.close + 2.0 * atr, bar.close - 4.0 * atr))))
  }

  function Enter(leg: Leg, bar: Bar, day: int, openCount: int, vix: Option<real>, shorts: bool): (Leg, Outcome)
    requires Usable(leg)
  {
    if |leg.closes| < 200 || openCount >= MAX_POSITIONS then (leg, Quiet)
    else if LongSetup(leg, bar) && VixOk(vix) then Open(leg, bar, day, true)
    else if shorts && ShortSetup(leg, bar) then Open(leg, bar, day, false)
    else (leg, Quiet)
  }

  function LegStep(leg: Leg, bar: Bar, openCount: int, vix: Option<real>, shorts: bool): (Leg, Outcome)
    requires Buffered(leg)
  {
    var l := Absorb(leg, bar);
    if !Usable(l) || bar.day.None? then (l, Quiet)
    else if l.position == 0 then Enter(l, bar, bar.day.value, openCount, vix, shorts)
    else Exits(l, bar, bar.day.value)
  }

  lemma LegStepBuffered(leg: Leg, bar: Bar, openCount: int, vix: Option<real>, shorts: bool)
    requires Buffered(leg)
    ensures Buffered(LegStep(leg, bar, openCount, vix, shorts).0)
  {
    hide Mean, Push, Usable, ExitDue, LongSetup, ShortSetup, VixOk, Shares, Atr, Stop, Target;
  }

  predicate IsOpen(legs: Legs, s: Sym) {
    LegOf(legs, s).position != 0
  }

  /** How many of the first `n` symbols of a list are held. */
  function OpenCount(legs: Legs, symbols: seq<Sym>, n: nat): nat
    requires n <= |symbols|
  {
    if n == 0 then 0 else OpenCount(legs, symbols, n - 1) + if IsOpen(legs, symbols[n - 1]) then 1 else 0
  }

  function HeldCount(legs: Legs): nat {
    OpenCount(legs, SYMBOLS, |SYMBOLS|)
  }

  function OnBar(legs: Legs, s: Sym, bar: Bar, vix: Option<real>, shorts: bool): (Legs, Outcome) {
    if !Listed(s) then (legs, Quiet)
    else
      var n := HeldCount(legs);
      LegStepBuffered(LegOf(legs, s), bar, n, vix, shorts);
      var (leg, outcome) := LegStep(LegOf(legs, s), bar, n, vix, shorts);
      (legs[s := leg], outcome)
  }

  function Restore(legs: Legs, s: Sym, long: Option<bool>): Legs {
    legs[s := LegOf(legs, s).(position := if long.None? then 0 else if long.value then 1 else -1)]
  }

  // ----- Protective stops -----

  type OrderId = nat

  /** A good-till-cancelled stop order; its price in whole cents. */
  datatype StopOrder = StopOrder(sym: Sym, sell: bool, qty: int, cents: int)

  /** The broker's live orders, and the next order id it will give out. */
  datatype Book = Book(live: map<OrderId, StopOrder>, next: OrderId)

  datatype State = State(legs: Legs, stops: map<Sym, OrderId>, book: Book)

  /** The stop that protects an opened leg. */
  function StopFor(s: Sym, leg: Leg): (order: StopOrder)
    requires leg.entryPrice.Some?
    ensures order.sym == s
  {
    var long := leg.position > 0;
    StopOrder(s, long, if long then leg.position else -leg.position,
              RoundHalfEven(100.0 * Stop(long, leg.entryPrice.value, AtrOf(leg))))
  }

  /** After a bar: a flat symbol's stop is cancelled, an opened symbol without one gets one. */
  function PostBar(st: State, s: Sym, placeOk: bool, cancelOk: bool): State {
    var leg := LegOf(st.legs, s);
    if leg.position == 0 then
      if s !in st.stops then st
      else st.(stops := st.stops - {s},
               book := if cancelOk then st.book.(live := st.book.live - {st.stops[s]}) else st.book)
    else if s in st.stops || leg.entryPrice.None? || !placeOk then st
    else st.(stops := st.stops[s := st.book.next],
             book := Book(st.book.live[st.book.next := StopFor(s, leg)], st.book.next + 1))
  }

  /** The broker's side of placing and cancelling orders; a call may fail. */
  class Broker {
    var book: Book

    constructor ()
      ensures book == Book(map[], 0)
    {
      book := Book(map[], 0);
    }

    method PlaceOrder(order: StopOrder, ok: bool) returns (id: Option<OrderId>)
      modifies this
      ensures id == if ok then Some(old(book).next) else None
      ensures book == if ok then Book(old(book).live[old(book).next := order], old(book).next + 1) else old(book)
    {
      if !ok { return None; }
      id := Some(book.next);
      book := Book(book.live[book.next := order], book.next + 1);
    }

    method CancelOrder(id: OrderId, ok: bool)
      modifies this
      ensures book == if ok then old(book).(live := old(book).live - {id}) else old(book)
    {
      if ok {
        book := book.(live := book.live - {id});
      }
    }
  }

  /** `_compute_atr`. */
  method ComputeAtr(history: seq<Past>) returns (atr: real)
    ensures atr == Atr(history)
  {
    hide TrueRange, Total;
    if |history| < ATR_PERIOD + 1 { return 0.0; }
    var ranges: seq<real> := [];
    for i := 1 to |history|
      invariant |ranges| == i - 1
      invariant forall k :: 0 <= k < i - 1 ==> ranges[k] == TrueRange(history[k], history[k + 1])
    {
      ranges := ranges + [TrueRange(history[i - 1], history[i])];
    }
    assert ranges == Ranges(history);
    atr := Total(ranges[|ranges| - ATR_PERIOD..]) / ATR_PERIOD as real;
  }

  class EquitySwingStrategy {
    const adapter: Broker
    const enableShorts: bool
    var legs: Legs
    var stops: map<Sym, OrderId>

    constructor (adapter: Broker, enableShorts: bool)
      ensures this.adapter == adapter && this.enableShorts == enableShorts
      ensures legs == map[] && stops == map[]
    {
      this.adapter, this.enableShorts := adapter, enableShorts;
      legs, stops := map[], map[];
    }

    method CountOpen(symbols: seq<Sym>) returns (n: int)
      ensures n == OpenCount(legs, symbols, |symbols|)
    {
      hide LegOf, Buffered;
      n := 0;
      for i := 0 to |symbols|
        invariant n == OpenCount(legs, symbols, i)
      {
        if LegOf(legs, symbols[i]).position != 0 {
          n := n + 1;
        }
      }
    }

    method OpenPositionCount() returns (n: int)
      ensures n == HeldCount(legs)
    {
      n := CountOpen(SYMBOLS);
    }

    method HandleBar(s: Sym, bar: Bar, vixToday: Option<real>) returns (outcome: Outcome)
      modifies this
      ensures (legs, outcome) == OnBar(old(legs), s, bar, vixToday, enableShorts) && stops == old(stops)
    {
      hide Buffered, Absorb, Usable, Enter, Exits, HeldCount, Listed;
      if !Listed(s) { return Quiet; }
      var count := OpenPositionCount();
      var leg0 := LegOf(legs, s);
      LegStepBuffered(leg0, bar, count, vixToday, enableShorts);
      var leg := Absorb(leg0, bar);
      outcome := Quiet;
      if Usable(leg) && bar.day.Some? {
        if leg.position != 0 {
          leg, outcome := CheckExit(leg, bar, bar.day.value);
        } else {
          leg, outcome := CheckEntry(leg, bar, bar.day.value, count, vixToday);
        }
      }
      legs := legs[s := leg];
    }

    method CheckExit(leg0: Leg, bar: Bar, day: int) returns (leg: Leg, outcome: Outcome)
      requires leg0.position != 0
      ensures (leg, outcome) == Exits(leg0, bar, day)
    {
      hide Stop, Target;
      var entry := if leg0.entryPrice.Some? then leg0.entryPrice.value else bar.close;
      var atr := if leg0.entryAtr.Some? then leg0.entryAtr.value else 0.0;
      var held := if leg0.entryDay.Some? then day - leg0.entryDay.value else 0;
      var due := held >= MAX_HOLD_DAYS;
      leg, outcome := leg0.(position := 0, entryPrice := None, entryDay := None, entryAtr := None), Quiet;
      if leg0.position > 0 {
        if bar.close <= Stop(true, entry, atr) || bar.high >= Target(true, entry, atr) { due := true; }
        outcome := Trade(Sell, leg0.position, None);
      } else {
        if bar.low <= Target(false, entry, atr) || bar.close >= Stop(false, entry, atr) { due := true; }
        outcome := Trade(BuyToCover, -leg0.position, None);
      }
      if !due {
        leg, outcome := leg0, Quiet;
      }
    }

    method CheckEntry(leg0: Leg, bar: Bar, day: int, count: int, vixToday: Option<real>) returns (leg: Leg, outcome: Outcome)
      requires Usable(leg0)
      ensures (leg, outcome) == Enter(leg0, bar, day, count, vixToday, enableShorts)
    {
      hide Usable, LongSetup, ShortSetup, Stop, Target, Shares, Atr;
      leg, outcome := leg0, Quiet;
      if |leg.closes| < 200 { return; }
      if count >= MAX_POSITIONS { return; }
      var atr := ComputeAtr(leg.history);
      if LongSetup(leg, bar) && VixOk(vixToday) {
        if bar.close == 0.0 { outcome := Raised; return; }
        var shares := Shares(bar.close);
        if shares < 1 { return; }
        leg := leg.(position := shares, entryPrice := Some(bar.close), entryDay := Some(day), entryAtr := Some(atr));
        outcome := Trade(Buy, shares, Some(Bracket(Stop(true, bar.close, atr), Target(true, bar.close, atr))));
        return;
      }
      if enableShorts && ShortSetup(leg, bar) {
        if bar.close == 0.0 { outcome := Raised; return; }
        var shares := Shares(bar.close);
        if shares < 1 { return; }
        leg := leg.(position := -shares, entryPrice := Some(bar.close), entryDay := Some(day), entryAtr := Some(atr));
        outcome := Trade(SellShort, shares, Some(Bracket(bar.close + 2.0 * atr, bar.close - 4.0 * atr)));
      }
    }

    method AfterBar(s: Sym, placeOk: bool, cancelOk: bool)
      modifies this, adapter
      ensures State(legs, stops, adapter.book) == PostBar(State(old(legs), old(stops), old(adapter.book)), s, placeOk, cancelOk)
    {
      hide Buffered, RoundHalfEven, Stop;
      var leg := LegOf(legs, s);
      if leg.position == 0 {
        if s in stops {
          var id := stops[s];
          stops := stops - {s};
          adapter.CancelOrder(id, cancelOk);
        }
        return;
      }
      if s in stops || leg.entryPrice.None? { return; }
      var long := leg.position > 0;
      var stopPx := Stop(long, leg.entryPrice.value, AtrOf(leg));
      var qty := if long then leg.position else -leg.position;
      var order := StopOrder(s, long, qty, RoundHalfEven(100.0 * stopPx));
      var receipt := adapter.PlaceOrder(order, placeOk);
      if receipt.Some? {
        stops := stops[s := receipt.value];
      }
    }

    /** At startup, a position held at the broker is taken over as one share of its side; no side clears it. */
    method UpdatePosition(s: Sym, long: Option<bool>)
      modifies this
      ensures legs == Restore(old(legs), s, long) && stops == old(stops)
    {
      var qty := 0;
      if long == Some(true) {
        qty := 1;
      } else if long == Some(false) {
        qty := -1;
      }
      legs := legs[s := LegOf(legs, s).(position := qty)];
    }
  }
}
