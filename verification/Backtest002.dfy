/**
 The daily simulation of strategy 002 over local price files: signals at the
 close, fills at the ticker's next open, a stop 8% below entry, at most two
 positions.  Prices are exact reals; a file's days are strictly increasing.
 */
module Backtest002 {
  import opened Sums

  type Ticker = string

  datatype Bar = Bar(day: int, open: real, low: real, close: real, volume: real)

  type Prices = map<Ticker, seq<Bar>>

  datatype Position = Position(ticker: Ticker, shares: int, entryPrice: real, entryDay: int, stopPrice: real)

  datatype Trade = Trade(ticker: Ticker, entryDay: int, entryPrice: real, exitDay: int, exitPrice: real, shares: int)

  datatype Sim = Sim(
    cash: real,
    positions: seq<Position>,
    trades: seq<Trade>,
    entries: map<int, seq<Ticker>>,
    exits: map<int, seq<Ticker>>)

  // ----- Looking prices up -----

  function BarsOf(px: Prices, t: Ticker): seq<Bar> {
    if t in px then px[t] else []
  }

  function RowOf(bars: seq<Bar>, day: int): (r: Option<nat>)
    ensures r.Some? ==> r.value < |bars| && bars[r.value].day == day
    ensures r.None? ==> forall i :: 0 <= i < |bars| ==> bars[i].day != day
  {
    if bars == [] then None
    else if bars[|bars| - 1].day == day then Some(|bars| - 1)
    else RowOf(bars[..|bars| - 1], day)
  }

  function BarAt(px: Prices, t: Ticker, day: int): Option<Bar> {
    var r := RowOf(BarsOf(px, t), day);
    if r.Some? then Some(BarsOf(px, t)[r.value]) else None
  }

  /** The ticker's next trading day after one of its trading days. */
  function NextDay(px: Prices, t: Ticker, day: int): Option<int> {
    var bars := BarsOf(px, t);
    var r := RowOf(bars, day);
    if r.Some? && r.value + 1 < |bars| then Some(bars[r.value + 1].day) else None
  }

  function CloseSum(bars: seq<Bar>, i: nat, n: nat): real
    requires n <= i + 1 <= |bars|
  {
    if n == 0 then 0.0 else bars[i + 1 - n].close + CloseSum(bars, i, n - 1)
  }

  function VolumeSum(bars: seq<Bar>, i: nat, n: nat): real
    requires n <= i + 1 <= |bars|
  {
    if n == 0 then 0.0 else bars[i + 1 - n].volume + VolumeSum(bars, i, n - 1)
  }

  /** A rolling mean that is undefined before `n` rows. */
  function Sma(bars: seq<Bar>, i: nat, n: nat): Option<real>
    requires i < |bars| && n > 0
  {
    if i + 1 < n then None else Some(CloseSum(bars, i, n) / n as real)
  }

  function VolumeMean(bars: seq<Bar>, i: nat, n: nat): Option<real>
    requires i < |bars| && n > 0
  {
    if i + 1 < n then None else Some(VolumeSum(bars, i, n) / n as real)
  }

  predicate BuySignal(bars: seq<Bar>, i: nat)
    requires i < |bars|
  {
    var sma20, sma50, v20 := Sma(bars, i, 20), Sma(bars, i, 50), VolumeMean(bars, i, 20);
    && sma20.Some? && sma50.Some? && v20.Some?
    && bars[i].close > sma20.value && bars[i].close > sma50.value && bars[i].volume > 1.5 * v20.value
  }

  predicate SellSignal(bars: seq<Bar>, i: nat)
    requires i < |bars|
  {
    Sma(bars, i, 20).Some? && bars[i].close < Sma(bars, i, 20).value
  }

  predicate Buys(px: Prices, t: Ticker, day: int) {
    var r := RowOf(BarsOf(px, t), day);
    r.Some? && BuySignal(BarsOf(px, t), r.value)
  }

  predicate Sells(px: Prices, t: Ticker, day: int) {
    var r := RowOf(BarsOf(px, t), day);
    r.Some? && SellSignal(BarsOf(px, t), r.value)
  }

  // ----- Positions, in the order they were opened -----

  function PosOf(ps: seq<Position>, t: Ticker): (r: Option<Position>)
    ensures r.Some? ==> r.value.ticker == t && r.value in ps
  {
    if ps == [] then None else if ps[0].ticker == t then Some(ps[0]) else PosOf(ps[1..], t)
  }

  predicate Held(ps: seq<Position>, t: Ticker) {
    PosOf(ps, t).Some?
  }

  function Remove(ps: seq<Position>, t: Ticker): seq<Position> {
    if ps == [] then [] else if ps[0].ticker == t then ps[1..] else [ps[0]] + Remove(ps[1..], t)
  }

  function Pnl(tr: Trade): real {
    Profit(tr.shares, tr.entryPrice, tr.exitPrice)
  }

  // ----- One day -----

  function Pending(m: map<int, seq<Ticker>>, day: int): seq<Ticker> {
    if day in m then m[day] else []
  }

  function Schedule(m: map<int, seq<Ticker>>, day: Option<int>, t: Ticker): map<int, seq<Ticker>> {
    if day.None? then m else m[day.value := Pending(m, day.value) + [t]]
  }

  /** Close the position `p` at `price`. */
  function Close(s: Sim, p: Position, day: int, price: real): Sim {
    s.(cash := s.cash + Value(p.shares, price),
       positions := Remove(s.positions, p.ticker),
       trades := s.trades + [Trade(p.ticker, p.entryDay, p.entryPrice, day, price, p.shares)])
  }

  function ExitOne(px: Prices, day: int, s: Sim, t: Ticker): Sim {
    var p, bar := PosOf(s.positions, t), BarAt(px, t, day);
    if p.None? || bar.None? then s else Close(s, p.value, day, bar.value.open)
  }

  function SharesFor(cap: real, price: real): int
    requires price > 0.0
  {
    (cap / price).Floor
  }

  function EnterOne(px: Prices, cap: real, day: int, s: Sim, t: Ticker): Sim {
    var bar := BarAt(px, t, day);
    if Held(s.positions, t) || |s.positions| >= 2 || bar.None? || bar.value.open <= 0.0 then s
    else
      var open := bar.value.open;
      var shares := SharesFor(cap, open);
      if shares <= 0 || Value(shares, open) > s.cash + TOLERANCE then s
      else
        s.(cash := s.cash - Value(shares, open),
           positions := s.positions + [Position(t, shares, open, day, open * 0.92)])
  }

  function StopOne(px: Prices, day: int, s: Sim, p: Position): Sim {
    var bar := BarAt(px, p.ticker, day);
    if bar.None? || bar.value.low > p.stopPrice then s else Close(s, p, day, p.stopPrice)
  }

  function SignalOne(px: Prices, day: int, s: Sim, t: Ticker): Sim {
    if BarAt(px, t, day).None? then s
    else if Held(s.positions, t) then
      if Sells(px, t, day) then s.(exits := Schedule(s.exits, NextDay(px, t, day), t)) else s
    else if Buys(px, t, day) then s.(entries := Schedule(s.entries, NextDay(px, t, day), t))
    else s
  }

  function Exits(px: Prices, day: int, s: Sim, ts: seq<Ticker>): Sim {
    if ts == [] then s else ExitOne(px, day, Exits(px, day, s, ts[..|ts| - 1]), ts[|ts| - 1])
  }

  function Enters(px: Prices, cap: real, day: int, s: Sim, ts: seq<Ticker>): Sim {
    if ts == [] then s else EnterOne(px, cap, day, Enters(px, cap, day, s, ts[..|ts| - 1]), ts[|ts| - 1])
  }

  function Stops(px: Prices, day: int, s: Sim, ps: seq<Position>): Sim {
    if ps == [] then s else StopOne(px, day, Stops(px, day, s, ps[..|ps| - 1]), ps[|ps| - 1])
  }

  function Signals(px: Prices, day: int, s: Sim, ts: seq<Ticker>): Sim {
    if ts == [] then s else SignalOne(px, day, Signals(px, day, s, ts[..|ts| - 1]), ts[|ts| - 1])
  }

  /** After the exits and entries at the open. */
  function AtOpen(px: Prices, cap: real, day: int, s: Sim): Sim {
    var s1 := Exits(px, day, s, Pending(s.exits, day));
    Enters(px, cap, day, s1, Pending(s1.entries, day))
  }

  function AfterStops(px: Prices, cap: real, day: int, s: Sim): Sim {
    var s2 := AtOpen(px, cap, day, s);
    Stops(px, day, s2, s2.positions)
  }

  function Day(px: Prices, tickers: seq<Ticker>, cap: real, day: int, s: Sim): Sim {
    Signals(px, day, AfterStops(px, cap, day, s), tickers)
  }

  function Run(px: Prices, tickers: seq<Ticker>, capital: real, cap: real, days: seq<int>): Sim {
    if days == [] then Sim(capital, [], [], map[], map[])
    else Day(px, tickers, cap, days[|days| - 1], Run(px, tickers, capital, cap, days[..|days| - 1]))
  }

  // ----- The simulation as the script runs it -----

  function LastClose(bars: seq<Bar>): real {
    if bars == [] then 0.0 else bars[|bars| - 1].close
  }

  /** The mark of a position: the day's close, or the file's last close when the ticker does not trade. */
  function MarkOf(px: Prices, day: int, p: Position): real {
    var bar := BarAt(px, p.ticker, day);
    Value(p.shares, if bar.Some? then bar.value.close else LastClose(BarsOf(px, p.ticker)))
  }

  function Equity(px: Prices, day: int, cash: real, ps: seq<Position>): real {
    if ps == [] then cash else Equity(px, day, cash, ps[..|ps| - 1]) + MarkOf(px, day, ps[|ps| - 1])
  }

  method ExitsAtOpen(px: Prices, day: int, s0: Sim, ts: seq<Ticker>) returns (s: Sim)
    ensures s == Exits(px, day, s0, ts)
  {
    s := s0;
    for i := 0 to |ts|
      invariant s == Exits(px, day, s0, ts[..i])
    {
      assert ts[..i + 1][..i] == ts[..i];
      var t := ts[i];
      var held, bar := PosOf(s.positions, t), BarAt(px, t, day);
      if held.None? { continue; }
      if bar.None? { continue; }
      var openPx, pos := bar.value.open, held.value;
      s := s.(positions := Remove(s.positions, t));
      s := s.(cash := s.cash + Value(pos.shares, openPx));
      s := s.(trades := s.trades + [Trade(t, pos.entryDay, pos.entryPrice, day, openPx, pos.shares)]);
    }
    assert ts[..|ts|] == ts;
  }

  method EntriesAtOpen(px: Prices, cap: real, day: int, s0: Sim, ts: seq<Ticker>) returns (s: Sim)
    ensures s == Enters(px, cap, day, s0, ts)
  {
    s := s0;
    for i := 0 to |ts|
      invariant s == Enters(px, cap, day, s0, ts[..i])
    {
      assert ts[..i + 1][..i] == ts[..i];
      var t := ts[i];
      var bar := BarAt(px, t, day);
      if Held(s.positions, t) { continue; }
      if |s.positions| >= 2 { continue; }
      if bar.None? { continue; }
      var openPx := bar.value.open;
      if openPx <= 0.0 { continue; }
      var shares := (cap / openPx).Floor;
      if shares <= 0 { continue; }
      var cost := Value(shares, openPx);
      if cost > s.cash + TOLERANCE { continue; }
      s := s.(cash := s.cash - cost);
      s := s.(positions := s.positions + [Position(t, shares, openPx, day, openPx * 0.92)]);
    }
    assert ts[..|ts|] == ts;
  }

  method IntradayStops(px: Prices, day: int, s0: Sim) returns (s: Sim)
    ensures s == Stops(px, day, s0, s0.positions)
  {
    s := s0;
    var open := s.positions;
    for i := 0 to |open|
      invariant s == Stops(px, day, s0, open[..i])
    {
      assert open[..i + 1][..i] == open[..i];
      var pos := open[i];
      var bar := BarAt(px, pos.ticker, day);
      if bar.None? { continue; }
      if bar.value.low <= pos.stopPrice {
        s := s.(cash := s.cash + Value(pos.shares, pos.stopPrice));
        s := s.(positions := Remove(s.positions, pos.ticker));
        s := s.(trades := s.trades + [Trade(pos.ticker, pos.entryDay, pos.entryPrice, day, pos.stopPrice, pos.shares)]);
      }
    }
    assert open[..|open|] == open;
  }

  method SignalsAtClose(px: Prices, day: int, s0: Sim, tickers: seq<Ticker>) returns (s: Sim)
    ensures s == Signals(px, day, s0, tickers)
  {
    s := s0;
    for i := 0 to |tickers|
      invariant s == Signals(px, day, s0, tickers[..i])
    {
      assert tickers[..i + 1][..i] == tickers[..i];
      var t := tickers[i];
      if BarAt(px, t, day).None? { continue; }
      var nd := NextDay(px, t, day);
      if Held(s.positions, t) {
        if Sells(px, t, day) && nd.Some? {
          s := s.(exits := s.exits[nd.value := Pending(s.exits, nd.value) + [t]]);
        }
      } else {
        if Buys(px, t, day) && nd.Some? {
          s := s.(entries := s.entries[nd.value := Pending(s.entries, nd.value) + [t]]);
        }
      }
    }
    assert tickers[..|tickers|] == tickers;
  }

  method MarkToMarket(px: Prices, day: int, s: Sim) returns (mtm: real)
    ensures mtm == Equity(px, day, s.cash, s.positions)
  {
    mtm := s.cash;
    for i := 0 to |s.positions|
      invariant mtm == Equity(px, day, s.cash, s.positions[..i])
    {
      assert s.positions[..i + 1][..i] == s.positions[..i];
      mtm := mtm + MarkOf(px, day, s.positions[i]);
    }
    assert s.positions[..|s.positions|] == s.positions;
  }

  /** The equity of every day of a run, marked after that day's signals. */
  function EquityCurve(px: Prices, tickers: seq<Ticker>, capital: real, cap: real, days: seq<int>): seq<real> {
    if days == [] then []
    else
      var s := Run(px, tickers, capital, cap, days);
      EquityCurve(px, tickers, capital, cap, days[..|days| - 1]) + [Equity(px, days[|days| - 1], s.cash, s.positions)]
  }

  method RunBacktest(px: Prices, tickers: seq<Ticker>, capital: real, cap: real, days: seq<int>)
    returns (s: Sim, equity: seq<real>)
    ensures s == Run(px, tickers, capital, cap, days)
    ensures equity == EquityCurve(px, tickers, capital, cap, days)
  {
    hide Exits, Enters, Stops, Signals, Equity;
    s := Sim(capital, [], [], map[], map[]);
    equity := [];
    for d := 0 to |days|
      invariant s == Run(px, tickers, capital, cap, days[..d])
      invariant equity == EquityCurve(px, tickers, capital, cap, days[..d])
    {
      assert days[..d + 1][..d] == days[..d];
      var day := days[d];
      s := ExitsAtOpen(px, day, s, Pending(s.exits, day));
      s := EntriesAtOpen(px, cap, day, s, Pending(s.entries, day));
      s := IntradayStops(px, day, s);
      s := SignalsAtClose(px, day, s, tickers);
      var mtm := MarkToMarket(px, day, s);
      equity := equity + [mtm];
    }
    assert days[..|days|] == days;
  }
}
