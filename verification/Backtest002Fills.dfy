/**
 What each day of the strategy 002 simulation does, said by the day's bars:
 which entries fill and for how many shares, when a stop fires, what the close
 schedules, and what the equity of the day is.
 */
module Backtest002Fills {
  import opened Sums
  import opened Backtest002
  import opened Backtest002Laws

  // ----- Bars -----

  /** Row `i` of the ticker's file is its bar of the day. */
  ghost predicate RowAt(px: Prices, t: Ticker, day: int, i: int) {
    t in px && 0 <= i < |px[t]| && px[t][i].day == day
  }

  lemma BarIsRow(px: Prices, t: Ticker, day: int)
    requires AllSorted(px)
    ensures forall i :: RowAt(px, t, day, i) ==> RowOf(BarsOf(px, t), day) == Some(i) && BarAt(px, t, day) == Some(px[t][i])
    ensures var r := RowOf(BarsOf(px, t), day); r.Some? ==> RowAt(px, t, day, r.value) && BarAt(px, t, day) == Some(px[t][r.value])
    ensures RowOf(BarsOf(px, t), day).None? ==> BarAt(px, t, day).None? && forall i :: !RowAt(px, t, day, i)
  {
    hide RowOf;
    assert Sorted(BarsOf(px, t));
  }

  // ----- Every position -----

  /** Bought at the open of its entry day: as many whole shares as the cap buys, with the stop 8% below. */
  ghost predicate Bought(px: Prices, cap: real, p: Position) {
    && p.shares >= 1 && p.entryPrice > 0.0
    && p.shares as real * p.entryPrice <= cap < (p.shares + 1) as real * p.entryPrice
    && p.stopPrice == p.entryPrice * 0.92
    && exists i :: RowAt(px, p.ticker, p.entryDay, i) && px[p.ticker][i].open == p.entryPrice
  }

  ghost predicate AllBought(px: Prices, cap: real, ps: seq<Position>) {
    forall p :: p in ps ==> Bought(px, cap, p)
  }

  lemma SharesAre(cap: real, price: real, n: int)
    requires price > 0.0
    ensures n == SharesFor(cap, price) <==> n as real * price <= cap < (n + 1) as real * price
  {
    assert n as real * price == Value(n, price) && (n + 1) as real * price == Value(n + 1, price);
    hide Value;
    FloorIs(cap, price, n);
  }

  /** All that an entry needs at its turn. */
  ghost predicate MayEnter(px: Prices, cap: real, day: int, s: Sim, t: Ticker, i: int, n: int) {
    && (forall k :: 0 <= k < |s.positions| ==> s.positions[k].ticker != t) && |s.positions| < 2
    && RowAt(px, t, day, i) && px[t][i].open > 0.0
    && n >= 1 && n as real * px[t][i].open <= cap < (n + 1) as real * px[t][i].open
    && n as real * px[t][i].open <= s.cash + 0.000001
  }

  /** The state after `n` shares of `t` were bought at `open`. */
  function Entered(s: Sim, t: Ticker, n: int, open: real, day: int): Sim {
    s.(cash := s.cash - n as real * open, positions := s.positions + [Position(t, n, open, day, open * 0.92)])
  }

  lemma EnterIf(px: Prices, cap: real, day: int, s: Sim, t: Ticker, i: int, n: int)
    requires AllSorted(px) && MayEnter(px, cap, day, s, t, i, n)
    ensures EnterOne(px, cap, day, s, t) == Entered(s, t, n, px[t][i].open, day)
  {
    BarIsRow(px, t, day);
    Absent(s.positions, t);
    SharesAre(cap, px[t][i].open, n);
    hide SharesFor, RowOf, BarAt, PosOf;
  }

  lemma EnterOnlyIf(px: Prices, cap: real, day: int, s: Sim, t: Ticker)
    requires AllSorted(px) && EnterOne(px, cap, day, s, t) != s
    ensures exists i, n :: MayEnter(px, cap, day, s, t, i, n)
  {
    BarIsRow(px, t, day);
    Absent(s.positions, t);
    var i := RowOf(BarsOf(px, t), day).value;
    var n := SharesFor(cap, px[t][i].open);
    SharesAre(cap, px[t][i].open, n);
    hide SharesFor, RowOf, BarAt, PosOf;
    assert MayEnter(px, cap, day, s, t, i, n);
  }

  lemma EnterOneExactly(px: Prices, cap: real, day: int, s: Sim, t: Ticker, z: Sim)
    requires AllSorted(px) && z == EnterOne(px, cap, day, s, t)
    ensures forall i, n :: MayEnter(px, cap, day, s, t, i, n) ==> z == Entered(s, t, n, px[t][i].open, day)
    ensures (forall i, n :: !MayEnter(px, cap, day, s, t, i, n)) ==> z == s
  {
    hide MayEnter, EnterOne, AllSorted;
    forall i, n | MayEnter(px, cap, day, s, t, i, n) ensures RowAt(px, t, day, i) && z == Entered(s, t, n, px[t][i].open, day) {
      MayHasRow(px, cap, day, s, t, i, n);
      EnterIf(px, cap, day, s, t, i, n);
    }
    if z != s { EnterOnlyIf(px, cap, day, s, t); }
  }

  lemma MayHasRow(px: Prices, cap: real, day: int, s: Sim, t: Ticker, i: int, n: int)
    requires MayEnter(px, cap, day, s, t, i, n)
    ensures RowAt(px, t, day, i)
  {
  }

  /**
   The entries of a day, one at a time in the order they were scheduled: an
   entry fills if and only if its ticker is not held, fewer than two
   positions are open, the ticker has a bar with a positive open, the cap
   buys at least one whole share, and cash covers them; it then buys exactly
   that many.
   */
  lemma EntriesExactly(px: Prices, tickers: seq<Ticker>, capital: real, cap: real, days: seq<int>, day: int, j: nat)
    requires AllSorted(px)
    ensures var s := Run(px, tickers, capital, cap, days);
            var come, s1 := On(s.entries, day), Exits(px, day, s, On(s.exits, day));
            && AtOpen(px, cap, day, s) == Enters(px, cap, day, s1, come)
            && Enters(px, cap, day, s1, []) == s1
            && (j < |come| ==>
                  var a, z, t := Enters(px, cap, day, s1, come[..j]), Enters(px, cap, day, s1, come[..j + 1]), come[j];
                  && (forall i, n :: MayEnter(px, cap, day, a, t, i, n) ==> z == Entered(a, t, n, px[t][i].open, day))
                  && ((forall i, n :: !MayEnter(px, cap, day, a, t, i, n)) ==> z == a))
  {
    hide Exits, AllSorted, Run, EnterOne, MayEnter;
    var s := Run(px, tickers, capital, cap, days);
    var come, s1 := On(s.entries, day), Exits(px, day, s, On(s.exits, day));
    ExitsOrders(px, day, s, On(s.exits, day));
    if j < |come| {
      assert come[..j + 1][..j] == come[..j];
      var a := Enters(px, cap, day, s1, come[..j]);
      EnterOneExactly(px, cap, day, a, come[j], EnterOne(px, cap, day, a, come[j]));
    }
  }

  /** The tickers scheduled for a day. */
  function On(m: map<int, seq<Ticker>>, d: int): seq<Ticker> {
    if d in m then m[d] else []
  }

  // ----- What the loops leave alone -----

  ghost predicate OrdersKept(s: Sim, z: Sim) {
    z.exits == s.exits && z.entries == s.entries
  }

  lemma {:induction false} ExitsOrders(px: Prices, day: int, s: Sim, ts: seq<Ticker>)
    ensures OrdersKept(s, Exits(px, day, s, ts))
    decreases |ts|
  {
    hide BarAt, PosOf, Remove, Value;
    if ts != [] { ExitsOrders(px, day, s, ts[..|ts| - 1]); }
  }

  lemma {:induction false} EntersOrders(px: Prices, cap: real, day: int, s: Sim, ts: seq<Ticker>)
    ensures OrdersKept(s, Enters(px, cap, day, s, ts))
    decreases |ts|
  {
    hide BarAt, PosOf, Value, SharesFor;
    if ts != [] { EntersOrders(px, cap, day, s, ts[..|ts| - 1]); }
  }

  lemma {:induction false} StopsOrders(px: Prices, day: int, s: Sim, ps: seq<Position>)
    ensures OrdersKept(s, Stops(px, day, s, ps))
    decreases |ps|
  {
    hide BarAt, PosOf, Remove, Value;
    if ps != [] { StopsOrders(px, day, s, ps[..|ps| - 1]); }
  }

  lemma {:induction false} ExitsBought(px: Prices, cap: real, day: int, s: Sim, ts: seq<Ticker>)
    requires AllBought(px, cap, s.positions)
    ensures AllBought(px, cap, Exits(px, day, s, ts).positions)
    decreases |ts|
  {
    if ts != [] {
      var l := |ts| - 1;
      ExitsBought(px, cap, day, s, ts[..l]);
      Removed(Exits(px, day, s, ts[..l]).positions, ts[l]);
      hide BarAt, PosOf, Remove, Value, Bought;
    }
  }

  lemma EnterBought(px: Prices, cap: real, day: int, s: Sim, t: Ticker)
    requires AllBought(px, cap, s.positions) && AllSorted(px)
    ensures AllBought(px, cap, EnterOne(px, cap, day, s, t).positions)
  {
    var z := EnterOne(px, cap, day, s, t);
    EnterOneExactly(px, cap, day, s, t, z);
    hide AllSorted, EnterOne;
    if i, n :| MayEnter(px, cap, day, s, t, i, n) {
      assert Bought(px, cap, Position(t, n, px[t][i].open, day, px[t][i].open * 0.92));
    }
  }

  lemma {:induction false} EntersBought(px: Prices, cap: real, day: int, s: Sim, ts: seq<Ticker>)
    requires AllBought(px, cap, s.positions) && AllSorted(px)
    ensures AllBought(px, cap, Enters(px, cap, day, s, ts).positions)
    decreases |ts|
  {
    hide EnterOne, AllBought, AllSorted;
    if ts != [] {
      EntersBought(px, cap, day, s, ts[..|ts| - 1]);
      EnterBought(px, cap, day, Enters(px, cap, day, s, ts[..|ts| - 1]), ts[|ts| - 1]);
    }
  }

  lemma {:induction false} StopsBought(px: Prices, cap: real, day: int, s: Sim, ps: seq<Position>)
    requires AllBought(px, cap, s.positions)
    ensures AllBought(px, cap, Stops(px, day, s, ps).positions)
    decreases |ps|
  {
    if ps != [] {
      var l := |ps| - 1;
      StopsBought(px, cap, day, s, ps[..l]);
      Removed(Stops(px, day, s, ps[..l]).positions, ps[l].ticker);
      hide BarAt, PosOf, Remove, Value, Bought;
    }
  }

  /** On every run, at the end of every day and after every day's entries. */
  lemma {:induction false} EveryoneBought(px: Prices, tickers: seq<Ticker>, capital: real, cap: real, days: seq<int>)
    requires AllSorted(px)
    ensures AllBought(px, cap, Run(px, tickers, capital, cap, days).positions)
    ensures forall day :: AllBought(px, cap, AtOpen(px, cap, day, Run(px, tickers, capital, cap, days)).positions)
    decreases |days|
  {
    hide Exits, Enters, Stops, Signals, AllSorted;
    if days != [] {
      var init, today := days[..|days| - 1], days[|days| - 1];
      EveryoneBought(px, tickers, capital, cap, init);
      hide AllBought;
      var s2 := AtOpen(px, cap, today, Run(px, tickers, capital, cap, init));
      StopsBought(px, cap, today, s2, s2.positions);
      SignalsOnlySchedule(px, today, Stops(px, today, s2, s2.positions), tickers);
    }
    var s := Run(px, tickers, capital, cap, days);
    assert AllBought(px, cap, s.positions);
    hide Run, AllBought;
    forall day ensures AllBought(px, cap, AtOpen(px, cap, day, s).positions) {
      var s1 := Exits(px, day, s, Pending(s.exits, day));
      ExitsBought(px, cap, day, s, Pending(s.exits, day));
      EntersBought(px, cap, day, s1, Pending(s1.entries, day));
    }
  }

  // ----- The stops -----

  /** The day's low is at or under 0.92 of what the position was bought at. */
  ghost predicate Hit(px: Prices, day: int, p: Position) {
    exists i :: RowAt(px, p.ticker, day, i) && px[p.ticker][i].low <= p.entryPrice * 0.92
  }

  /** The positions that were not hit, in order. */
  ghost function Unhit(px: Prices, day: int, ps: seq<Position>): seq<Position> {
    if ps == [] then []
    else Unhit(px, day, ps[..|ps| - 1]) + if Hit(px, day, ps[|ps| - 1]) then [] else [ps[|ps| - 1]]
  }

  function StopTrade(day: int, p: Position): Trade {
    Trade(p.ticker, p.entryDay, p.entryPrice, day, p.entryPrice * 0.92, p.shares)
  }

  /** One trade for each position that was hit, in order. */
  ghost function HitTrades(px: Prices, day: int, ps: seq<Position>): seq<Trade> {
    if ps == [] then []
    else HitTrades(px, day, ps[..|ps| - 1]) + if Hit(px, day, ps[|ps| - 1]) then [StopTrade(day, ps[|ps| - 1])] else []
  }

  lemma {:induction false} RemoveMiddle(a: seq<Position>, p: Position, b: seq<Position>)
    requires forall i :: 0 <= i < |a| ==> a[i].ticker != p.ticker
    ensures Remove(a + ([p] + b), p.ticker) == a + b
    decreases |a|
  {
    if a == [] {
      assert a + ([p] + b) == [p] + b && a + b == b;
    } else {
      RemoveMiddle(a[1..], p, b);
      assert (a + ([p] + b))[1..] == a[1..] + ([p] + b);
      assert a + b == [a[0]] + (a[1..] + b);
    }
  }

  lemma HitIsLow(px: Prices, day: int, p: Position)
    requires AllSorted(px)
    ensures var bar := BarAt(px, p.ticker, day); Hit(px, day, p) <==> bar.Some? && bar.value.low <= p.entryPrice * 0.92
  {
    hide RowOf, BarAt;
    BarIsRow(px, p.ticker, day);
  }

  lemma StopOneExactly(px: Prices, day: int, s: Sim, a: seq<Position>, p: Position, b: seq<Position>)
    requires AllSorted(px) && s.positions == a + ([p] + b) && p.stopPrice == p.entryPrice * 0.92
    requires forall i :: 0 <= i < |a| ==> a[i].ticker != p.ticker
    ensures var z := StopOne(px, day, s, p);
            && z.positions == (if Hit(px, day, p) then a + b else s.positions)
            && z.trades == if Hit(px, day, p) then s.trades + [StopTrade(day, p)] else s.trades
  {
    hide BarAt, Hit, Remove, Value, AllSorted;
    HitIsLow(px, day, p);
    RemoveMiddle(a, p, b);
  }

  lemma {:induction false} UnhitAreThere(px: Prices, day: int, ps: seq<Position>)
    ensures forall p :: p in Unhit(px, day, ps) <==> p in ps && !Hit(px, day, p)
    decreases |ps|
  {
    hide Hit;
    if ps != [] {
      UnhitAreThere(px, day, ps[..|ps| - 1]);
      assert ps == ps[..|ps| - 1] + [ps[|ps| - 1]];
    }
  }

  lemma {:induction false} StopsSoFar(px: Prices, day: int, s: Sim, k: nat)
    requires AllSorted(px) && Unique(s.positions) && k <= |s.positions|
    requires forall i :: 0 <= i < |s.positions| ==> s.positions[i].stopPrice == s.positions[i].entryPrice * 0.92
    ensures var z, ps := Stops(px, day, s, s.positions[..k]), s.positions;
            z.positions == Unhit(px, day, ps[..k]) + ps[k..] && z.trades == s.trades + HitTrades(px, day, ps[..k])
    decreases k
  {
    hide StopOne, AllSorted, Unique;
    var ps := s.positions;
    if k > 0 {
      StopsSoFar(px, day, s, k - 1);
      hide Unhit, HitTrades, Stops;
      StopsOneMore(px, day, s, k);
      StopsStep(px, day, s.trades, Stops(px, day, s, ps[..k - 1]), ps, k);
    } else {
      assert ps[..0] == [] && ps[0..] == ps;
    }
  }

  lemma StopsStep(px: Prices, day: int, was: seq<Trade>, mid: Sim, ps: seq<Position>, k: nat)
    requires AllSorted(px) && Unique(ps) && 0 < k <= |ps| && ps[k - 1].stopPrice == ps[k - 1].entryPrice * 0.92
    requires mid.positions == Unhit(px, day, ps[..k - 1]) + ps[k - 1..] && mid.trades == was + HitTrades(px, day, ps[..k - 1])
    ensures var z := StopOne(px, day, mid, ps[k - 1]);
            z.positions == Unhit(px, day, ps[..k]) + ps[k..] && z.trades == was + HitTrades(px, day, ps[..k])
  {
    hide StopOne, AllSorted, Hit, Unique, Unhit, HitTrades;
    var a, p, h := Unhit(px, day, ps[..k - 1]), ps[k - 1], HitTrades(px, day, ps[..k - 1]);
    assert ps[k - 1..] == [p] + ps[k..];
    NotAmongUnhit(px, day, ps, k);
    StopOneExactly(px, day, mid, a, p, ps[k..]);
    MoreHit(px, day, ps, k);
    StopsJoin(was, a, p, ps[k..], h, StopTrade(day, p));
  }

  lemma StopsOneMore(px: Prices, day: int, s: Sim, k: nat)
    requires 0 < k <= |s.positions|
    ensures Stops(px, day, s, s.positions[..k]) == StopOne(px, day, Stops(px, day, s, s.positions[..k - 1]), s.positions[k - 1])
  {
    hide StopOne;
    assert s.positions[..k][..k - 1] == s.positions[..k - 1];
  }

  lemma StopsJoin(was: seq<Trade>, a: seq<Position>, p: Position, b: seq<Position>, h: seq<Trade>, tr: Trade)
    ensures a + ([p] + b) == (a + [p]) + b && was + (h + [tr]) == (was + h) + [tr]
  {
    Assoc(a, [p], b);
    Assoc(was, h, [tr]);
  }

  lemma NotAmongUnhit(px: Prices, day: int, ps: seq<Position>, k: nat)
    requires Unique(ps) && 0 < k <= |ps|
    ensures var a := Unhit(px, day, ps[..k - 1]); forall i :: 0 <= i < |a| ==> a[i].ticker != ps[k - 1].ticker
  {
    hide Hit;
    var a := Unhit(px, day, ps[..k - 1]);
    UnhitAreThere(px, day, ps[..k - 1]);
    forall i | 0 <= i < |a| ensures a[i].ticker != ps[k - 1].ticker { assert a[i] in ps[..k - 1]; }
  }

  lemma MoreHit(px: Prices, day: int, ps: seq<Position>, k: int)
    requires 0 < k <= |ps|
    ensures var p := ps[k - 1];
            && Unhit(px, day, ps[..k]) == (if Hit(px, day, p) then Unhit(px, day, ps[..k - 1]) else Unhit(px, day, ps[..k - 1]) + [p])
            && HitTrades(px, day, ps[..k])
            == if Hit(px, day, p) then HitTrades(px, day, ps[..k - 1]) + [StopTrade(day, p)] else HitTrades(px, day, ps[..k - 1])
  {
    hide Hit;
    assert ps[..k][..k - 1] == ps[..k - 1];
  }

  /**
   From a day's entries to its end, on every run: the positions that were
   not hit are still there, untouched and in order, and every other one was
   closed by one trade at 0.92 of its entry price, in order; nothing else
   was traded.
   */
  lemma StopsExactly(px: Prices, tickers: seq<Ticker>, capital: real, cap: real, days: seq<int>, day: int)
    requires AllSorted(px)
    ensures var s2, z := AtOpen(px, cap, day, Run(px, tickers, capital, cap, days)), Run(px, tickers, capital, cap, days + [day]);
            && z.positions == Unhit(px, day, s2.positions)
            && z.trades == s2.trades + HitTrades(px, day, s2.positions)
  {
    hide AtOpen, Stops, Signals, AllSorted, SeqSum;
    assert (days + [day])[..|days|] == days;
    var s := Run(px, tickers, capital, cap, days);
    OpenAtOpen(px, tickers, capital, cap, days, day);
    var s2 := AtOpen(px, cap, day, s);
    EveryoneBought(px, tickers, capital, cap, days);
    assert AllBought(px, cap, s2.positions);
    hide Bought, Unhit, HitTrades, Run;
    StopsAre92(px, cap, s2.positions);
    StopsSoFar(px, day, s2, |s2.positions|);
    assert s2.positions[..|s2.positions|] == s2.positions;
    assert Unhit(px, day, s2.positions) + s2.positions[|s2.positions|..] == Unhit(px, day, s2.positions);
    SignalsOnlySchedule(px, day, Stops(px, day, s2, s2.positions), tickers);
    OneMoreDay(px, tickers, capital, cap, days, day);
  }

  lemma OneMoreDay(px: Prices, tickers: seq<Ticker>, capital: real, cap: real, days: seq<int>, day: int)
    ensures var s2 := AtOpen(px, cap, day, Run(px, tickers, capital, cap, days));
            Run(px, tickers, capital, cap, days + [day]) == Signals(px, day, Stops(px, day, s2, s2.positions), tickers)
  {
    hide AtOpen, Stops, Signals;
    assert (days + [day])[..|days|] == days;
  }

  lemma StopsAre92(px: Prices, cap: real, ps: seq<Position>)
    requires AllBought(px, cap, ps)
    ensures forall i :: 0 <= i < |ps| ==> ps[i].stopPrice == ps[i].entryPrice * 0.92
  {
    forall i | 0 <= i < |ps| ensures ps[i].stopPrice == ps[i].entryPrice * 0.92 {
      assert ps[i] in ps;
    }
  }

  lemma OpenAtOpen(px: Prices, tickers: seq<Ticker>, capital: real, cap: real, days: seq<int>, day: int)
    ensures var s2 := AtOpen(px, cap, day, Run(px, tickers, capital, cap, days)); Unique(s2.positions) && |s2.positions| <= 2
  {
    var s := Run(px, tickers, capital, cap, days);
    BooksBalance(px, tickers, capital, cap, days);
    hide Run, Exits, Enters, Wealth, SeqSum, Unique;
    ExitsKeep(px, day, s, Pending(s.exits, day));
    var s1 := Exits(px, day, s, Pending(s.exits, day));
    EntersKeep(px, cap, day, s1, Pending(s1.entries, day));
  }

  lemma {:induction false} HitTradesAre(px: Prices, day: int, ps: seq<Position>)
    ensures forall tr :: tr in HitTrades(px, day, ps) ==> exists p :: p in ps && Hit(px, day, p) && tr == StopTrade(day, p)
    ensures forall p :: p in ps && Hit(px, day, p) ==> StopTrade(day, p) in HitTrades(px, day, ps)
    ensures |HitTrades(px, day, ps)| <= |ps|
    decreases |ps|
  {
    hide Hit;
    if ps != [] {
      HitTradesAre(px, day, ps[..|ps| - 1]);
      assert ps == ps[..|ps| - 1] + [ps[|ps| - 1]];
    }
  }

  lemma {:induction false} HitOnce(px: Prices, day: int, ps: seq<Position>)
    requires Unique(ps)
    ensures forall a, b :: 0 <= a < b < |HitTrades(px, day, ps)| ==> HitTrades(px, day, ps)[a].ticker != HitTrades(px, day, ps)[b].ticker
    decreases |ps|
  {
    hide Hit;
    if ps != [] {
      var init, p := ps[..|ps| - 1], ps[|ps| - 1];
      HitOnce(px, day, init);
      HitTradesAre(px, day, init);
      var h := HitTrades(px, day, init);
      forall a | 0 <= a < |h| ensures h[a].ticker != p.ticker {
        assert h[a] in h;
        var q :| q in init && h[a] == StopTrade(day, q);
      }
    }
  }

  /** One trade, and no other, among those made after the first `n` is of the position's ticker. */
  ghost predicate SoldOnce(trades: seq<Trade>, n: nat, day: int, p: Position) {
    exists k :: n <= k < |trades| && trades[k] == Trade(p.ticker, p.entryDay, p.entryPrice, day, p.entryPrice * 0.92, p.shares)
      && forall j :: n <= j < |trades| && j != k ==> trades[j].ticker != p.ticker
  }

  ghost predicate NotSold(trades: seq<Trade>, n: nat, t: Ticker) {
    forall j :: n <= j < |trades| ==> trades[j].ticker != t
  }

  lemma SoldIfHit(px: Prices, day: int, was: seq<Trade>, ps: seq<Position>, p: Position)
    requires Unique(ps) && p in ps
    ensures if Hit(px, day, p) then SoldOnce(was + HitTrades(px, day, ps), |was|, day, p)
            else NotSold(was + HitTrades(px, day, ps), |was|, p.ticker)
  {
    var h := HitTrades(px, day, ps);
    HitTradesAre(px, day, ps);
    HitOnce(px, day, ps);
    OnlyThat(ps, p);
    hide Unique, HitTrades, Hit;
    var z := was + h;
    if Hit(px, day, p) {
      var k :| 0 <= k < |h| && h[k] == StopTrade(day, p);
      assert z[|was| + k] == h[k];
      forall j | |was| <= j < |z| && j != |was| + k ensures z[j].ticker != p.ticker {
        assert z[j] == h[j - |was|];
      }
    } else {
      forall j | |was| <= j < |z| ensures z[j].ticker != p.ticker {
        assert z[j] == h[j - |was|] && h[j - |was|] in h;
      }
    }
  }

  /**
   A position open after a day's entries is closed that day if and only if
   its ticker has a bar whose low is at or under 0.92 of its entry price: it
   is then gone, by exactly one trade of its ticker, at 0.92 of entry.
   Otherwise it is still held as it was, and its ticker does not trade again.
   */
  lemma StopFires(px: Prices, tickers: seq<Ticker>, capital: real, cap: real, days: seq<int>, day: int, p: Position)
    requires AllSorted(px) && p in AtOpen(px, cap, day, Run(px, tickers, capital, cap, days)).positions
    ensures var s2, z := AtOpen(px, cap, day, Run(px, tickers, capital, cap, days)), Run(px, tickers, capital, cap, days + [day]);
            && s2.trades <= z.trades
            && (p in z.positions <==> !Hit(px, day, p))
            && (Hit(px, day, p) ==> SoldOnce(z.trades, |s2.trades|, day, p) && forall q :: q in z.positions ==> q.ticker != p.ticker)
            && (!Hit(px, day, p) ==> NotSold(z.trades, |s2.trades|, p.ticker))
  {
    var ps := AtOpen(px, cap, day, Run(px, tickers, capital, cap, days)).positions;
    StopsExactly(px, tickers, capital, cap, days, day);
    OpenAtOpen(px, tickers, capital, cap, days, day);
    UnhitAreThere(px, day, ps);
    OnlyThat(ps, p);
    hide AtOpen, Run, AllSorted, Unique, Unhit, HitTrades, Hit, SoldOnce, NotSold;
    SoldIfHit(px, day, AtOpen(px, cap, day, Run(px, tickers, capital, cap, days)).trades, ps, p);
  }

  lemma OnlyThat(ps: seq<Position>, p: Position)
    requires Unique(ps) && p in ps
    ensures forall q :: q in ps && q.ticker == p.ticker ==> q == p
  {
  }

  // ----- The exits -----

  /** Position `k` is of the ticker, and row `i` is the ticker's bar of the day. */
  ghost predicate MayExit(px: Prices, day: int, s: Sim, t: Ticker, i: int, k: int) {
    RowAt(px, t, day, i) && 0 <= k < |s.positions| && s.positions[k].ticker == t
  }

  /** The state after position `k` was sold at `open`. */
  function Exited(s: Sim, k: int, open: real, day: int): Sim
    requires 0 <= k < |s.positions|
  {
    var p := s.positions[k];
    s.(cash := s.cash + p.shares as real * open,
       positions := s.positions[..k] + s.positions[k + 1..],
       trades := s.trades + [Trade(p.ticker, p.entryDay, p.entryPrice, day, open, p.shares)])
  }

  lemma Without<T>(xs: seq<T>, k: nat)
    requires 0 < k < |xs|
    ensures [xs[0]] + (xs[1..][..k - 1] + xs[1..][k..]) == xs[..k] + xs[k + 1..]
  {
    assert xs[1..][..k - 1] == xs[1..k] && xs[1..][k..] == xs[k + 1..];
    assert [xs[0]] + xs[1..k] == xs[..k];
    Assoc([xs[0]], xs[1..k], xs[k + 1..]);
  }

  lemma {:induction false} TakenAt(ps: seq<Position>, k: nat)
    requires Unique(ps) && k < |ps|
    ensures PosOf(ps, ps[k].ticker) == Some(ps[k]) && Remove(ps, ps[k].ticker) == ps[..k] + ps[k + 1..]
    decreases k
  {
    PosOfAt(ps, k);
    hide PosOf;
    if k == 0 {
      assert ps[..0] + ps[1..] == ps[1..];
    } else {
      assert ps[0].ticker != ps[k].ticker;
      assert Unique(ps[1..]);
      TakenAt(ps[1..], k - 1);
      hide Unique;
      Without(ps, k);
    }
  }

  lemma ExitIf(px: Prices, day: int, s: Sim, t: Ticker, i: int, k: int)
    requires AllSorted(px) && Unique(s.positions) && MayExit(px, day, s, t, i, k)
    ensures ExitOne(px, day, s, t) == Exited(s, k, px[t][i].open, day)
  {
    hide Unique, AllSorted, RowOf, BarAt, PosOf, Remove;
    BarIsRow(px, t, day);
    TakenAt(s.positions, k);
  }

  lemma ExitOnlyIf(px: Prices, day: int, s: Sim, t: Ticker)
    requires AllSorted(px) && ExitOne(px, day, s, t) != s
    ensures exists i, k :: MayExit(px, day, s, t, i, k)
  {
    BarIsRow(px, t, day);
    Absent(s.positions, t);
    hide RowOf, BarAt, PosOf, Remove;
    var k :| 0 <= k < |s.positions| && s.positions[k].ticker == t;
    assert MayExit(px, day, s, t, RowOf(BarsOf(px, t), day).value, k);
  }

  lemma ExitsUnique(px: Prices, tickers: seq<Ticker>, capital: real, cap: real, days: seq<int>, day: int, ts: seq<Ticker>)
    ensures Unique(Exits(px, day, Run(px, tickers, capital, cap, days), ts).positions)
  {
    hide Run, Exits, Unique, Wealth, SeqSum;
    BooksBalance(px, tickers, capital, cap, days);
    ExitsKeep(px, day, Run(px, tickers, capital, cap, days), ts);
  }

  /**
   The exits of a day, one at a time in the order they were scheduled: a
   ticker that is held and has a bar is sold whole at the bar's open, and
   any other exit does nothing.
   */
  lemma ExitsExactly(px: Prices, tickers: seq<Ticker>, capital: real, cap: real, days: seq<int>, day: int, j: nat)
    requires AllSorted(px) && j < |On(Run(px, tickers, capital, cap, days).exits, day)|
    ensures var s := Run(px, tickers, capital, cap, days);
            var out := On(s.exits, day);
            var a, z, t := Exits(px, day, s, out[..j]), Exits(px, day, s, out[..j + 1]), out[j];
            && (forall i, k :: MayExit(px, day, a, t, i, k) ==> z == Exited(a, k, px[t][i].open, day))
            && ((forall i, k :: !MayExit(px, day, a, t, i, k)) ==> z == a)
  {
    hide AllSorted, Run, ExitOne, Unique;
    var s := Run(px, tickers, capital, cap, days);
    var out := On(s.exits, day);
    assert out[..j + 1][..j] == out[..j];
    ExitsUnique(px, tickers, capital, cap, days, day, out[..j]);
    var a, t := Exits(px, day, s, out[..j]), out[j];
    forall i, k | MayExit(px, day, a, t, i, k) ensures ExitOne(px, day, a, t) == Exited(a, k, px[t][i].open, day) {
      ExitIf(px, day, a, t, i, k);
    }
    if ExitOne(px, day, a, t) != a { ExitOnlyIf(px, day, a, t); }
  }

  // ----- The signals -----

  function CloseOf(b: Bar): real { b.close }

  function VolumeOf(b: Bar): real { b.volume }

  lemma {:induction false} SumsAreSums(bars: seq<Bar>, i: nat, n: nat)
    requires n <= i + 1 <= |bars|
    ensures CloseSum(bars, i, n) == SeqSum(bars[i + 1 - n..i + 1], CloseOf)
    ensures VolumeSum(bars, i, n) == SeqSum(bars[i + 1 - n..i + 1], VolumeOf)
    decreases n
  {
    if n > 0 {
      var w := bars[i + 1 - n..i + 1];
      SumsAreSums(bars, i, n - 1);
      assert w[1..] == bars[i + 2 - n..i + 1];
      SeqSumFront(w, CloseOf);
      SeqSumFront(w, VolumeOf);
    }
  }

  /** The close is under the mean of the last twenty. */
  ghost predicate SellRow(bars: seq<Bar>, i: int) {
    19 <= i < |bars| && 20.0 * bars[i].close < SeqSum(bars[i - 19..i + 1], CloseOf)
  }

  /** The close is over the means of the last twenty and the last fifty, on more than one and a half times the mean volume. */
  ghost predicate BuyRow(bars: seq<Bar>, i: int) {
    && 49 <= i < |bars|
    && 20.0 * bars[i].close > SeqSum(bars[i - 19..i + 1], CloseOf)
    && 50.0 * bars[i].close > SeqSum(bars[i - 49..i + 1], CloseOf)
    && 20.0 * bars[i].volume > 1.5 * SeqSum(bars[i - 19..i + 1], VolumeOf)
  }

  lemma SignalsAreRows(bars: seq<Bar>, i: nat)
    requires i < |bars|
    ensures SellSignal(bars, i) <==> SellRow(bars, i)
    ensures BuySignal(bars, i) <==> BuyRow(bars, i)
  {
    hide SeqSum, CloseSum, VolumeSum;
    if i >= 19 { SumsAreSums(bars, i, 20); }
    if i >= 49 { SumsAreSums(bars, i, 50); }
  }

  ghost predicate IsHeld(ps: seq<Position>, t: Ticker) {
    exists k :: 0 <= k < |ps| && ps[k].ticker == t
  }

  /** On day `day` the ticker's bar signals a sell, and its next bar is of day `d`. */
  ghost predicate SellsFor(px: Prices, day: int, d: int, t: Ticker) {
    exists i :: RowAt(px, t, day, i) && SellRow(px[t], i) && i + 1 < |px[t]| && px[t][i + 1].day == d
  }

  ghost predicate BuysFor(px: Prices, day: int, d: int, t: Ticker) {
    exists i :: RowAt(px, t, day, i) && BuyRow(px[t], i) && i + 1 < |px[t]| && px[t][i + 1].day == d
  }

  /** The listed tickers that are held and signal a sell for day `d`, in order. */
  ghost function ExitsFor(px: Prices, day: int, d: int, ps: seq<Position>, ts: seq<Ticker>): seq<Ticker> {
    if ts == [] then []
    else
      var t := ts[|ts| - 1];
      ExitsFor(px, day, d, ps, ts[..|ts| - 1]) + if IsHeld(ps, t) && SellsFor(px, day, d, t) then [t] else []
  }

  /** The listed tickers that are not held and signal a buy for day `d`, in order. */
  ghost function EntriesFor(px: Prices, day: int, d: int, ps: seq<Position>, ts: seq<Ticker>): seq<Ticker> {
    if ts == [] then []
    else
      var t := ts[|ts| - 1];
      EntriesFor(px, day, d, ps, ts[..|ts| - 1]) + if !IsHeld(ps, t) && BuysFor(px, day, d, t) then [t] else []
  }

  lemma SignalsNamed(px: Prices, day: int, d: int, t: Ticker)
    requires AllSorted(px)
    ensures SellsFor(px, day, d, t) <==> Sells(px, t, day) && NextDay(px, t, day) == Some(d)
    ensures BuysFor(px, day, d, t) <==> Buys(px, t, day) && NextDay(px, t, day) == Some(d)
    ensures Sells(px, t, day) || Buys(px, t, day) ==> BarAt(px, t, day).Some?
  {
    BarIsRow(px, t, day);
    var r := RowOf(BarsOf(px, t), day);
    if r.Some? { SignalsAreRows(px[t], r.value); }
    hide SellRow, BuyRow, SellSignal, BuySignal, RowOf, AllSorted;
  }

  lemma SignalOneExactly(px: Prices, day: int, s: Sim, t: Ticker, d: int)
    requires AllSorted(px)
    ensures var z := SignalOne(px, day, s, t);
            && On(z.exits, d) == On(s.exits, d) + (if IsHeld(s.positions, t) && SellsFor(px, day, d, t) then [t] else [])
            && On(z.entries, d) == On(s.entries, d) + if !IsHeld(s.positions, t) && BuysFor(px, day, d, t) then [t] else []
  {
    SignalsNamed(px, day, d, t);
    Absent(s.positions, t);
    assert Held(s.positions, t) <==> IsHeld(s.positions, t);
    hide SellsFor, BuysFor, PosOf, Sells, Buys, NextDay, BarAt, AllSorted, IsHeld;
  }

  lemma {:induction false} SignalsSoFar(px: Prices, day: int, s: Sim, ts: seq<Ticker>, d: int)
    requires AllSorted(px)
    ensures var z := Signals(px, day, s, ts);
            && On(z.exits, d) == On(s.exits, d) + ExitsFor(px, day, d, s.positions, ts)
            && On(z.entries, d) == On(s.entries, d) + EntriesFor(px, day, d, s.positions, ts)
    decreases |ts|
  {
    hide SignalOne, AllSorted, On, SellsFor, BuysFor, IsHeld;
    if ts != [] {
      var init, t := ts[..|ts| - 1], ts[|ts| - 1];
      SignalsSoFar(px, day, s, init, d);
      var mid := Signals(px, day, s, init);
      SignalsOnlySchedule(px, day, s, init);
      SignalOneExactly(px, day, mid, t, d);
    }
  }

  /**
   What a day of any run schedules: to each later day's exits it adds, in
   the order of the tickers, those that end the day held, close under their
   twenty-day mean and trade next on that day; to its entries those that end
   the day flat, pass the three buy conditions and trade next on that day.
   Nothing else is added, and nothing is taken away.
   */
  lemma ScheduledExactly(px: Prices, tickers: seq<Ticker>, capital: real, cap: real, days: seq<int>, day: int, d: int)
    requires AllSorted(px)
    ensures var s, z := Run(px, tickers, capital, cap, days), Run(px, tickers, capital, cap, days + [day]);
            && On(z.exits, d) == On(s.exits, d) + ExitsFor(px, day, d, z.positions, tickers)
            && On(z.entries, d) == On(s.entries, d) + EntriesFor(px, day, d, z.positions, tickers)
  {
    hide Run, Exits, Enters, Stops, Signals, AllSorted, ExitsFor, EntriesFor, On;
    var s := Run(px, tickers, capital, cap, days);
    ExitsOrders(px, day, s, Pending(s.exits, day));
    var s1 := Exits(px, day, s, Pending(s.exits, day));
    EntersOrders(px, cap, day, s1, Pending(s1.entries, day));
    var s2 := AtOpen(px, cap, day, s);
    StopsOrders(px, day, s2, s2.positions);
    var s3 := Stops(px, day, s2, s2.positions);
    OneMoreDay(px, tickers, capital, cap, days, day);
    SignalsOnlySchedule(px, day, s3, tickers);
    SignalsSoFar(px, day, s3, tickers, d);
  }

  // ----- The equity -----

  /** What a share of the ticker is marked at: the day's close, or the file's last close when the day has no bar. */
  ghost predicate Marks(px: Prices, day: int, t: Ticker, price: real) {
    && t in px && px[t] != []
    && if exists i :: RowAt(px, t, day, i) then exists i :: RowAt(px, t, day, i) && px[t][i].close == price
       else px[t][|px[t]| - 1].close == price
  }

  /** What a position has gained at a mark. */
  function Gain(p: Position, mark: real): real {
    (mark - p.entryPrice) * p.shares as real
  }

  /** The gains of open positions at the given marks. */
  function Gains(ps: seq<Position>, marks: seq<real>): real
    requires |ps| == |marks|
  {
    if ps == [] then 0.0
    else
      var l := |ps| - 1;
      Gains(ps[..l], marks[..l]) + Gain(ps[l], marks[l])
  }

  lemma MarkIs(px: Prices, day: int, p: Position, price: real)
    requires AllSorted(px) && Marks(px, day, p.ticker, price)
    ensures MarkOf(px, day, p) == CostOf(p) + Gain(p, price)
  {
    BarIsRow(px, p.ticker, day);
    GainIs(p, price);
    hide RowOf, BarAt, Value, AllSorted, Gain;
  }

  lemma GainIs(p: Position, price: real)
    ensures Value(p.shares, price) == CostOf(p) + Gain(p, price)
  {
  }

  lemma {:induction false} EquityIsGains(px: Prices, day: int, cash: real, ps: seq<Position>, marks: seq<real>)
    requires AllSorted(px) && |ps| == |marks| && forall i :: 0 <= i < |ps| ==> Marks(px, day, ps[i].ticker, marks[i])
    ensures Equity(px, day, cash, ps) == cash + SeqSum(ps, CostOf) + Gains(ps, marks)
    decreases |ps|
  {
    hide AllSorted, Marks, MarkOf, CostOf, Gain;
    if ps != [] {
      var l := |ps| - 1;
      EquityIsGains(px, day, cash, ps[..l], marks[..l]);
      MarkIs(px, day, ps[l], marks[l]);
    }
  }

  /**
   On every day of every run there is a mark for each open position, and the
   equity of the day is the starting capital plus the profit of the closed
   trades plus what the open shares have gained at their marks.
   */
  lemma EquityExactly(px: Prices, tickers: seq<Ticker>, capital: real, cap: real, days: seq<int>, marks: seq<real>)
    requires AllSorted(px) && days != []
    requires var ps := Run(px, tickers, capital, cap, days).positions;
             |marks| == |ps| && forall i :: 0 <= i < |ps| ==> Marks(px, days[|days| - 1], ps[i].ticker, marks[i])
    ensures var s, curve := Run(px, tickers, capital, cap, days), EquityCurve(px, tickers, capital, cap, days);
            |curve| == |days| && curve[|days| - 1] == capital + SeqSum(s.trades, Pnl) + Gains(s.positions, marks)
  {
    hide Run, AllSorted, SeqSum, Equity, Gains, Marks, Unique;
    CurveLength(px, tickers, capital, cap, days);
    var s := Run(px, tickers, capital, cap, days);
    BooksBalance(px, tickers, capital, cap, days);
    EquityIsGains(px, days[|days| - 1], s.cash, s.positions, marks);
  }

  lemma {:induction false} CurveLength(px: Prices, tickers: seq<Ticker>, capital: real, cap: real, days: seq<int>)
    ensures |EquityCurve(px, tickers, capital, cap, days)| == |days|
    decreases |days|
  {
    hide Run, Equity;
    if days != [] { CurveLength(px, tickers, capital, cap, days[..|days| - 1]); }
  }

  /** And there is such a mark for everything a run ever holds. */
  lemma MarksExist(px: Prices, tickers: seq<Ticker>, capital: real, cap: real, days: seq<int>, day: int, p: Position)
    requires AllSorted(px) && p in Run(px, tickers, capital, cap, days).positions
    ensures exists price :: Marks(px, day, p.ticker, price)
  {
    hide Run, AllSorted;
    EveryoneBought(px, tickers, capital, cap, days);
    assert Bought(px, cap, p);
    var bars := px[p.ticker];
    if i :| RowAt(px, p.ticker, day, i) {
      assert Marks(px, day, p.ticker, bars[i].close);
    } else {
      assert Marks(px, day, p.ticker, bars[|bars| - 1].close);
    }
  }
}
