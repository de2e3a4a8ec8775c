/**
 Laws of the strategy 002 simulation that hold on every run: the books
 balance, cash never runs out, no more than two positions are open, and no
 price of a later day has any influence.
 */
module Backtest002Laws {
  import opened Sums
  import opened Backtest002

  // ----- Position lists -----

  ghost predicate Unique(ps: seq<Position>) {
    forall i, j :: 0 <= i < j < |ps| ==> ps[i].ticker != ps[j].ticker
  }

  lemma {:induction false} PosOfAt(ps: seq<Position>, i: nat)
    requires Unique(ps) && i < |ps|
    ensures PosOf(ps, ps[i].ticker) == Some(ps[i])
    decreases |ps|
  {
    if i > 0 { PosOfAt(ps[1..], i - 1); }
  }

  lemma {:induction false} Absent(ps: seq<Position>, t: Ticker)
    ensures !Held(ps, t) <==> forall i :: 0 <= i < |ps| ==> ps[i].ticker != t
    decreases |ps|
  {
    if ps != [] {
      Absent(ps[1..], t);
      assert forall i :: 1 <= i < |ps| ==> ps[i] == ps[1..][i - 1];
    }
  }

  lemma {:induction false} Removed(ps: seq<Position>, t: Ticker)
    ensures forall u :: u != t ==> PosOf(Remove(ps, t), u) == PosOf(ps, u)
    ensures forall p :: p in Remove(ps, t) ==> p in ps
    ensures |Remove(ps, t)| == |ps| - if Held(ps, t) then 1 else 0
    ensures Unique(ps) ==> Unique(Remove(ps, t)) && !Held(Remove(ps, t), t)
    decreases |ps|
  {
    if ps != [] {
      Removed(ps[1..], t);
      var r := Remove(ps[1..], t);
      if ps[0].ticker == t {
        Absent(ps[1..], t);
      } else {
        forall u | u != t ensures PosOf([ps[0]] + r, u) == PosOf(ps, u) { assert ([ps[0]] + r)[1..] == r; }
        assert ([ps[0]] + r)[1..] == r;
        if Unique(ps) {
          forall i | 0 <= i < |r| ensures r[i].ticker != ps[0].ticker {
            assert r[i] in ps[1..];
          }
        }
      }
    }
  }

  lemma {:induction false} Appended(ps: seq<Position>, p: Position)
    ensures forall u :: PosOf(ps + [p], u) == if Held(ps, u) then PosOf(ps, u) else if p.ticker == u then Some(p) else None
    ensures Unique(ps) && !Held(ps, p.ticker) ==> Unique(ps + [p])
    decreases |ps|
  {
    Absent(ps, p.ticker);
    if ps != [] {
      Appended(ps[1..], p);
      assert (ps + [p])[1..] == ps[1..] + [p];
    } else {
      assert [p][1..] == [];
    }
  }

  // ----- The books -----

  /** The entry value of a position. */
  function CostOf(p: Position): real {
    Value(p.shares, p.entryPrice)
  }

  lemma {:induction false} CostRemoved(ps: seq<Position>, t: Ticker)
    requires Held(ps, t)
    ensures SeqSum(Remove(ps, t), CostOf) == SeqSum(ps, CostOf) - CostOf(PosOf(ps, t).value)
    decreases |ps|
  {
    hide CostOf, SeqSum;
    SeqSumFront(ps, CostOf);
    if ps[0].ticker != t {
      CostRemoved(ps[1..], t);
      var rest := Remove(ps[1..], t);
      SeqSumFront([ps[0]] + rest, CostOf);
      assert ([ps[0]] + rest)[1..] == rest;
    }
  }

  /** Cash plus open shares at their entry prices, less the profit of closed trades. */
  function Wealth(s: Sim): real {
    s.cash + SeqSum(s.positions, CostOf) - SeqSum(s.trades, Pnl)
  }

  ghost predicate Open(s: Sim) {
    Unique(s.positions) && |s.positions| <= 2
  }

  lemma CloseKeeps(s: Sim, p: Position, day: int, price: real)
    requires Open(s) && PosOf(s.positions, p.ticker) == Some(p)
    ensures Open(Close(s, p, day, price)) && Wealth(Close(s, p, day, price)) == Wealth(s)
  {
    hide Value, Profit, Remove, SeqSum, Wealth, PosOf, Unique;
    Removed(s.positions, p.ticker);
    CloseWealth(s, p, day, price);
  }

  lemma CloseWealth(s: Sim, p: Position, day: int, price: real)
    requires PosOf(s.positions, p.ticker) == Some(p)
    ensures Wealth(Close(s, p, day, price)) == Wealth(s)
  {
    hide Value, Profit, Remove, SeqSum, PosOf;
    var tr := Trade(p.ticker, p.entryDay, p.entryPrice, day, price, p.shares);
    CostRemoved(s.positions, p.ticker);
    ProfitIsDifference(p.shares, p.entryPrice, price);
    SeqSumMore(s.trades, tr, Pnl);
  }

  lemma EnterKeeps(px: Prices, cap: real, day: int, s: Sim, t: Ticker)
    requires Open(s)
    ensures var z := EnterOne(px, cap, day, s, t); Open(z) && Wealth(z) == Wealth(s)
  {
    hide Value, BarAt, SharesFor;
    var z := EnterOne(px, cap, day, s, t);
    if z != s {
      var p := z.positions[|s.positions|];
      assert z.positions == s.positions + [p];
      Appended(s.positions, p);
      SeqSumMore(s.positions, p, CostOf);
    }
  }

  // ----- Folding a law over the loops of one day -----

  lemma {:induction false} ExitsKeep(px: Prices, day: int, s: Sim, ts: seq<Ticker>)
    requires Open(s)
    ensures var z := Exits(px, day, s, ts); Open(z) && Wealth(z) == Wealth(s)
    decreases |ts|
  {
    if ts != [] {
      var l := |ts| - 1;
      ExitsKeep(px, day, s, ts[..l]);
      var mid := Exits(px, day, s, ts[..l]);
      hide Close, BarAt, Wealth;
      if Held(mid.positions, ts[l]) && BarAt(px, ts[l], day).Some? {
        CloseKeeps(mid, PosOf(mid.positions, ts[l]).value, day, BarAt(px, ts[l], day).value.open);
      }
    }
  }

  lemma {:induction false} EntersKeep(px: Prices, cap: real, day: int, s: Sim, ts: seq<Ticker>)
    requires Open(s)
    ensures var z := Enters(px, cap, day, s, ts); Open(z) && Wealth(z) == Wealth(s)
    decreases |ts|
  {
    if ts != [] {
      EntersKeep(px, cap, day, s, ts[..|ts| - 1]);
      hide EnterOne, Wealth;
      EnterKeeps(px, cap, day, Enters(px, cap, day, s, ts[..|ts| - 1]), ts[|ts| - 1]);
    }
  }

  /** A stop touches only its own position. */
  lemma {:induction false} StopsLeave(px: Prices, day: int, s: Sim, ps: seq<Position>, t: Ticker)
    requires forall i :: 0 <= i < |ps| ==> ps[i].ticker != t
    ensures PosOf(Stops(px, day, s, ps).positions, t) == PosOf(s.positions, t)
    decreases |ps|
  {
    if ps != [] {
      StopsLeave(px, day, s, ps[..|ps| - 1], t);
      var mid := Stops(px, day, s, ps[..|ps| - 1]);
      Removed(mid.positions, ps[|ps| - 1].ticker);
      hide Remove, BarAt;
    }
  }

  lemma {:induction false} StopsKeep(px: Prices, day: int, s: Sim, i: nat)
    requires Open(s) && i <= |s.positions|
    ensures var z := Stops(px, day, s, s.positions[..i]); Open(z) && Wealth(z) == Wealth(s)
    decreases i
  {
    if i > 0 {
      var ps := s.positions[..i];
      assert ps[..i - 1] == s.positions[..i - 1];
      StopsKeep(px, day, s, i - 1);
      var mid, p := Stops(px, day, s, ps[..i - 1]), ps[i - 1];
      StopsLeave(px, day, s, ps[..i - 1], p.ticker);
      PosOfAt(s.positions, i - 1);
      hide Close, BarAt, Wealth;
      CloseKeeps(mid, p, day, p.stopPrice);
    }
  }

  lemma {:induction false} SignalsOnlySchedule(px: Prices, day: int, s: Sim, ts: seq<Ticker>)
    ensures var z := Signals(px, day, s, ts); z.cash == s.cash && z.positions == s.positions && z.trades == s.trades
    decreases |ts|
  {
    hide BarAt, Sells, Buys, NextDay, Schedule, PosOf;
    if ts != [] { SignalsOnlySchedule(px, day, s, ts[..|ts| - 1]); }
  }

  lemma DayKeeps(px: Prices, tickers: seq<Ticker>, cap: real, day: int, s: Sim)
    requires Open(s)
    ensures var z := Day(px, tickers, cap, day, s); Open(z) && Wealth(z) == Wealth(s)
  {
    hide Exits, Enters, Stops, Signals;
    var s1 := Exits(px, day, s, Pending(s.exits, day));
    ExitsKeep(px, day, s, Pending(s.exits, day));
    EntersKeep(px, cap, day, s1, Pending(s1.entries, day));
    var s2 := AtOpen(px, cap, day, s);
    StopsKeep(px, day, s2, |s2.positions|);
    assert s2.positions[..|s2.positions|] == s2.positions;
    SignalsOnlySchedule(px, day, AfterStops(px, cap, day, s), tickers);
  }

  /**
   On every run, at the end of every day: cash plus open shares at entry
   price is the starting capital plus the profit of the closed trades, and at
   most two positions are open, in different tickers.
   */
  lemma {:induction false} BooksBalance(px: Prices, tickers: seq<Ticker>, capital: real, cap: real, days: seq<int>)
    ensures var s := Run(px, tickers, capital, cap, days);
            s.cash + SeqSum(s.positions, CostOf) == capital + SeqSum(s.trades, Pnl) && Unique(s.positions) && |s.positions| <= 2
    decreases |days|
  {
    if days != [] {
      BooksBalance(px, tickers, capital, cap, days[..|days| - 1]);
      hide Day;
      DayKeeps(px, tickers, cap, days[|days| - 1], Run(px, tickers, capital, cap, days[..|days| - 1]));
    }
  }

  // ----- Solvency -----

  ghost predicate Sound(s: Sim) {
    && s.cash >= -TOLERANCE
    && forall p :: p in s.positions ==> p.shares > 0 && p.stopPrice >= 0.0
  }

  ghost predicate OpensNotNegative(px: Prices) {
    forall t, i :: t in px && 0 <= i < |px[t]| ==> px[t][i].open >= 0.0
  }

  lemma CloseSound(s: Sim, p: Position, day: int, price: real)
    requires Sound(s) && price >= 0.0 && p.shares > 0
    ensures Sound(Close(s, p, day, price))
  {
    ValueNotNegative(p.shares, price);
    Removed(s.positions, p.ticker);
    hide Value, Remove;
  }

  lemma {:induction false} ExitsSound(px: Prices, day: int, s: Sim, ts: seq<Ticker>)
    requires Sound(s) && OpensNotNegative(px)
    ensures Sound(Exits(px, day, s, ts))
    decreases |ts|
  {
    if ts != [] {
      var l := |ts| - 1;
      ExitsSound(px, day, s, ts[..l]);
      var mid := Exits(px, day, s, ts[..l]);
      hide Close;
      if Held(mid.positions, ts[l]) && BarAt(px, ts[l], day).Some? {
        CloseSound(mid, PosOf(mid.positions, ts[l]).value, day, BarAt(px, ts[l], day).value.open);
      }
    }
  }

  lemma {:induction false} EntersSound(px: Prices, cap: real, day: int, s: Sim, ts: seq<Ticker>)
    requires Sound(s)
    ensures Sound(Enters(px, cap, day, s, ts))
    decreases |ts|
  {
    if ts != [] {
      EntersSound(px, cap, day, s, ts[..|ts| - 1]);
      hide Value, BarAt, SharesFor;
    }
  }

  lemma {:induction false} StopsSound(px: Prices, day: int, s: Sim, ps: seq<Position>)
    requires Sound(s) && forall p :: p in ps ==> p.shares > 0 && p.stopPrice >= 0.0
    ensures Sound(Stops(px, day, s, ps))
    decreases |ps|
  {
    if ps != [] {
      StopsSound(px, day, s, ps[..|ps| - 1]);
      hide Close, BarAt;
      CloseSound(Stops(px, day, s, ps[..|ps| - 1]), ps[|ps| - 1], day, ps[|ps| - 1].stopPrice);
    }
  }

  /** With opens that are not negative, cash never falls below the rounding tolerance. */
  lemma {:induction false} AlwaysSolvent(px: Prices, tickers: seq<Ticker>, capital: real, cap: real, days: seq<int>)
    requires OpensNotNegative(px) && capital >= -TOLERANCE
    ensures Sound(Run(px, tickers, capital, cap, days))
    decreases |days|
  {
    if days != [] {
      var s, day := Run(px, tickers, capital, cap, days[..|days| - 1]), days[|days| - 1];
      AlwaysSolvent(px, tickers, capital, cap, days[..|days| - 1]);
      hide Exits, Enters, Stops, Signals;
      ExitsSound(px, day, s, Pending(s.exits, day));
      var s1 := Exits(px, day, s, Pending(s.exits, day));
      EntersSound(px, cap, day, s1, Pending(s1.entries, day));
      var s2 := AtOpen(px, cap, day, s);
      StopsSound(px, day, s2, s2.positions);
      SignalsOnlySchedule(px, day, AfterStops(px, cap, day, s), tickers);
    }
  }

  /** Where cash and positions are in order: the books balance, two distinct positions at most, and cash within the tolerance. */
  ghost predicate InOrder(s: Sim, capital: real) {
    Open(s) && Wealth(s) == capital && Sound(s)
  }

  /** The same at every point of every day: after each exit, each entry and each stop. */
  lemma InOrderThroughout(px: Prices, tickers: seq<Ticker>, capital: real, cap: real, days: seq<int>, day: int, i: nat, j: nat, k: nat)
    requires OpensNotNegative(px) && capital >= -TOLERANCE
    requires var s := Run(px, tickers, capital, cap, days);
             var s1, s2 := Exits(px, day, s, Pending(s.exits, day)), AtOpen(px, cap, day, s);
             i <= |Pending(s.exits, day)| && j <= |Pending(s1.entries, day)| && k <= |s2.positions|
    ensures var s := Run(px, tickers, capital, cap, days);
            var s1, s2 := Exits(px, day, s, Pending(s.exits, day)), AtOpen(px, cap, day, s);
            && InOrder(Exits(px, day, s, Pending(s.exits, day)[..i]), capital)
            && InOrder(Enters(px, cap, day, s1, Pending(s1.entries, day)[..j]), capital)
            && InOrder(Stops(px, day, s2, s2.positions[..k]), capital)
  {
    hide Run, Exits, Enters, Stops, Pending, Open, Wealth, Sound, OpensNotNegative;
    var s := Run(px, tickers, capital, cap, days);
    EndOfDay(px, tickers, capital, cap, days);
    var out := Pending(s.exits, day);
    ExitsInOrder(px, day, s, out[..i], capital);
    ExitsInOrder(px, day, s, out, capital);
    var s1 := Exits(px, day, s, out);
    var come := Pending(s1.entries, day);
    EntersInOrder(px, cap, day, s1, come[..j], capital);
    EntersInOrder(px, cap, day, s1, come, capital);
    StopsInOrder(px, day, AtOpen(px, cap, day, s), k, capital);
  }

  lemma EndOfDay(px: Prices, tickers: seq<Ticker>, capital: real, cap: real, days: seq<int>)
    requires OpensNotNegative(px) && capital >= -TOLERANCE
    ensures InOrder(Run(px, tickers, capital, cap, days), capital)
  {
    hide Run, Sound, OpensNotNegative;
    BooksBalance(px, tickers, capital, cap, days);
    AlwaysSolvent(px, tickers, capital, cap, days);
  }

  lemma ExitsInOrder(px: Prices, day: int, s: Sim, ts: seq<Ticker>, capital: real)
    requires InOrder(s, capital) && OpensNotNegative(px)
    ensures InOrder(Exits(px, day, s, ts), capital)
  {
    hide Exits, Open, Wealth, Sound, OpensNotNegative;
    ExitsKeep(px, day, s, ts);
    ExitsSound(px, day, s, ts);
  }

  lemma EntersInOrder(px: Prices, cap: real, day: int, s: Sim, ts: seq<Ticker>, capital: real)
    requires InOrder(s, capital)
    ensures InOrder(Enters(px, cap, day, s, ts), capital)
  {
    hide Enters, Open, Wealth, Sound;
    EntersKeep(px, cap, day, s, ts);
    EntersSound(px, cap, day, s, ts);
  }

  lemma StopsInOrder(px: Prices, day: int, s: Sim, k: nat, capital: real)
    requires InOrder(s, capital) && k <= |s.positions|
    ensures InOrder(Stops(px, day, s, s.positions[..k]), capital)
  {
    hide Stops, Open, Wealth;
    StopsKeep(px, day, s, k);
    StopsSound(px, day, s, s.positions[..k]);
  }

  // ----- No look-ahead -----

  /** Same calendar, and the same bars up to day `d`. */
  ghost predicate AgreeUpTo(px: Prices, py: Prices, d: int) {
    forall t :: |BarsOf(px, t)| == |BarsOf(py, t)|
      && forall i :: 0 <= i < |BarsOf(px, t)| ==>
           BarsOf(px, t)[i].day == BarsOf(py, t)[i].day && (BarsOf(px, t)[i].day <= d ==> BarsOf(px, t)[i] == BarsOf(py, t)[i])
  }

  ghost predicate Sorted(bars: seq<Bar>) {
    forall i, j :: 0 <= i < j < |bars| ==> bars[i].day < bars[j].day
  }

  lemma {:induction false} SameRow(a: seq<Bar>, b: seq<Bar>, day: int)
    requires |a| == |b| && forall i :: 0 <= i < |a| ==> a[i].day == b[i].day
    ensures RowOf(a, day) == RowOf(b, day)
    decreases |a|
  {
    if a != [] { SameRow(a[..|a| - 1], b[..|b| - 1], day); }
  }

  lemma {:induction false} SameSums(a: seq<Bar>, b: seq<Bar>, i: nat, n: nat)
    requires n <= i + 1 <= |a| && i + 1 <= |b| && forall k :: 0 <= k <= i ==> a[k] == b[k]
    ensures CloseSum(a, i, n) == CloseSum(b, i, n) && VolumeSum(a, i, n) == VolumeSum(b, i, n)
    decreases n
  {
    if n > 0 { SameSums(a, b, i, n - 1); }
  }

  /** Everything a day's loops read of a ticker depends on its bars up to that day only. */
  lemma SameReadings(px: Prices, py: Prices, t: Ticker, day: int)
    requires AgreeUpTo(px, py, day) && Sorted(BarsOf(px, t))
    ensures BarAt(px, t, day) == BarAt(py, t, day) && NextDay(px, t, day) == NextDay(py, t, day)
    ensures (Buys(px, t, day) <==> Buys(py, t, day)) && (Sells(px, t, day) <==> Sells(py, t, day))
  {
    var a, b := BarsOf(px, t), BarsOf(py, t);
    SameRow(a, b, day);
    var r := RowOf(a, day);
    if r.Some? {
      var i := r.value;
      assert forall k :: 0 <= k <= i ==> a[k].day <= day;
      if i + 1 >= 20 { SameSums(a, b, i, 20); }
      if i + 1 >= 50 { SameSums(a, b, i, 50); }
      hide CloseSum, VolumeSum, RowOf;
    }
  }

  ghost predicate AllSorted(px: Prices) {
    forall t :: Sorted(BarsOf(px, t))
  }

  /** The two histories read the same for the ticker on the day. */
  ghost predicate SameReading(px: Prices, py: Prices, t: Ticker, day: int) {
    && BarAt(px, t, day) == BarAt(py, t, day) && NextDay(px, t, day) == NextDay(py, t, day)
    && (Buys(px, t, day) <==> Buys(py, t, day)) && (Sells(px, t, day) <==> Sells(py, t, day))
  }

  lemma ReadSame(px: Prices, py: Prices, t: Ticker, day: int)
    requires AgreeUpTo(px, py, day) && AllSorted(px)
    ensures SameReading(px, py, t, day)
  {
    SameReadings(px, py, t, day);
  }

  lemma SameExitOne(px: Prices, py: Prices, day: int, s: Sim, t: Ticker)
    requires SameReading(px, py, t, day)
    ensures ExitOne(px, day, s, t) == ExitOne(py, day, s, t)
  {
    hide BarAt, NextDay, Buys, Sells, Close, PosOf;
  }

  lemma SameEnterOne(px: Prices, py: Prices, cap: real, day: int, s: Sim, t: Ticker)
    requires SameReading(px, py, t, day)
    ensures EnterOne(px, cap, day, s, t) == EnterOne(py, cap, day, s, t)
  {
    hide BarAt, NextDay, Buys, Sells, Value, SharesFor, PosOf;
  }

  lemma SameStopOne(px: Prices, py: Prices, day: int, s: Sim, p: Position)
    requires SameReading(px, py, p.ticker, day)
    ensures StopOne(px, day, s, p) == StopOne(py, day, s, p)
  {
    hide BarAt, NextDay, Buys, Sells, Close;
  }

  lemma SameSignalOne(px: Prices, py: Prices, day: int, s: Sim, t: Ticker)
    requires SameReading(px, py, t, day)
    ensures SignalOne(px, day, s, t) == SignalOne(py, day, s, t)
  {
    hide BarAt, NextDay, Buys, Sells, Schedule, PosOf;
  }

  lemma {:induction false} SameExits(px: Prices, py: Prices, day: int, s: Sim, ts: seq<Ticker>)
    requires AgreeUpTo(px, py, day) && AllSorted(px)
    ensures Exits(px, day, s, ts) == Exits(py, day, s, ts)
    decreases |ts|
  {
    hide ExitOne, AgreeUpTo, AllSorted, SameReading;
    if ts != [] {
      SameExits(px, py, day, s, ts[..|ts| - 1]);
      ReadSame(px, py, ts[|ts| - 1], day);
      SameExitOne(px, py, day, Exits(px, day, s, ts[..|ts| - 1]), ts[|ts| - 1]);
    }
  }

  lemma {:induction false} SameEnters(px: Prices, py: Prices, cap: real, day: int, s: Sim, ts: seq<Ticker>)
    requires AgreeUpTo(px, py, day) && AllSorted(px)
    ensures Enters(px, cap, day, s, ts) == Enters(py, cap, day, s, ts)
    decreases |ts|
  {
    hide EnterOne, AgreeUpTo, AllSorted, SameReading;
    if ts != [] {
      SameEnters(px, py, cap, day, s, ts[..|ts| - 1]);
      ReadSame(px, py, ts[|ts| - 1], day);
      SameEnterOne(px, py, cap, day, Enters(px, cap, day, s, ts[..|ts| - 1]), ts[|ts| - 1]);
    }
  }

  lemma {:induction false} SameStops(px: Prices, py: Prices, day: int, s: Sim, ps: seq<Position>)
    requires AgreeUpTo(px, py, day) && AllSorted(px)
    ensures Stops(px, day, s, ps) == Stops(py, day, s, ps)
    decreases |ps|
  {
    hide StopOne, AgreeUpTo, AllSorted, SameReading;
    if ps != [] {
      SameStops(px, py, day, s, ps[..|ps| - 1]);
      ReadSame(px, py, ps[|ps| - 1].ticker, day);
      SameStopOne(px, py, day, Stops(px, day, s, ps[..|ps| - 1]), ps[|ps| - 1]);
    }
  }

  lemma {:induction false} SameSignals(px: Prices, py: Prices, day: int, s: Sim, ts: seq<Ticker>)
    requires AgreeUpTo(px, py, day) && AllSorted(px)
    ensures Signals(px, day, s, ts) == Signals(py, day, s, ts)
    decreases |ts|
  {
    hide SignalOne, AgreeUpTo, AllSorted, SameReading;
    if ts != [] {
      SameSignals(px, py, day, s, ts[..|ts| - 1]);
      ReadSame(px, py, ts[|ts| - 1], day);
      SameSignalOne(px, py, day, Signals(px, day, s, ts[..|ts| - 1]), ts[|ts| - 1]);
    }
  }

  lemma SameDay(px: Prices, py: Prices, tickers: seq<Ticker>, cap: real, day: int, s: Sim)
    requires AgreeUpTo(px, py, day) && AllSorted(px)
    ensures Day(px, tickers, cap, day, s) == Day(py, tickers, cap, day, s)
  {
    hide Exits, Enters, Stops, Signals, AgreeUpTo, AllSorted;
    SameExits(px, py, day, s, Pending(s.exits, day));
    var s1 := Exits(px, day, s, Pending(s.exits, day));
    SameEnters(px, py, cap, day, s1, Pending(s1.entries, day));
    var s2 := AtOpen(px, cap, day, s);
    SameStops(px, py, day, s2, s2.positions);
    SameSignals(px, py, day, AfterStops(px, cap, day, s), tickers);
  }

  /**
   No look-ahead: two price histories with the same calendar that agree up
   to day `d` give the same cash, holdings, closed trades and pending orders
   through day `d`.
   */
  lemma {:induction false} NoLookAhead(px: Prices, py: Prices, tickers: seq<Ticker>, capital: real, cap: real, days: seq<int>, d: int)
    requires AllSorted(px) && AgreeUpTo(px, py, d)
    requires forall k :: 0 <= k < |days| ==> days[k] <= d
    ensures Run(px, tickers, capital, cap, days) == Run(py, tickers, capital, cap, days)
    decreases |days|
  {
    if days != [] {
      NoLookAhead(px, py, tickers, capital, cap, days[..|days| - 1], d);
      assert AgreeUpTo(px, py, days[|days| - 1]);
      hide AgreeUpTo, Day;
      SameDay(px, py, tickers, cap, days[|days| - 1], Run(px, tickers, capital, cap, days[..|days| - 1]));
    }
  }
}
