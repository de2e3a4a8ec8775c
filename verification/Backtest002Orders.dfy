/**
 Pending orders of the strategy 002 simulation.  A scheduled order always
 meets the state it was made for, at the ticker's very next open; the guards
 that skip an exit whose ticker is not held, an entry whose ticker is held, or
 either on a day the ticker does not trade, are for repeated tickers alone.
 */
module Backtest002Orders {
  import opened Sums
  import opened Backtest002
  import opened Backtest002Laws

  predicate Trades(px: Prices, t: Ticker, day: int) {
    BarAt(px, t, day).Some?
  }

  /** `next` is the first day after `now` on which the ticker trades. */
  ghost predicate FirstAfter(px: Prices, t: Ticker, now: int, next: int) {
    now < next && Trades(px, t, next) && forall d :: now < d < next ==> !Trades(px, t, d)
  }

  /** Orders still to come after day `now` fit the state. */
  ghost predicate Fits(px: Prices, s: Sim, now: int) {
    && (forall d, t :: d > now && t in Pending(s.exits, d) ==> Held(s.positions, t) && FirstAfter(px, t, now, d))
    && (forall d, t :: d > now && t in Pending(s.entries, d) ==> !Held(s.positions, t) && FirstAfter(px, t, now, d))
  }

  /** What `Fits` says when its next day comes: the order lists of that day match the state, and the rest do not trade. */
  ghost predicate Due(px: Prices, s: Sim, day: int) {
    && (forall t :: t in Pending(s.exits, day) ==> Held(s.positions, t) && Trades(px, t, day))
    && (forall t :: t in Pending(s.entries, day) ==> !Held(s.positions, t) && Trades(px, t, day))
    && (forall d, t :: d > day && t in Pending(s.exits, d) ==> Held(s.positions, t) && !Trades(px, t, day) && FirstAfter(px, t, day, d))
    && (forall d, t :: d > day && t in Pending(s.entries, d) ==> !Held(s.positions, t) && !Trades(px, t, day) && FirstAfter(px, t, day, d))
  }

  lemma ComesDue(px: Prices, s: Sim, now: int, day: int)
    requires Fits(px, s, now) && now < day
    ensures Due(px, s, day)
  {
    hide Pending, Held, Trades;
    forall d, t | d > day && (t in Pending(s.exits, d) || t in Pending(s.entries, d))
      ensures !Trades(px, t, day) && FirstAfter(px, t, day, d)
    {
      assert FirstAfter(px, t, now, d);
    }
    forall t | t in Pending(s.exits, day) || t in Pending(s.entries, day) ensures Trades(px, t, day) {
      assert FirstAfter(px, t, now, day);
    }
  }

  // ----- What the loops of a day leave alone -----

  ghost predicate SameOrders(s: Sim, z: Sim) {
    z.exits == s.exits && z.entries == s.entries
  }

  /** The trade a due exit makes: the held position, closed at the day's open. */
  function ExitTrade(px: Prices, day: int, ps: seq<Position>, t: Ticker): Trade {
    var p, bar := PosOf(ps, t), BarAt(px, t, day);
    if p.None? || bar.None? then Trade(t, 0, 0.0, day, 0.0, 0)
    else Trade(t, p.value.entryDay, p.value.entryPrice, day, bar.value.open, p.value.shares)
  }

  function ExitTrades(px: Prices, day: int, ps: seq<Position>, ts: seq<Ticker>): seq<Trade> {
    if ts == [] then [] else ExitTrades(px, day, ps, ts[..|ts| - 1]) + [ExitTrade(px, day, ps, ts[|ts| - 1])]
  }

  /** A due exit takes its ticker out, and nothing else. */
  lemma ExitOneLeaves(px: Prices, day: int, s: Sim, t: Ticker)
    requires Unique(s.positions) && Held(s.positions, t) && Trades(px, t, day)
    ensures var z := ExitOne(px, day, s, t);
            && SameOrders(s, z) && Unique(z.positions)
            && z.trades == s.trades + [ExitTrade(px, day, s.positions, t)]
            && forall u :: PosOf(z.positions, u) == if u == t then None else PosOf(s.positions, u)
  {
    hide Remove, BarAt, Value, Unique, PosOf;
    Removed(s.positions, t);
    assert !Held(ExitOne(px, day, s, t).positions, t);
  }

  /** An exit whose ticker is no longer held does nothing. */
  lemma ExitOneSkips(px: Prices, day: int, s: Sim, t: Ticker)
    requires !Held(s.positions, t)
    ensures ExitOne(px, day, s, t) == s
  {
  }

  /** After part of the exits list, exactly that part is no longer held. */
  lemma {:induction false} ExitsSoFar(px: Prices, day: int, s: Sim, ts: seq<Ticker>)
    requires Unique(s.positions)
    requires forall t :: t in ts ==> Held(s.positions, t) && Trades(px, t, day)
    ensures var z := Exits(px, day, s, ts);
            && SameOrders(s, z) && Unique(z.positions)
            && forall u :: PosOf(z.positions, u) == if u in ts then None else PosOf(s.positions, u)
    decreases |ts|
  {
    hide ExitOne, PosOf, Unique, Trades;
    if ts != [] {
      var init, t := ts[..|ts| - 1], ts[|ts| - 1];
      LastOf(ts);
      ExitsSoFar(px, day, s, init);
      var mid := Exits(px, day, s, init);
      if t in init { ExitOneSkips(px, day, mid, t); } else { ExitOneLeaves(px, day, mid, t); }
    }
  }

  lemma LastOf<T>(xs: seq<T>)
    requires xs != []
    ensures var l := |xs| - 1; xs[l] in xs && forall x :: x in xs <==> x in xs[..l] || x == xs[l]
  {
    assert xs == xs[..|xs| - 1] + [xs[|xs| - 1]];
  }

  /** A list without its repeats. */
  function Firsts(ts: seq<Ticker>): (r: seq<Ticker>)
    ensures forall t :: t in r <==> t in ts
  {
    if ts == [] then []
    else
      var init, t := ts[..|ts| - 1], ts[|ts| - 1];
      LastOf(ts);
      Firsts(init) + if t in init then [] else [t]
  }

  lemma SameExitTrade(px: Prices, day: int, ps: seq<Position>, qs: seq<Position>, t: Ticker)
    requires PosOf(ps, t) == PosOf(qs, t)
    ensures ExitTrade(px, day, ps, t) == ExitTrade(px, day, qs, t)
  {
  }

  /** Each of them was closed at the day's open, once. */
  lemma {:induction false} ExitsMade(px: Prices, day: int, s: Sim, ts: seq<Ticker>)
    requires Unique(s.positions)
    requires forall t :: t in ts ==> Held(s.positions, t) && Trades(px, t, day)
    ensures Exits(px, day, s, ts).trades == s.trades + ExitTrades(px, day, s.positions, Firsts(ts))
    decreases |ts|
  {
    hide ExitOne, PosOf, Unique, Trades, ExitTrade;
    if ts != [] {
      var init, t := ts[..|ts| - 1], ts[|ts| - 1];
      LastOf(ts);
      ExitsMade(px, day, s, init);
      ExitsSoFar(px, day, s, init);
      var mid := Exits(px, day, s, init);
      if t in init {
        ExitOneSkips(px, day, mid, t);
        assert Firsts(ts) == Firsts(init) + [] == Firsts(init);
      } else {
        ExitOneLeaves(px, day, mid, t);
        SameExitTrade(px, day, mid.positions, s.positions, t);
        MoreExitTrades(px, day, s.positions, Firsts(init), t);
        Assoc(s.trades, ExitTrades(px, day, s.positions, Firsts(init)), [ExitTrade(px, day, s.positions, t)]);
      }
    }
  }

  lemma MoreExitTrades(px: Prices, day: int, ps: seq<Position>, ts: seq<Ticker>, t: Ticker)
    ensures ExitTrades(px, day, ps, ts + [t]) == ExitTrades(px, day, ps, ts) + [ExitTrade(px, day, ps, t)]
  {
    hide ExitTrade;
    assert (ts + [t])[..|ts|] == ts;
  }

  lemma {:induction false} EntersLeave(px: Prices, cap: real, day: int, s: Sim, ts: seq<Ticker>)
    ensures var z := Enters(px, cap, day, s, ts);
            SameOrders(s, z) && z.trades == s.trades && forall u :: u !in ts ==> PosOf(z.positions, u) == PosOf(s.positions, u)
    decreases |ts|
  {
    if ts != [] {
      var l := |ts| - 1;
      EntersLeave(px, cap, day, s, ts[..l]);
      var mid, z := Enters(px, cap, day, s, ts[..l]), Enters(px, cap, day, s, ts);
      hide BarAt, Value, SharesFor;
      if z != mid {
        var p := z.positions[|mid.positions|];
        assert z.positions == mid.positions + [p];
        Appended(mid.positions, p);
        hide PosOf;
      }
    }
  }

  lemma {:induction false} StopsLeaveOthers(px: Prices, day: int, s: Sim, ps: seq<Position>)
    ensures var z := Stops(px, day, s, ps);
            && SameOrders(s, z) && s.trades <= z.trades
            && forall u :: !Trades(px, u, day) ==> PosOf(z.positions, u) == PosOf(s.positions, u)
    decreases |ps|
  {
    if ps != [] {
      var l := |ps| - 1;
      StopsLeaveOthers(px, day, s, ps[..l]);
      var mid := Stops(px, day, s, ps[..l]);
      Removed(mid.positions, ps[l].ticker);
      hide BarAt, Value, Remove, PosOf;
    }
  }

  /** Up to the close, a day changes no order, and no position of a ticker that does not trade. */
  lemma UpToClose(px: Prices, cap: real, day: int, s: Sim)
    requires Unique(s.positions) && Due(px, s, day)
    ensures var z := AfterStops(px, cap, day, s);
            && SameOrders(s, z)
            && (forall u :: !Trades(px, u, day) ==> PosOf(z.positions, u) == PosOf(s.positions, u))
            && s.trades + ExitTrades(px, day, s.positions, Firsts(Pending(s.exits, day))) <= z.trades
  {
    var out := Pending(s.exits, day);
    ExitsSoFar(px, day, s, out);
    ExitsMade(px, day, s, out);
    var s1 := Exits(px, day, s, out);
    EntersLeave(px, cap, day, s1, Pending(s1.entries, day));
    var s2 := AtOpen(px, cap, day, s);
    StopsLeaveOthers(px, day, s2, s2.positions);
    var z := AfterStops(px, cap, day, s);
    hide Exits, Enters, Stops, PosOf, Trades, ExitTrade, Unique;
  }

  // ----- Scheduling at the close -----

  lemma NextIsFirst(px: Prices, t: Ticker, day: int)
    requires Sorted(BarsOf(px, t)) && NextDay(px, t, day).Some?
    ensures Trades(px, t, day) && FirstAfter(px, t, day, NextDay(px, t, day).value)
  {
    var bars := BarsOf(px, t);
    var i := RowOf(bars, day).value;
    var next := bars[i + 1].day;
    forall d | day < d < next ensures !Trades(px, t, d) {
      assert forall k :: 0 <= k < |bars| ==> bars[k].day != d;
    }
    assert RowOf(bars, next).Some?;
  }

  /** The orders pending after some of the tickers have been looked at. */
  ghost predicate Pended(px: Prices, s: Sim, z: Sim, day: int, ts: seq<Ticker>) {
    && z.positions == s.positions
    && (forall d, t :: d > day && t in Pending(s.exits, d) ==> t in Pending(z.exits, d))
    && (forall d, t :: d > day && t in Pending(z.exits, d) && t !in Pending(s.exits, d)
          ==> t in ts && Held(s.positions, t) && NextDay(px, t, day) == Some(d))
    && (forall d, t :: d > day && t in Pending(z.entries, d) && t !in Pending(s.entries, d)
          ==> t in ts && !Held(s.positions, t) && NextDay(px, t, day) == Some(d))
  }

  /** The pending lists after one more order for `t` on day `d0`. */
  ghost predicate OneMore(m: map<int, seq<Ticker>>, z: map<int, seq<Ticker>>, d0: int, t: Ticker) {
    forall d :: Pending(z, d) == if d == d0 then Pending(m, d) + [t] else Pending(m, d)
  }

  lemma Scheduled(m: map<int, seq<Ticker>>, day: int, t: Ticker)
    ensures OneMore(m, Schedule(m, Some(day), t), day, t)
  {
  }

  lemma OneMoreHas(m: map<int, seq<Ticker>>, z: map<int, seq<Ticker>>, d0: int, t: Ticker)
    requires OneMore(m, z, d0, t)
    ensures forall d, u :: u in Pending(z, d) <==> u in Pending(m, d) || (d == d0 && u == t)
  {
    hide Pending;
  }

  /** One more exit for a held ticker keeps the pending lists in shape. */
  lemma PendExit(px: Prices, s: Sim, mid: Sim, z: Sim, day: int, ts: seq<Ticker>, t: Ticker, d0: int)
    requires Pended(px, s, mid, day, ts) && NextDay(px, t, day) == Some(d0) && z.positions == mid.positions
    requires Held(s.positions, t) && z.entries == mid.entries && OneMore(mid.exits, z.exits, d0, t)
    ensures Pended(px, s, z, day, ts + [t])
  {
    hide Pending, NextDay, PosOf, OneMore;
    OneMoreHas(mid.exits, z.exits, d0, t);
  }

  lemma PendEntry(px: Prices, s: Sim, mid: Sim, z: Sim, day: int, ts: seq<Ticker>, t: Ticker, d0: int)
    requires Pended(px, s, mid, day, ts) && NextDay(px, t, day) == Some(d0) && z.positions == mid.positions
    requires !Held(s.positions, t) && z.exits == mid.exits && OneMore(mid.entries, z.entries, d0, t)
    ensures Pended(px, s, z, day, ts + [t])
  {
    hide Pending, NextDay, PosOf, OneMore;
    OneMoreHas(mid.entries, z.entries, d0, t);
  }

  lemma PendMore(px: Prices, s: Sim, z: Sim, day: int, ts: seq<Ticker>, t: Ticker)
    requires Pended(px, s, z, day, ts)
    ensures Pended(px, s, z, day, ts + [t])
  {
    hide Pending, NextDay, PosOf;
  }

  /** Looking at one ticker schedules at most one order, for that ticker's next trading day. */
  lemma SignalCases(px: Prices, day: int, s: Sim, t: Ticker)
    ensures var z, next := SignalOne(px, day, s, t), NextDay(px, t, day);
            z.positions == s.positions
            && (z == s
                || (next.Some? && Held(s.positions, t) && z.entries == s.entries && OneMore(s.exits, z.exits, next.value, t))
                || (next.Some? && !Held(s.positions, t) && z.exits == s.exits && OneMore(s.entries, z.entries, next.value, t)))
  {
    hide NextDay, Buys, Sells, PosOf, BarAt, OneMore, Schedule;
    var next := NextDay(px, t, day);
    NothingToSchedule(s.exits, t);
    NothingToSchedule(s.entries, t);
    if next.Some? {
      Scheduled(s.exits, next.value, t);
      Scheduled(s.entries, next.value, t);
    }
  }

  lemma {:induction false} SignalsPend(px: Prices, day: int, s: Sim, ts: seq<Ticker>)
    ensures Pended(px, s, Signals(px, day, s, ts), day, ts)
    decreases |ts|
  {
    if ts == [] {
      hide Pending, NextDay, PosOf;
    } else {
      hide Pended, SignalOne;
      var init, t := ts[..|ts| - 1], ts[|ts| - 1];
      SignalsPend(px, day, s, init);
      assert ts == init + [t];
      OneSignal(px, day, s, Signals(px, day, s, init), init, t);
    }
  }

  lemma OneSignal(px: Prices, day: int, s: Sim, mid: Sim, ts: seq<Ticker>, t: Ticker)
    requires Pended(px, s, mid, day, ts)
    ensures Pended(px, s, SignalOne(px, day, mid, t), day, ts + [t])
  {
    assert mid.positions == s.positions;
    hide Pended, SignalOne, NextDay, PosOf, OneMore;
    var z, next := SignalOne(px, day, mid, t), NextDay(px, t, day);
    SignalCases(px, day, mid, t);
    PendMore(px, s, mid, day, ts, t);
    if z != mid {
      if Held(s.positions, t) { PendExit(px, s, mid, z, day, ts, t, next.value); } else { PendEntry(px, s, mid, z, day, ts, t, next.value); }
    }
  }

  lemma NothingToSchedule(m: map<int, seq<Ticker>>, t: Ticker)
    ensures Schedule(m, None, t) == m
  {
  }

  /** A day turns orders that fit into orders that fit. */
  lemma DayFits(px: Prices, tickers: seq<Ticker>, cap: real, now: int, day: int, s: Sim)
    requires Unique(s.positions) && Fits(px, s, now) && now < day && AllSorted(px)
    ensures Fits(px, Day(px, tickers, cap, day, s), day)
  {
    ComesDue(px, s, now, day);
    UpToClose(px, cap, day, s);
    var mid := AfterStops(px, cap, day, s);
    hide AfterStops, Signals, Fits, AllSorted, Unique, Trades, Pending, PosOf, ExitTrades, Due, Pended;
    SignalsPend(px, day, mid, tickers);
    FitsAfter(px, s, mid, Signals(px, day, mid, tickers), day, tickers);
  }

  lemma FitsAfter(px: Prices, s: Sim, mid: Sim, z: Sim, day: int, ts: seq<Ticker>)
    requires Due(px, s, day) && SameOrders(s, mid) && AllSorted(px)
    requires forall u :: !Trades(px, u, day) ==> PosOf(mid.positions, u) == PosOf(s.positions, u)
    requires Pended(px, mid, z, day, ts)
    ensures Fits(px, z, day)
  {
    hide NextDay, Pending, PosOf, Trades, FirstAfter, AllSorted;
    forall d, t | d > day && t in Pending(z.exits, d) ensures Held(z.positions, t) && FirstAfter(px, t, day, d) {
      ExitFits(px, s, mid, z, day, ts, d, t);
    }
    forall d, t | d > day && t in Pending(z.entries, d) ensures !Held(z.positions, t) && FirstAfter(px, t, day, d) {
      EntryFits(px, s, mid, z, day, ts, d, t);
    }
  }

  lemma ExitFits(px: Prices, s: Sim, mid: Sim, z: Sim, day: int, ts: seq<Ticker>, d: int, t: Ticker)
    requires Due(px, s, day) && SameOrders(s, mid) && AllSorted(px)
    requires forall u :: !Trades(px, u, day) ==> PosOf(mid.positions, u) == PosOf(s.positions, u)
    requires Pended(px, mid, z, day, ts) && d > day && t in Pending(z.exits, d)
    ensures Held(z.positions, t) && FirstAfter(px, t, day, d)
  {
    SortedAll(px);
    hide NextDay, Pending, PosOf, Trades, FirstAfter, AllSorted;
    if t in Pending(s.exits, d) { assert !Trades(px, t, day); } else { NextIsFirst(px, t, day); }
  }

  lemma EntryFits(px: Prices, s: Sim, mid: Sim, z: Sim, day: int, ts: seq<Ticker>, d: int, t: Ticker)
    requires Due(px, s, day) && SameOrders(s, mid) && AllSorted(px)
    requires forall u :: !Trades(px, u, day) ==> PosOf(mid.positions, u) == PosOf(s.positions, u)
    requires Pended(px, mid, z, day, ts) && d > day && t in Pending(z.entries, d)
    ensures !Held(z.positions, t) && FirstAfter(px, t, day, d)
  {
    SortedAll(px);
    hide NextDay, Pending, PosOf, Trades, FirstAfter, AllSorted;
    if t in Pending(s.entries, d) { assert !Trades(px, t, day); } else { NextIsFirst(px, t, day); }
  }

  lemma SortedAll(px: Prices)
    ensures AllSorted(px) ==> forall t :: Sorted(BarsOf(px, t))
  {
  }

  ghost predicate Increasing(days: seq<int>) {
    forall i, j :: 0 <= i < j < |days| ==> days[i] < days[j]
  }

  /** On every run, every pending exit is for a held ticker, every pending entry for a flat one, each on its ticker's next trading day. */
  lemma {:induction false} RunFits(px: Prices, tickers: seq<Ticker>, capital: real, cap: real, days: seq<int>)
    requires Increasing(days) && AllSorted(px)
    ensures Unique(Run(px, tickers, capital, cap, days).positions)
    ensures days != [] ==> Fits(px, Run(px, tickers, capital, cap, days), days[|days| - 1])
    ensures days == [] ==> forall now :: Fits(px, Run(px, tickers, capital, cap, days), now)
    decreases |days|
  {
    BooksBalance(px, tickers, capital, cap, days);
    if days == [] {
      NothingPending(px, capital);
    } else {
      var l := |days| - 1;
      Prefix(days, l);
      var now := if l == 0 then days[l] - 1 else days[l - 1];
      hide Day, Fits, Unique, AllSorted, SeqSum, Increasing;
      RunFits(px, tickers, capital, cap, days[..l]);
      DayFits(px, tickers, cap, now, days[l], Run(px, tickers, capital, cap, days[..l]));
    }
  }

  lemma NothingPending(px: Prices, capital: real)
    ensures forall now :: Fits(px, Sim(capital, [], [], map[], map[]), now)
  {
    hide Trades;
  }

  // ----- Which orders the guards skip -----

  /** When an exit of the list is reached its ticker is held exactly if the list did not have it before. */
  ghost predicate ExitsMeet(px: Prices, day: int, s: Sim, out: seq<Ticker>) {
    forall i :: 0 <= i < |out| ==> Trades(px, out[i], day) && (Held(Exits(px, day, s, out[..i]).positions, out[i]) <==> out[i] !in out[..i])
  }

  /** When an entry of the list is reached its ticker is flat unless the list had it before. */
  ghost predicate EntriesMeet(px: Prices, cap: real, day: int, s: Sim, come: seq<Ticker>) {
    forall i :: 0 <= i < |come| ==> Trades(px, come[i], day) && (Held(Enters(px, cap, day, s, come[..i]).positions, come[i]) ==> come[i] in come[..i])
  }

  /** The guards skip repeats within one list and nothing else, and every due order's ticker trades. */
  ghost predicate SkipsOnlyRepeats(px: Prices, cap: real, day: int, s: Sim) {
    var s1 := Exits(px, day, s, Pending(s.exits, day));
    ExitsMeet(px, day, s, Pending(s.exits, day)) && EntriesMeet(px, cap, day, s1, Pending(s1.entries, day))
  }

  /** On every run, whatever the list of tickers, the guards skip repeats within one list and nothing else. */
  lemma OnlyRepeatsSkip(px: Prices, tickers: seq<Ticker>, capital: real, cap: real, days: seq<int>, day: int)
    requires Increasing(days + [day]) && AllSorted(px)
    ensures SkipsOnlyRepeats(px, cap, day, Run(px, tickers, capital, cap, days))
  {
    var s := Run(px, tickers, capital, cap, days);
    var now := if days == [] then day - 1 else days[|days| - 1];
    assert forall i :: 0 <= i < |days| ==> (days + [day])[i] == days[i];
    assert (days + [day])[|days|] == day;
    RunFits(px, tickers, capital, cap, days);
    hide Run, Unique, AllSorted, Fits, Due, SkipsOnlyRepeats;
    ComesDue(px, s, now, day);
    RepeatsOn(px, cap, day, s);
  }

  lemma RepeatsOn(px: Prices, cap: real, day: int, s: Sim)
    requires Unique(s.positions) && Due(px, s, day)
    ensures SkipsOnlyRepeats(px, cap, day, s)
  {
    var out := Pending(s.exits, day);
    ExitsSoFar(px, day, s, out);
    hide Exits, Enters, Trades, PosOf, Unique, Pending, FirstAfter, ExitsMeet, EntriesMeet;
    MeetExits(px, day, s, out);
    MeetEntries(px, cap, day, Exits(px, day, s, out), Pending(s.entries, day));
  }

  lemma MeetExits(px: Prices, day: int, s: Sim, out: seq<Ticker>)
    requires Unique(s.positions) && forall t :: t in out ==> Held(s.positions, t) && Trades(px, t, day)
    ensures ExitsMeet(px, day, s, out)
  {
    hide Exits, Trades, PosOf, Unique;
    forall i | 0 <= i < |out| ensures Held(Exits(px, day, s, out[..i]).positions, out[i]) <==> out[i] !in out[..i] {
      assert out[i] in out;
      ExitsSoFar(px, day, s, out[..i]);
    }
  }

  lemma MeetEntries(px: Prices, cap: real, day: int, s: Sim, come: seq<Ticker>)
    requires forall t :: t in come ==> !Held(s.positions, t) && Trades(px, t, day)
    ensures EntriesMeet(px, cap, day, s, come)
  {
    hide Enters, Trades, PosOf;
    forall i | 0 <= i < |come| ensures Held(Enters(px, cap, day, s, come[..i]).positions, come[i]) ==> come[i] in come[..i] {
      assert come[i] in come;
      EntersLeave(px, cap, day, s, come[..i]);
    }
  }

  // ----- Distinct tickers -----

  /** The lists still to come have no repeats. */
  ghost predicate Once(s: Sim, now: int) {
    forall d :: d > now ==> NoDup(Pending(s.exits, d)) && NoDup(Pending(s.entries, d))
  }

  /** No pending list after the day has the ticker yet. */
  ghost predicate Unordered(z: Sim, day: int, t: Ticker) {
    forall d :: d > day ==> t !in Pending(z.exits, d) && t !in Pending(z.entries, d)
  }

  lemma StillUnordered(px: Prices, s: Sim, mid: Sim, day: int, ts: seq<Ticker>, t: Ticker)
    requires Pended(px, s, mid, day, ts) && t !in ts && Unordered(s, day, t)
    ensures Unordered(mid, day, t)
  {
    hide Pending, NextDay, PosOf;
  }

  lemma NoDupMore<T>(xs: seq<T>, x: T)
    requires NoDup(xs) && x !in xs
    ensures NoDup(xs + [x])
  {
  }

  lemma OneMoreNoDup(m: map<int, seq<Ticker>>, z: map<int, seq<Ticker>>, d0: int, t: Ticker, day: int)
    requires OneMore(m, z, d0, t) && forall d :: d > day ==> NoDup(Pending(m, d)) && t !in Pending(m, d)
    ensures forall d :: d > day ==> NoDup(Pending(z, d))
  {
    hide Pending, NoDup;
    forall d | d > day ensures NoDup(Pending(z, d)) {
      if d == d0 { NoDupMore(Pending(m, d), t); }
    }
  }

  lemma SignalOnce(px: Prices, day: int, s: Sim, t: Ticker)
    requires Once(s, day) && (NextDay(px, t, day).Some? ==> Unordered(s, day, t))
    ensures Once(SignalOne(px, day, s, t), day)
  {
    hide SignalOne, Pending, NextDay, PosOf, OneMore, NoDup;
    SignalCases(px, day, s, t);
    var z, next := SignalOne(px, day, s, t), NextDay(px, t, day);
    if z != s {
      if Held(s.positions, t) { OneMoreNoDup(s.exits, z.exits, next.value, t, day); } else { OneMoreNoDup(s.entries, z.entries, next.value, t, day); }
    }
  }

  lemma {:induction false} SignalsOnce(px: Prices, day: int, s: Sim, ts: seq<Ticker>)
    requires NoDup(ts) && Once(s, day) && forall t :: NextDay(px, t, day).Some? ==> Unordered(s, day, t)
    ensures Once(Signals(px, day, s, ts), day)
    decreases |ts|
  {
    hide SignalOne, NextDay, Unordered, Once;
    if ts != [] {
      var init, t := ts[..|ts| - 1], ts[|ts| - 1];
      LastIsNew(ts);
      SignalsOnce(px, day, s, init);
      SignalsPend(px, day, s, init);
      var mid := Signals(px, day, s, init);
      if NextDay(px, t, day).Some? { StillUnordered(px, s, mid, day, init, t); }
      SignalOnce(px, day, mid, t);
    }
  }

  lemma LastIsNew<T>(xs: seq<T>)
    requires xs != [] && NoDup(xs)
    ensures var l := |xs| - 1; NoDup(xs[..l]) && xs[l] !in xs[..l]
  {
  }

  /** What still comes after a day is for tickers that do not trade on it. */
  lemma DueUnordered(px: Prices, s: Sim, mid: Sim, day: int)
    requires Due(px, s, day) && SameOrders(s, mid)
    ensures forall t :: NextDay(px, t, day).Some? ==> Unordered(mid, day, t)
  {
    hide Pending, PosOf, FirstAfter;
    forall t | NextDay(px, t, day).Some? ensures Unordered(mid, day, t) {
      assert Trades(px, t, day);
    }
  }

  /** With distinct tickers no pending list of any run repeats one. */
  lemma {:induction false} RunOnce(px: Prices, tickers: seq<Ticker>, capital: real, cap: real, days: seq<int>)
    requires Increasing(days) && NoDup(tickers) && AllSorted(px)
    ensures days != [] ==> Once(Run(px, tickers, capital, cap, days), days[|days| - 1])
    ensures days == [] ==> forall now :: Once(Run(px, tickers, capital, cap, days), now)
    decreases |days|
  {
    if days != [] {
      var l := |days| - 1;
      Prefix(days, l);
      var now := if l == 0 then days[l] - 1 else days[l - 1];
      hide Day, Fits, Unique, AllSorted, Once, Increasing, NoDup;
      RunOnce(px, tickers, capital, cap, days[..l]);
      RunFits(px, tickers, capital, cap, days[..l]);
      DayOnce(px, tickers, cap, now, days[l], Run(px, tickers, capital, cap, days[..l]));
    }
  }

  lemma DayOnce(px: Prices, tickers: seq<Ticker>, cap: real, now: int, day: int, s: Sim)
    requires Unique(s.positions) && Fits(px, s, now) && Once(s, now) && now < day && NoDup(tickers)
    ensures Once(Day(px, tickers, cap, day, s), day)
  {
    ComesDue(px, s, now, day);
    UpToClose(px, cap, day, s);
    var mid := AfterStops(px, cap, day, s);
    hide AfterStops, Signals, Fits, Unique, Pending, PosOf, ExitTrades, Due, NoDup, Trades;
    DueUnordered(px, s, mid, day);
    hide NextDay, Unordered;
    SignalsOnce(px, day, mid, tickers);
  }

  /** None of the guards of a day takes effect: every due exit finds its ticker held, every due entry finds it flat, and both trade. */
  ghost predicate NoSkips(px: Prices, cap: real, day: int, s: Sim) {
    var out := Pending(s.exits, day);
    var s1 := Exits(px, day, s, out);
    var come := Pending(s1.entries, day);
    && (forall i :: 0 <= i < |out| ==> Held(Exits(px, day, s, out[..i]).positions, out[i]) && Trades(px, out[i], day))
    && (forall i :: 0 <= i < |come| ==> !Held(Enters(px, cap, day, s1, come[..i]).positions, come[i]) && Trades(px, come[i], day))
  }

  /** With distinct tickers the guards for an order that does not fit are dead on every run. */
  lemma SkipsAreDead(px: Prices, tickers: seq<Ticker>, capital: real, cap: real, days: seq<int>, day: int)
    requires Increasing(days + [day]) && NoDup(tickers) && AllSorted(px)
    ensures NoSkips(px, cap, day, Run(px, tickers, capital, cap, days))
  {
    var s := Run(px, tickers, capital, cap, days);
    var now := if days == [] then day - 1 else days[|days| - 1];
    OnlyRepeatsSkip(px, tickers, capital, cap, days, day);
    assert forall i :: 0 <= i < |days| ==> (days + [day])[i] == days[i];
    assert (days + [day])[|days|] == day;
    RunOnce(px, tickers, capital, cap, days);
    hide Run, Once, Increasing, AllSorted, NoDup, SkipsOnlyRepeats, NoSkips;
    NoRepeatsNoSkips(px, cap, now, day, s);
  }

  lemma NoRepeatsNoSkips(px: Prices, cap: real, now: int, day: int, s: Sim)
    requires SkipsOnlyRepeats(px, cap, day, s)
    requires now < day && Once(s, now)
    ensures NoSkips(px, cap, day, s)
  {
    hide Enters, Exits, Trades, PosOf, Pending;
    var out := Pending(s.exits, day);
    SameEntries(px, day, s, out);
    assert NoDup(out) && NoDup(Pending(s.entries, day));
  }

  lemma {:induction false} SameEntries(px: Prices, day: int, s: Sim, ts: seq<Ticker>)
    ensures Exits(px, day, s, ts).entries == s.entries
    decreases |ts|
  {
    hide PosOf, BarAt;
    if ts != [] { SameEntries(px, day, s, ts[..|ts| - 1]); }
  }

  // ----- A scheduled exit fills at the very next open -----

  /** Looking at one ticker takes no pending exit away. */
  lemma SignalKeepsExit(px: Prices, day: int, s: Sim, u: Ticker, d: int, t: Ticker)
    requires t in Pending(s.exits, d)
    ensures t in Pending(SignalOne(px, day, s, u).exits, d)
  {
    hide PosOf, Sells, Buys, BarAt;
  }

  lemma SignalSells(px: Prices, day: int, s: Sim, t: Ticker)
    requires Held(s.positions, t) && Sells(px, t, day) && NextDay(px, t, day).Some?
    ensures t in Pending(SignalOne(px, day, s, t).exits, NextDay(px, t, day).value)
  {
    hide PosOf, RowOf, SellSignal;
  }

  /** The day's sell signal scheduled an exit: it is pending, for the ticker's next trading day. */
  lemma {:induction false} SellSchedules(px: Prices, day: int, s: Sim, ts: seq<Ticker>, t: Ticker)
    requires t in ts && Held(s.positions, t) && Sells(px, t, day) && NextDay(px, t, day).Some?
    ensures t in Pending(Signals(px, day, s, ts).exits, NextDay(px, t, day).value)
    decreases |ts|
  {
    hide SignalOne, Sells, NextDay, Pending, PosOf;
    var l := |ts| - 1;
    var init, mid := ts[..l], Signals(px, day, s, ts[..l]);
    SignalsOnlySchedule(px, day, s, init);
    if t == ts[l] {
      SignalSells(px, day, mid, t);
    } else {
      assert t in init;
      SellSchedules(px, day, s, init, t);
      SignalKeepsExit(px, day, mid, ts[l], NextDay(px, t, day).value, t);
    }
  }

  /** The ticker is held as `p`, and its exit is pending for day `d`. */
  ghost predicate Stands(s: Sim, t: Ticker, d: int, p: Position) {
    PosOf(s.positions, t) == Some(p) && t in Pending(s.exits, d)
  }

  lemma Prefix(days: seq<int>, m: nat)
    requires Increasing(days) && m <= |days|
    ensures Increasing(days[..m])
  {
  }

  /** Until the ticker trades again, its position and its pending exit stand. */
  lemma {:induction false} ExitStands(px: Prices, tickers: seq<Ticker>, capital: real, cap: real, days: seq<int>, k: nat, m: nat, t: Ticker, d: int, p: Position)
    requires Increasing(days) && AllSorted(px) && 0 < k <= m <= |days|
    requires forall i :: k <= i < m ==> days[i] < d && !Trades(px, t, days[i])
    requires Stands(Run(px, tickers, capital, cap, days[..k]), t, d, p)
    ensures Stands(Run(px, tickers, capital, cap, days[..m]), t, d, p)
    decreases m
  {
    hide Run, Day, Stands, Fits, AllSorted, Unique, Trades;
    if k < m {
      ExitStands(px, tickers, capital, cap, days, k, m - 1, t, d, p);
      LastDay(px, tickers, capital, cap, days, m - 1);
      Prefix(days, m - 1);
      assert days[m - 2] < days[m - 1];
      hide Increasing;
      RunFits(px, tickers, capital, cap, days[..m - 1]);
      StandsOneDay(px, tickers, cap, days[m - 2], days[m - 1], Run(px, tickers, capital, cap, days[..m - 1]), t, d, p);
    }
  }

  lemma StandsOneDay(px: Prices, tickers: seq<Ticker>, cap: real, now: int, day: int, s: Sim, t: Ticker, d: int, p: Position)
    requires Unique(s.positions) && Fits(px, s, now) && now < day < d && AllSorted(px)
    requires !Trades(px, t, day) && Stands(s, t, d, p)
    ensures Stands(Day(px, tickers, cap, day, s), t, d, p)
  {
    ComesDue(px, s, now, day);
    UpToClose(px, cap, day, s);
    var mid := AfterStops(px, cap, day, s);
    hide AfterStops, Signals, Fits, AllSorted, Unique, Trades, Pending, PosOf, ExitTrades, Due;
    SignalsPend(px, day, mid, tickers);
    KeepsOld(px, mid, Signals(px, day, mid, tickers), day, tickers, d, t);
  }

  lemma KeepsOld(px: Prices, mid: Sim, z: Sim, day: int, ts: seq<Ticker>, d: int, t: Ticker)
    requires Pended(px, mid, z, day, ts) && d > day && t in Pending(mid.exits, d)
    ensures t in Pending(z.exits, d) && z.positions == mid.positions
  {
    hide Pending, PosOf, NextDay;
  }

  /**
   If a held ticker gives a sell signal at the close of day `days[k]` and
   trades again on `days[m]`, the same position is still held on that
   morning, and is closed at that day's open.
   */
  lemma ScheduledExitFills(px: Prices, tickers: seq<Ticker>, capital: real, cap: real, days: seq<int>, k: nat, m: nat, t: Ticker)
    requires Increasing(days) && AllSorted(px) && k < m < |days| && t in tickers
    requires var s := Run(px, tickers, capital, cap, days[..k + 1]); Held(s.positions, t)
    requires Sells(px, t, days[k]) && NextDay(px, t, days[k]) == Some(days[m])
    ensures var s := Run(px, tickers, capital, cap, days[..k + 1]);
            var before := Run(px, tickers, capital, cap, days[..m]);
            && PosOf(before.positions, t) == PosOf(s.positions, t)
            && ExitTrade(px, days[m], s.positions, t) in Run(px, tickers, capital, cap, days[..m + 1]).trades
  {
    var s := Run(px, tickers, capital, cap, days[..k + 1]);
    SellPends(px, tickers, capital, cap, days, k, t);
    NextIsFirst(px, t, days[k]);
    hide Run, Sells, Unique, PosOf, Pending, NextDay, ExitTrade, Fits, AllSorted, Day;
    ExitStands(px, tickers, capital, cap, days, k + 1, m, t, days[m], PosOf(s.positions, t).value);
    hide Trades;
    FillsThatMorning(px, tickers, capital, cap, days, m, s.positions, t);
  }

  lemma FillsThatMorning(px: Prices, tickers: seq<Ticker>, capital: real, cap: real, days: seq<int>, m: nat, ps: seq<Position>, t: Ticker)
    requires Increasing(days) && AllSorted(px) && 0 < m < |days|
    requires var before := Run(px, tickers, capital, cap, days[..m]);
             t in Pending(before.exits, days[m]) && PosOf(before.positions, t) == PosOf(ps, t)
    ensures ExitTrade(px, days[m], ps, t) in Run(px, tickers, capital, cap, days[..m + 1]).trades
  {
    var before := Run(px, tickers, capital, cap, days[..m]);
    LastDay(px, tickers, capital, cap, days, m);
    SameExitTrade(px, days[m], ps, before.positions, t);
    hide Run, Unique, PosOf, Pending, ExitTrade, Fits, AllSorted, Day;
    RunFits(px, tickers, capital, cap, days[..m]);
    DueExitFills(px, tickers, cap, days[m - 1], days[m], before, t);
  }

  lemma SellPends(px: Prices, tickers: seq<Ticker>, capital: real, cap: real, days: seq<int>, k: nat, t: Ticker)
    requires k < |days| && t in tickers
    requires var s := Run(px, tickers, capital, cap, days[..k + 1]); Held(s.positions, t)
    requires Sells(px, t, days[k]) && NextDay(px, t, days[k]).Some?
    ensures t in Pending(Run(px, tickers, capital, cap, days[..k + 1]).exits, NextDay(px, t, days[k]).value)
  {
    hide Sells, NextDay, PosOf, Pending, AfterStops, Signals;
    assert days[..k + 1][..k] == days[..k];
    var mid := AfterStops(px, cap, days[k], Run(px, tickers, capital, cap, days[..k]));
    SignalsOnlySchedule(px, days[k], mid, tickers);
    SellSchedules(px, days[k], mid, tickers, t);
  }

  lemma DueExitFills(px: Prices, tickers: seq<Ticker>, cap: real, now: int, day: int, s: Sim, t: Ticker)
    requires Unique(s.positions) && Fits(px, s, now) && now < day && t in Pending(s.exits, day)
    ensures ExitTrade(px, day, s.positions, t) in Day(px, tickers, cap, day, s).trades
  {
    ComesDue(px, s, now, day);
    UpToClose(px, cap, day, s);
    var mid := AfterStops(px, cap, day, s);
    SignalsOnlySchedule(px, day, mid, tickers);
    hide AfterStops, Signals, Fits, Due, Unique, ExitTrades, ExitTrade, Pending, PosOf;
    var out := Firsts(Pending(s.exits, day));
    var i :| 0 <= i < |out| && out[i] == t;
    ExitTradesAt(px, day, s.positions, out, i);
    var made := s.trades + ExitTrades(px, day, s.positions, out);
    assert made[|s.trades| + i] == ExitTrade(px, day, s.positions, t);
    assert mid.trades[|s.trades| + i] == made[|s.trades| + i];
  }

  lemma LastDay(px: Prices, tickers: seq<Ticker>, capital: real, cap: real, days: seq<int>, m: nat)
    requires m < |days|
    ensures Run(px, tickers, capital, cap, days[..m + 1])
         == Day(px, tickers, cap, days[m], Run(px, tickers, capital, cap, days[..m]))
  {
    assert days[..m + 1][..m] == days[..m];
  }

  lemma {:induction false} ExitTradesAt(px: Prices, day: int, ps: seq<Position>, ts: seq<Ticker>, i: nat)
    requires i < |ts|
    ensures |ExitTrades(px, day, ps, ts)| == |ts| && ExitTrades(px, day, ps, ts)[i] == ExitTrade(px, day, ps, ts[i])
    decreases |ts|
  {
    hide ExitTrade;
    var l := |ts| - 1;
    if i < l { ExitTradesAt(px, day, ps, ts[..l], i); } else if l > 0 { ExitTradesAt(px, day, ps, ts[..l], 0); }
  }
}
