/**
 Which lists of tickers the guards of the strategy 002 simulation are for:
 they take no effect in any run exactly when the tickers are distinct.  A
 repeated ticker that gives one buy signal is scheduled twice.
 */
module Backtest002Repeats {
  import opened Sums
  import opened Backtest002
  import opened Backtest002Laws
  import opened Backtest002Orders

  // ----- A history with one buy signal, at its fiftieth close -----

  const SPIKE_DAY: nat := 49

  function SpikeBar(i: int): Bar {
    var v := if i < SPIKE_DAY then 1.0 else 2.0;
    Bar(i, 1.0, 1.0, v, v)
  }

  function Spike(): (bars: seq<Bar>)
    ensures |bars| == SPIKE_DAY + 2 && Sorted(bars)
    ensures forall i :: 0 <= i < |bars| ==> bars[i] == SpikeBar(i)
  {
    seq(SPIKE_DAY + 2, i => SpikeBar(i))
  }

  function SpikePrices(t: Ticker): Prices {
    map[t := Spike()]
  }

  const START := Sim(100.0, [], [], map[], map[])

  /** The days `0 .. n - 1`. */
  function FirstDays(n: nat): (days: seq<int>)
    ensures |days| == n && forall i :: 0 <= i < n ==> days[i] == i
  {
    seq(n, i => i)
  }

  lemma SpikeRow(i: nat)
    requires i < |Spike()|
    ensures RowOf(Spike(), i) == Some(i)
  {
    hide RowOf, Spike;
    assert Spike()[i].day == i;
  }

  lemma {:induction false} SpikeSums(n: nat)
    requires 1 <= n <= SPIKE_DAY + 1
    ensures CloseSum(Spike(), SPIKE_DAY, n) == (n + 1) as real == VolumeSum(Spike(), SPIKE_DAY, n)
    decreases n
  {
    hide Spike;
    if n > 1 {
      SpikeSums(n - 1);
    } else {
      assert CloseSum(Spike(), SPIKE_DAY, 0) == 0.0 == VolumeSum(Spike(), SPIKE_DAY, 0);
    }
  }

  lemma SpikeBuys(t: Ticker)
    ensures Buys(SpikePrices(t), t, SPIKE_DAY) && NextDay(SpikePrices(t), t, SPIKE_DAY) == Some(SPIKE_DAY + 1)
    ensures BarAt(SpikePrices(t), t, SPIKE_DAY).Some?
  {
    hide Spike, RowOf, CloseSum, VolumeSum;
    SpikeRow(SPIKE_DAY);
    SpikeSums(20);
    SpikeSums(50);
  }

  // ----- Nothing happens before it -----

  lemma NoBuyBefore(t: Ticker, u: Ticker, day: nat, s: Sim)
    requires day < SPIKE_DAY && s.positions == []
    ensures SignalOne(SpikePrices(t), day, s, u) == s
  {
    hide Spike, CloseSum, VolumeSum, RowOf;
    if u == t {
      SpikeRow(day);
    } else {
      NoBars(day);
    }
  }

  lemma NoBars(day: int)
    ensures RowOf([], day).None?
  {
  }

  lemma {:induction false} NoSignalBefore(t: Ticker, ts: seq<Ticker>, day: nat)
    requires day < SPIKE_DAY
    ensures Signals(SpikePrices(t), day, START, ts) == START
    decreases |ts|
  {
    hide SignalOne;
    if ts != [] {
      NoSignalBefore(t, ts[..|ts| - 1], day);
      NoBuyBefore(t, ts[|ts| - 1], day, START);
    }
  }

  lemma {:induction false} QuietSoFar(t: Ticker, ts: seq<Ticker>, n: nat)
    requires n <= SPIKE_DAY
    ensures Run(SpikePrices(t), ts, 100.0, 10.0, FirstDays(n)) == START
    decreases n
  {
    hide Signals, SpikePrices;
    if n > 0 {
      QuietSoFar(t, ts, n - 1);
      assert FirstDays(n)[..n - 1] == FirstDays(n - 1);
      NoSignalBefore(t, ts, n - 1);
      assert AfterStops(SpikePrices(t), 10.0, n - 1, START) == START;
    }
  }

  // ----- Every occurrence of the ticker is scheduled -----

  function Copies(ts: seq<Ticker>, t: Ticker): (r: seq<Ticker>)
    ensures forall u :: u in r ==> u == t
  {
    if ts == [] then [] else Copies(ts[..|ts| - 1], t) + if ts[|ts| - 1] == t then [t] else []
  }

  lemma {:induction false} TwoCopies(ts: seq<Ticker>, i: nat, j: nat)
    requires i < j < |ts| && ts[i] == ts[j]
    ensures |Copies(ts, ts[i])| >= 2
    decreases |ts|
  {
    var l := |ts| - 1;
    if j < l { TwoCopies(ts[..l], i, j); } else { OneCopy(ts[..l], i); }
  }

  lemma {:induction false} OneCopy(ts: seq<Ticker>, i: nat)
    requires i < |ts|
    ensures |Copies(ts, ts[i])| >= 1
    decreases |ts|
  {
    var l := |ts| - 1;
    if i < l { OneCopy(ts[..l], i); }
  }

  lemma {:induction false} AllScheduled(t: Ticker, ts: seq<Ticker>)
    ensures var z := Signals(SpikePrices(t), SPIKE_DAY, START, ts);
            z == START.(entries := z.entries) && Pending(z.entries, SPIKE_DAY + 1) == Copies(ts, t)
    decreases |ts|
  {
    hide SpikePrices, Buys, Sells, NextDay, BarAt;
    if ts != [] {
      var u := ts[|ts| - 1];
      AllScheduled(t, ts[..|ts| - 1]);
      if u == t { SpikeBuys(t); } else { OthersHaveNoBars(t, u); }
    }
  }

  lemma OthersHaveNoBars(t: Ticker, u: Ticker)
    requires u != t
    ensures BarAt(SpikePrices(t), u, SPIKE_DAY).None?
  {
    hide Spike;
    NoBars(SPIKE_DAY);
  }

  // ----- The second occurrence is skipped -----

  lemma SecondSkipped(t: Ticker, s: Sim)
    requires s == START.(entries := s.entries) && |Pending(s.entries, SPIKE_DAY + 1)| >= 2
    requires Pending(s.entries, SPIKE_DAY + 1)[0] == t == Pending(s.entries, SPIKE_DAY + 1)[1]
    ensures !NoSkips(SpikePrices(t), 10.0, SPIKE_DAY + 1, s)
  {
    var px, day := SpikePrices(t), SPIKE_DAY + 1;
    var come := Pending(s.entries, day);
    assert Exits(px, day, s, Pending(s.exits, day)) == s;
    FirstEnters(t, s);
    assert come[..1] == [t] && [t][..0] == [];
    assert Enters(px, 10.0, day, s, []) == s;
    assert Enters(px, 10.0, day, s, come[..1]) == EnterOne(px, 10.0, day, s, t);
    hide EnterOne, SpikePrices, Trades, PosOf;
    assert Held(Enters(px, 10.0, day, s, come[..1]).positions, come[1]);
  }

  lemma FirstEnters(t: Ticker, s: Sim)
    requires s == START.(entries := s.entries)
    ensures Held(EnterOne(SpikePrices(t), 10.0, SPIKE_DAY + 1, s, t).positions, t)
  {
    hide Spike, RowOf;
    SpikeRow(SPIKE_DAY + 1);
  }

  lemma SpikeInOrder(t: Ticker)
    ensures AllSorted(SpikePrices(t)) && Increasing(FirstDays(SPIKE_DAY + 1) + [SPIKE_DAY + 1])
  {
    hide Spike;
  }

  lemma SpikeRun(t: Ticker, ts: seq<Ticker>)
    ensures Run(SpikePrices(t), ts, 100.0, 10.0, FirstDays(SPIKE_DAY + 1)) == Signals(SpikePrices(t), SPIKE_DAY, START, ts)
  {
    hide Signals, SpikePrices;
    QuietSoFar(t, ts, SPIKE_DAY);
    assert FirstDays(SPIKE_DAY + 1)[..SPIKE_DAY] == FirstDays(SPIKE_DAY);
    assert AfterStops(SpikePrices(t), 10.0, SPIKE_DAY, START) == START;
  }

  lemma RepeatSkips(tickers: seq<Ticker>, i: nat, j: nat)
    requires i < j < |tickers| && tickers[i] == tickers[j]
    ensures var px, days := SpikePrices(tickers[i]), FirstDays(SPIKE_DAY + 1);
            && AllSorted(px) && Increasing(days + [SPIKE_DAY + 1])
            && !NoSkips(px, 10.0, SPIKE_DAY + 1, Run(px, tickers, 100.0, 10.0, days))
  {
    var t := tickers[i];
    var px, days := SpikePrices(t), FirstDays(SPIKE_DAY + 1);
    SpikeInOrder(t);
    hide Run, Signals, NoSkips, SpikePrices, FirstDays, AllSorted, Pending;
    SpikeRun(t, tickers);
    AllScheduled(t, tickers);
    TwoCopies(tickers, i, j);
    var s := Run(px, tickers, 100.0, 10.0, days);
    var come := Copies(tickers, t);
    assert come[0] in come && come[1] in come;
    SecondSkipped(t, s);
  }

  /** In no run of the tickers does any guard take effect. */
  ghost predicate NeverSkips(tickers: seq<Ticker>) {
    forall px: Prices, capital: real, cap: real, days: seq<int>, day: int ::
      AllSorted(px) && Increasing(days + [day]) ==> Clean(px, tickers, capital, cap, days, day)
  }

  ghost predicate Clean(px: Prices, tickers: seq<Ticker>, capital: real, cap: real, days: seq<int>, day: int) {
    NoSkips(px, cap, day, Run(px, tickers, capital, cap, days))
  }

  /** The guards are dead on every run exactly when the tickers are distinct. */
  lemma DeadExactlyWhenDistinct(tickers: seq<Ticker>)
    ensures NeverSkips(tickers) <==> NoDup(tickers)
  {
    hide Run, NoSkips, AllSorted, Increasing, SpikePrices, FirstDays;
    if NoDup(tickers) {
      forall px: Prices, capital: real, cap: real, days: seq<int>, day: int | AllSorted(px) && Increasing(days + [day])
        ensures Clean(px, tickers, capital, cap, days, day)
      {
        SkipsAreDead(px, tickers, capital, cap, days, day);
      }
    } else {
      var i, j :| 0 <= i < j < |tickers| && tickers[i] == tickers[j];
      RepeatSkips(tickers, i, j);
      assert !Clean(SpikePrices(tickers[i]), tickers, 100.0, 10.0, FirstDays(SPIKE_DAY + 1), SPIKE_DAY + 1);
    }
  }
}
