/**
 The futures simulation of strategy 006 on five-minute bars: one contract
 long, short or flat, a fixed-fraction stop and target, a forced exit on the
 session's last bar.  Bands, ATR and RSI are input columns.
 */
module Sim006 {
  import opened Sums

  datatype Bar = Bar(
    high: real, low: real, close: real, session: int,
    upper: Option<real>, lower: Option<real>, atr: Option<real>, rsi: Option<real>)

  /** A round trip: its side (1 long, -1 short), entry and exit prices. */
  datatype Trip = Trip(side: int, entry: real, exit: real)

  datatype Sim = Sim(pos: int, entry: real, realized: real, roundTrips: nat, log: seq<Trip>)

  predicate Valid(b: Bar) {
    b.atr.Some? && b.rsi.Some?
  }

  predicate LongCross(prev: Bar, b: Bar) {
    Valid(b) && prev.upper.Some? && b.upper.Some? && prev.close <= prev.upper.value && b.close > b.upper.value && b.rsi.value > 55.0
  }

  predicate ShortCross(prev: Bar, b: Bar) {
    Valid(b) && prev.lower.Some? && b.lower.Some? && prev.close >= prev.lower.value && b.close < b.lower.value && b.rsi.value < 45.0
  }

  predicate IsLast(bars: seq<Bar>, i: nat)
    requires i < |bars|
  {
    i == |bars| - 1 || bars[i + 1].session != bars[i].session
  }

  function LongExit(entry: real, b: Bar, last: bool): Option<real> {
    if b.low <= entry * 0.995 then Some(entry * 0.995)
    else if b.high >= entry * 1.0075 then Some(entry * 1.0075)
    else if last then Some(b.close)
    else None
  }

  function ShortExit(entry: real, b: Bar, last: bool): Option<real> {
    if b.high >= entry * 1.005 then Some(entry * 1.005)
    else if b.low <= entry * (1.0 - 0.0075) then Some(entry * (1.0 - 0.0075))
    else if last then Some(b.close)
    else None
  }

  /** Points to money. */
  function Dollars(points: real, mult: real): real {
    points * mult
  }

  /** The exit part of one bar. */
  function Leave(mult: real, b: Bar, last: bool, s: Sim): Sim {
    var px := if s.pos == 1 then LongExit(s.entry, b, last) else if s.pos == -1 then ShortExit(s.entry, b, last) else None;
    if px.None? then s
    else
      var gain := if s.pos == 1 then px.value - s.entry else s.entry - px.value;
      s.(pos := 0, realized := s.realized + Dollars(gain, mult), roundTrips := s.roundTrips + 1, log := s.log + [Trip(s.pos, s.entry, px.value)])
  }

  /** The entry part: a bar that crosses both bands enters neither way. */
  function Join(prev: Bar, b: Bar, s: Sim): Sim {
    var long, short := LongCross(prev, b), ShortCross(prev, b);
    if s.pos != 0 || (long && short) then s
    else if long then s.(pos := 1, entry := b.close)
    else if short then s.(pos := -1, entry := b.close)
    else s
  }

  function Mark(mult: real, b: Bar, s: Sim): real {
    s.realized + if s.pos == 1 then Dollars(b.close - s.entry, mult) else if s.pos == -1 then Dollars(s.entry - b.close, mult) else 0.0
  }

  /** The state after bars `1 .. n - 1`; the first bar only provides the previous close. */
  function Run(mult: real, bars: seq<Bar>, n: nat): Sim
    requires n <= |bars|
  {
    if n <= 1 then Sim(0, 0.0, 0.0, 0, [])
    else Join(bars[n - 2], bars[n - 1], Leave(mult, bars[n - 1], IsLast(bars, n - 1), Run(mult, bars, n - 1)))
  }

  /** The marked curve over bars `1 .. n - 1`. */
  function Curve(mult: real, bars: seq<Bar>, n: nat): seq<real>
    requires n <= |bars|
  {
    if n <= 1 then [] else Curve(mult, bars, n - 1) + [Mark(mult, bars[n - 1], Run(mult, bars, n))]
  }

  method SimOne(mult: real, bars: seq<Bar>) returns (s: Sim, curve: seq<real>)
    ensures s == Run(mult, bars, |bars|) && curve == Curve(mult, bars, |bars|)
  {
    hide LongCross, ShortCross, LongExit, ShortExit, Dollars;
    s, curve := Sim(0, 0.0, 0.0, 0, []), [];
    if bars == [] { return; }
    var pos, entry, realized, roundTrips := 0, 0.0, 0.0, 0;
    var log: seq<Trip> := [];
    var i := 1;
    while i < |bars|
      invariant 1 <= i <= |bars|
      invariant Sim(pos, entry, realized, roundTrips, log) == Run(mult, bars, i)
      invariant curve == Curve(mult, bars, i)
    {
      var b, prev := bars[i], bars[i - 1];
      ghost var s0 := Sim(pos, entry, realized, roundTrips, log);
      var longSig, shortSig := LongCross(prev, b), ShortCross(prev, b);
      if longSig && shortSig {
        longSig, shortSig := false, false;
      }
      var isLast := i == |bars| - 1 || bars[i + 1].session != bars[i].session;
      if pos == 1 {
        var exitPx := LongExit(entry, b, isLast);
        if exitPx.Some? {
          log := log + [Trip(pos, entry, exitPx.value)];
          realized := realized + Dollars(exitPx.value - entry, mult);
          pos := 0;
          roundTrips := roundTrips + 1;
        }
      } else if pos == -1 {
        var exitPx := ShortExit(entry, b, isLast);
        if exitPx.Some? {
          log := log + [Trip(pos, entry, exitPx.value)];
          realized := realized + Dollars(entry - exitPx.value, mult);
          pos := 0;
          roundTrips := roundTrips + 1;
        }
      }
      ghost var s1 := Sim(pos, entry, realized, roundTrips, log);
      assert s1 == Leave(mult, b, IsLast(bars, i), s0);
      if pos == 0 {
        if longSig {
          pos := 1;
          entry := b.close;
        } else if shortSig {
          pos := -1;
          entry := b.close;
        }
      }
      assert Sim(pos, entry, realized, roundTrips, log) == Join(prev, b, s1);
      ghost var z := Sim(pos, entry, realized, roundTrips, log);
      assert Run(mult, bars, i + 1) == z;
      hide Leave, Join, Run;
      var unreal := 0.0;
      if pos == 1 {
        unreal := Dollars(b.close - entry, mult);
      } else if pos == -1 {
        unreal := Dollars(entry - b.close, mult);
      }
      assert realized + unreal == Mark(mult, b, z);
      curve := curve + [realized + unreal];
      i := i + 1;
    }
    s := Sim(pos, entry, realized, roundTrips, log);
  }

  // ----- Bounded loss -----

  ghost predicate ProperBars(bars: seq<Bar>) {
    forall i :: 0 <= i < |bars| ==> 0.0 <= bars[i].low <= bars[i].close <= bars[i].high
  }

  ghost predicate TripWithin(t: Trip) {
    && t.entry >= 0.0
    && (t.side == 1 ==> t.entry * 0.995 <= t.exit <= t.entry * 1.0075)
    && (t.side == -1 ==> t.entry * 0.9925 <= t.exit <= t.entry * 1.005)
    && (t.side == 1 || t.side == -1)
  }

  function Gain(t: Trip): real {
    if t.side == 1 then t.exit - t.entry else t.entry - t.exit
  }

  function TotalGain(log: seq<Trip>): real {
    if log == [] then 0.0 else TotalGain(log[..|log| - 1]) + Gain(log[|log| - 1])
  }

  function TotalEntry(log: seq<Trip>): real {
    if log == [] then 0.0 else TotalEntry(log[..|log| - 1]) + log[|log| - 1].entry
  }

  ghost predicate Sound(mult: real, s: Sim) {
    && s.entry >= 0.0 && (s.pos == 0 || s.pos == 1 || s.pos == -1)
    && s.roundTrips == |s.log|
    && (forall k :: 0 <= k < |s.log| ==> TripWithin(s.log[k]))
    && s.realized == Dollars(TotalGain(s.log), mult)
  }

  lemma LeaveSound(mult: real, b: Bar, last: bool, s: Sim)
    requires Sound(mult, s) && 0.0 <= b.low <= b.close <= b.high
    ensures Sound(mult, Leave(mult, b, last, s))
  {
    hide LongExit, ShortExit, TripWithin, TotalGain, Dollars, Gain;
    var px := if s.pos == 1 then LongExit(s.entry, b, last) else if s.pos == -1 then ShortExit(s.entry, b, last) else None;
    if px.Some? {
      var t := Trip(s.pos, s.entry, px.value);
      if s.pos == 1 { LongWithin(s.entry, b, last); } else { ShortWithin(s.entry, b, last); }
      GainMore(s.log, t, mult, s.realized);
      GainIs(t);
      WithinMore(s.log, t);
      assert Leave(mult, b, last, s).log == s.log + [t];
    }
  }

  lemma GainIs(t: Trip)
    ensures Gain(t) == if t.side == 1 then t.exit - t.entry else t.entry - t.exit
  {
  }

  lemma WithinMore(log: seq<Trip>, t: Trip)
    requires TripWithin(t) && forall k :: 0 <= k < |log| ==> TripWithin(log[k])
    ensures forall k :: 0 <= k < |log + [t]| ==> TripWithin((log + [t])[k])
  {
    hide TripWithin;
  }

  lemma LongWithin(entry: real, b: Bar, last: bool)
    requires entry >= 0.0 && b.low <= b.close <= b.high
    ensures LongExit(entry, b, last).Some? ==> TripWithin(Trip(1, entry, LongExit(entry, b, last).value))
  {
  }

  lemma ShortWithin(entry: real, b: Bar, last: bool)
    requires entry >= 0.0 && b.low <= b.close <= b.high
    ensures ShortExit(entry, b, last).Some? ==> TripWithin(Trip(-1, entry, ShortExit(entry, b, last).value))
  {
  }

  /** One more round trip adds its gain, in money, to both sides. */
  lemma GainMore(log: seq<Trip>, t: Trip, mult: real, realized: real)
    requires realized == Dollars(TotalGain(log), mult)
    ensures realized + Dollars(Gain(t), mult) == Dollars(TotalGain(log + [t]), mult)
  {
    assert (log + [t])[..|log|] == log;
    hide Gain;
    Distribute(mult, TotalGain(log), Gain(t));
  }

  /**
   Over any run on proper bars: longs exit within [0.995, 1.0075] of entry,
   shorts within [0.9925, 1.005]; the realised figure is the multiplier times
   the gains of the round trips, one for one.
   */
  lemma {:induction false} BoundedTrips(mult: real, bars: seq<Bar>, n: nat)
    requires n <= |bars| && ProperBars(bars)
    ensures Sound(mult, Run(mult, bars, n))
    decreases n
  {
    if n > 1 {
      BoundedTrips(mult, bars, n - 1);
      var s := Run(mult, bars, n - 1);
      LeaveSound(mult, bars[n - 1], IsLast(bars, n - 1), s);
      hide Leave, Sound, LongCross, ShortCross;
      JoinSound(mult, bars[n - 2], bars[n - 1], Leave(mult, bars[n - 1], IsLast(bars, n - 1), s));
    }
  }

  lemma JoinSound(mult: real, prev: Bar, b: Bar, s: Sim)
    requires Sound(mult, s) && b.close >= 0.0
    ensures Sound(mult, Join(prev, b, s))
  {
    hide LongCross, ShortCross, TotalGain;
  }

  lemma {:induction false} GainsBounded(log: seq<Trip>)
    requires forall k :: 0 <= k < |log| ==> TripWithin(log[k])
    ensures -0.005 * TotalEntry(log) <= TotalGain(log) <= 0.0075 * TotalEntry(log)
    decreases |log|
  {
    if log != [] {
      GainsBounded(log[..|log| - 1]);
      assert TripWithin(log[|log| - 1]);
    }
  }

  /** Realised profit is within half a percent down and three quarters of a percent up of what was traded. */
  lemma RealisedBounds(mult: real, bars: seq<Bar>)
    requires ProperBars(bars) && mult >= 0.0
    ensures RealisedWithin(mult, Run(mult, bars, |bars|))
  {
    hide Sound, RealisedWithin;
    BoundedTrips(mult, bars, |bars|);
    SoundIsBounded(mult, Run(mult, bars, |bars|));
  }

  ghost predicate RealisedWithin(mult: real, s: Sim) {
    -0.005 * TotalEntry(s.log) * mult <= s.realized <= 0.0075 * TotalEntry(s.log) * mult
  }

  lemma SoundIsBounded(mult: real, s: Sim)
    requires Sound(mult, s) && mult >= 0.0
    ensures RealisedWithin(mult, s)
  {
    GainsBounded(s.log);
    hide TotalGain, TotalEntry, TripWithin;
    ScaleBounds(TotalEntry(s.log), TotalGain(s.log), mult);
  }

  lemma ScaleBounds(a: real, g: real, m: real)
    requires -0.005 * a <= g <= 0.0075 * a && m >= 0.0
    ensures -0.005 * a * m <= g * m <= 0.0075 * a * m
  {
    Scale(-0.005 * a, g, m);
    Scale(g, 0.0075 * a, m);
  }

  lemma {:induction false} OneContract(mult: real, bars: seq<Bar>, n: nat)
    requires n <= |bars|
    ensures var pos := Run(mult, bars, n).pos; pos == 0 || pos == 1 || pos == -1
    decreases n
  {
    hide LongCross, ShortCross, LongExit, ShortExit, Dollars;
    if n > 1 { OneContract(mult, bars, n - 1); }
  }

  /** A run ends a session flat exactly when the session's last bar does not cross just one of its bands: a position entered there is carried over. */
  lemma FlatAtSessionEnd(mult: real, bars: seq<Bar>, i: nat)
    requires 1 <= i < |bars| && IsLast(bars, i)
    ensures Run(mult, bars, i + 1).pos == 0 <==> (LongCross(bars[i - 1], bars[i]) <==> ShortCross(bars[i - 1], bars[i]))
  {
    OneContract(mult, bars, i);
    hide LongCross, ShortCross, Dollars;
    assert Leave(mult, bars[i], true, Run(mult, bars, i)).pos == 0;
  }

  /** A position taken on the last bar of a session is carried into the next one: being flat at the close is not guaranteed. */
  lemma NotFlatAtSessionEnd()
    ensures exists bars: seq<Bar> :: ProperBars(bars) && |bars| == 2 && IsLast(bars, 1) && Run(1.0, bars, 2).pos == 1
  {
    var a := Bar(1.0, 1.0, 1.0, 0, Some(1.0), Some(0.0), Some(1.0), Some(60.0));
    var b := Bar(2.0, 2.0, 2.0, 0, Some(1.5), Some(0.0), Some(1.0), Some(60.0));
    var bars := [a, b];
    assert Run(1.0, bars, 1) == Sim(0, 0.0, 0.0, 0, []);
    assert LongCross(a, b) && !ShortCross(a, b);
    assert Run(1.0, bars, 2).pos == 1;
  }
}
