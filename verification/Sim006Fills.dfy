/**
 What each bar of the strategy 006 simulation does, said by the bar: when a
 position leaves and at what price, when one is taken, and the marked curve.
 */
module Sim006Fills {
  import opened Sums
  import opened Sim006

  /** The bar is the last of its session. */
  ghost predicate ClosesSession(bars: seq<Bar>, i: int) {
    0 <= i < |bars| && (i + 1 == |bars| || bars[i].session != bars[i + 1].session)
  }

  /** A long leaves at its stop half a percent down, else at its target three quarters of a percent up, else at the session's last close. */
  ghost predicate LongLeaves(bars: seq<Bar>, i: int, entry: real, price: real) {
    && 0 <= i < |bars|
    && var b := bars[i];
       || (b.low <= 0.995 * entry && price == 0.995 * entry)
       || (b.low > 0.995 * entry && b.high >= 1.0075 * entry && price == 1.0075 * entry)
       || (b.low > 0.995 * entry && b.high < 1.0075 * entry && ClosesSession(bars, i) && price == b.close)
  }

  /** A short leaves at its stop half a percent up, else at its target three quarters of a percent down, else at the session's last close. */
  ghost predicate ShortLeaves(bars: seq<Bar>, i: int, entry: real, price: real) {
    && 0 <= i < |bars|
    && var b := bars[i];
       || (b.high >= 1.005 * entry && price == 1.005 * entry)
       || (b.high < 1.005 * entry && b.low <= 0.9925 * entry && price == 0.9925 * entry)
       || (b.high < 1.005 * entry && b.low > 0.9925 * entry && ClosesSession(bars, i) && price == b.close)
  }

  ghost predicate Leaves(bars: seq<Bar>, i: int, s: Sim, price: real) {
    (s.pos == 1 && LongLeaves(bars, i, s.entry, price)) || (s.pos == -1 && ShortLeaves(bars, i, s.entry, price))
  }

  /** The close rises above its upper band from at or under it, with the index over 55. */
  ghost predicate BreaksUp(bars: seq<Bar>, i: int) {
    && 1 <= i < |bars| && bars[i].atr.Some? && bars[i].rsi.Some? && bars[i].upper.Some? && bars[i - 1].upper.Some?
    && bars[i - 1].close <= bars[i - 1].upper.value && bars[i].close > bars[i].upper.value && bars[i].rsi.value > 55.0
  }

  /** The close falls below its lower band from at or over it, with the index under 45. */
  ghost predicate BreaksDown(bars: seq<Bar>, i: int) {
    && 1 <= i < |bars| && bars[i].atr.Some? && bars[i].rsi.Some? && bars[i].lower.Some? && bars[i - 1].lower.Some?
    && bars[i - 1].close >= bars[i - 1].lower.value && bars[i].close < bars[i].lower.value && bars[i].rsi.value < 45.0
  }

  lemma CrossesAreBreaks(bars: seq<Bar>, i: nat)
    requires 1 <= i < |bars|
    ensures LongCross(bars[i - 1], bars[i]) <==> BreaksUp(bars, i)
    ensures ShortCross(bars[i - 1], bars[i]) <==> BreaksDown(bars, i)
  {
  }

  lemma ExitsAreLeaves(bars: seq<Bar>, i: nat, entry: real, price: real)
    requires i < |bars|
    ensures LongExit(entry, bars[i], IsLast(bars, i)) == Some(price) <==> LongLeaves(bars, i, entry, price)
    ensures ShortExit(entry, bars[i], IsLast(bars, i)) == Some(price) <==> ShortLeaves(bars, i, entry, price)
  {
  }

  /** Where the bar leaves the one contract: 1 long, -1 short, 0 flat. */
  ghost function Side(bars: seq<Bar>, i: int, held: int): int {
    if held != 0 then held
    else if BreaksUp(bars, i) && !BreaksDown(bars, i) then 1
    else if BreaksDown(bars, i) && !BreaksUp(bars, i) then -1
    else 0
  }

  lemma LeaveIf(mult: real, bars: seq<Bar>, i: nat, s: Sim, price: real)
    requires i < |bars| && Leaves(bars, i, s, price)
    ensures Leave(mult, bars[i], IsLast(bars, i), s)
         == Sim(0, s.entry, s.realized + Dollars(s.pos as real * (price - s.entry), mult), s.roundTrips + 1, s.log + [Trip(s.pos, s.entry, price)])
  {
    ExitsAreLeaves(bars, i, s.entry, price);
    hide LongExit, ShortExit, LongLeaves, ShortLeaves, IsLast, Dollars;
    assert s.pos == 1 ==> s.pos as real * (price - s.entry) == price - s.entry;
    assert s.pos == -1 ==> s.pos as real * (price - s.entry) == s.entry - price;
  }

  lemma LeaveOnlyIf(mult: real, bars: seq<Bar>, i: nat, s: Sim)
    requires i < |bars| && Leave(mult, bars[i], IsLast(bars, i), s) != s
    ensures exists price :: Leaves(bars, i, s, price)
  {
    hide Dollars, LongLeaves, ShortLeaves, IsLast, LongExit, ShortExit;
    var last := IsLast(bars, i);
    var px := if s.pos == 1 then LongExit(s.entry, bars[i], last) else if s.pos == -1 then ShortExit(s.entry, bars[i], last) else None;
    ExitsAreLeaves(bars, i, s.entry, px.value);
    assert Leaves(bars, i, s, px.value);
  }

  lemma JoinIs(bars: seq<Bar>, i: nat, s: Sim)
    requires 1 <= i < |bars|
    ensures var z := Join(bars[i - 1], bars[i], s);
            && z.pos == Side(bars, i, s.pos) && z.entry == (if s.pos == 0 && z.pos != 0 then bars[i].close else s.entry)
            && z.realized == s.realized && z.roundTrips == s.roundTrips && z.log == s.log
  {
    CrossesAreBreaks(bars, i);
    hide LongCross, ShortCross, BreaksUp, BreaksDown;
  }

  /**
   Every bar of every run: a position leaves if and only if the bar reaches
   its stop, else its target, else ends the session, as one round trip at
   that price worth its points times the multiplier, and is otherwise held as
   it was; a flat contract then takes the side of the one band the bar
   breaks, at the bar's close.
   */
  lemma BarExactly(mult: real, bars: seq<Bar>, i: nat)
    requires 1 <= i < |bars|
    ensures var s, z := Run(mult, bars, i), Run(mult, bars, i + 1);
            && (forall price :: Leaves(bars, i, s, price) ==>
                  && z.log == s.log + [Trip(s.pos, s.entry, price)] && z.roundTrips == s.roundTrips + 1
                  && z.realized == s.realized + s.pos as real * (price - s.entry) * mult
                  && z.pos == Side(bars, i, 0) && (z.pos != 0 ==> z.entry == bars[i].close))
            && ((forall price :: !Leaves(bars, i, s, price)) ==>
                  && z.log == s.log && z.roundTrips == s.roundTrips && z.realized == s.realized
                  && z.pos == Side(bars, i, s.pos) && (z.pos != 0 ==> z.entry == if s.pos != 0 then s.entry else bars[i].close))
  {
    hide Run, Leave, Join, Side, Leaves, IsLast;
    RunNext(mult, bars, i);
    var s := Run(mult, bars, i);
    var mid := Leave(mult, bars[i], IsLast(bars, i), s);
    JoinIs(bars, i, mid);
    forall price | Leaves(bars, i, s, price)
      ensures mid == Sim(0, s.entry, s.realized + s.pos as real * (price - s.entry) * mult, s.roundTrips + 1, s.log + [Trip(s.pos, s.entry, price)])
    {
      LeaveIf(mult, bars, i, s, price);
    }
    if mid != s { LeaveOnlyIf(mult, bars, i, s); }
    StaysIfHeld(bars, i, s.pos);
  }

  lemma StaysIfHeld(bars: seq<Bar>, i: int, held: int)
    ensures held != 0 ==> Side(bars, i, held) == held
  {
  }

  lemma RunNext(mult: real, bars: seq<Bar>, i: nat)
    requires 1 <= i < |bars|
    ensures Run(mult, bars, i + 1) == Join(bars[i - 1], bars[i], Leave(mult, bars[i], IsLast(bars, i), Run(mult, bars, i)))
  {
    hide Leave, Join;
  }

  /** The curve has a point for every bar but the first: what is realised plus the open points at the bar's close, times the multiplier. */
  lemma {:induction false} CurveExactly(mult: real, bars: seq<Bar>, n: nat, i: nat)
    requires 1 <= i < n <= |bars|
    ensures var curve, s := Curve(mult, bars, n), Run(mult, bars, i + 1);
            |curve| == n - 1 && curve[i - 1] == s.realized + s.pos as real * (bars[i].close - s.entry) * mult
    decreases n
  {
    hide Run, Mark;
    CurveLength(mult, bars, n - 1);
    if i + 1 < n {
      CurveExactly(mult, bars, n - 1, i);
    } else {
      OneContract(mult, bars, n);
      MarkIs(mult, bars[i], Run(mult, bars, n));
    }
  }

  lemma {:induction false} CurveLength(mult: real, bars: seq<Bar>, n: nat)
    requires n <= |bars|
    ensures |Curve(mult, bars, n)| == if n == 0 then 0 else n - 1
    decreases n
  {
    hide Run, Mark;
    if n > 1 { CurveLength(mult, bars, n - 1); }
  }

  lemma MarkIs(mult: real, b: Bar, s: Sim)
    requires s.pos == 0 || s.pos == 1 || s.pos == -1
    ensures Mark(mult, b, s) == s.realized + s.pos as real * (b.close - s.entry) * mult
  {
  }
}
