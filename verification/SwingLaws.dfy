/**
 The protective-stop protocol over whole runs: bars of any symbols in any
 order, each followed by its stop check, starting from any positions taken
 over at startup.  Placing and cancelling at the broker may fail.
 */
module SwingLaws {
  import opened Sums
  import opened Indicators
  import opened Swing

  datatype Event = Event(s: Sym, bar: Bar, vix: Option<real>, placeOk: bool, cancelOk: bool)

  function Pair(st: State, e: Event, shorts: bool): State {
    PostBar(st.(legs := OnBar(st.legs, e.s, e.bar, e.vix, shorts).0), e.s, e.placeOk, e.cancelOk)
  }

  function Run(start: Legs, shorts: bool, events: seq<Event>): State {
    if events == [] then State(start, map[], Book(map[], 0))
    else Pair(Run(start, shorts, events[..|events| - 1]), events[|events| - 1], shorts)
  }

  /** The stop whose cancellation failed in this event. */
  function Orphaned(st: State, e: Event, shorts: bool): set<OrderId> {
    if e.s in st.stops && LegOf(OnBar(st.legs, e.s, e.bar, e.vix, shorts).0, e.s).position == 0 && !e.cancelOk then {st.stops[e.s]}
    else {}
  }

  function Orphans(start: Legs, shorts: bool, events: seq<Event>): set<OrderId> {
    if events == [] then {}
    else
      var init := events[..|events| - 1];
      Orphans(start, shorts, init) + Orphaned(Run(start, shorts, init), events[|events| - 1], shorts)
  }

  /** Whether the symbol's last chance to place a stop was one where the broker took orders. */
  function LastPlaceOk(events: seq<Event>, s: Sym): bool {
    if events == [] then true
    else if events[|events| - 1].s == s then events[|events| - 1].placeOk
    else LastPlaceOk(events[..|events| - 1], s)
  }

  /** The strategy itself opened this position. */
  predicate Opened(legs: Legs, s: Sym) {
    LegOf(legs, s).entryPrice.Some?
  }

  // ----- What one bar does to a leg -----

  ghost predicate LegInv(leg: Leg) {
    && (leg.entryPrice.Some? ==>
          (leg.position != 0 && leg.entryPrice.value > 0.0 && leg.entryDay.Some? && leg.entryAtr.Some? && leg.entryAtr.value >= 0.0))
    && (leg.entryPrice.None? ==> leg.entryDay.None? && leg.entryAtr.None?)
  }

  ghost predicate Unmoved(leg: Leg, z: Leg) {
    leg.position == z.position && leg.entryPrice == z.entryPrice && leg.entryDay == z.entryDay && leg.entryAtr == z.entryAtr
  }

  ghost predicate Closed(leg: Leg, z: Leg) {
    leg.position != 0 && z.position == 0 && z.entryPrice.None?
  }

  ghost predicate Entered(leg: Leg, z: Leg) {
    leg.position == 0 && z.position != 0 && z.entryPrice.Some?
  }

  function Signed(outcome: Outcome): int {
    if !outcome.Trade? then 0
    else if outcome.action.Buy? || outcome.action.BuyToCover? then outcome.qty
    else -outcome.qty
  }

  /** A share count of at least one needs a positive close, and commits the notional cap to within half a share. */
  lemma SharesNearCap(close: real)
    requires close != 0.0 && Shares(close) >= 1
    ensures close > 0.0
    ensures NOTIONAL_CAP - 0.5 * close <= Shares(close) as real * close <= NOTIONAL_CAP + 0.5 * close
  {
    hide RoundHalfEven;
    var q := NOTIONAL_CAP / close;
    NearestInteger(q, RoundHalfEven(q));
    Whole(NOTIONAL_CAP, close);
    PositiveDivisor(q, close);
    NearCap(q, RoundHalfEven(q) as real, close);
  }

  /** A positive close buys a share exactly below twice the notional cap. */
  lemma SharesExist(close: real)
    requires close > 0.0
    ensures Shares(close) >= 1 <==> close < 60000.0
  {
    hide RoundHalfEven;
    var q := NOTIONAL_CAP / close;
    Whole(NOTIONAL_CAP, close);
    AtLeastOne(q);
    if q > 0.5 { ScaleStrict(0.5, q, close); } else { Scale(q, 0.5, close); }
  }

  lemma AtLeastOne(q: real)
    ensures RoundHalfEven(q) >= 1 <==> q > 0.5
  {
  }

  /**
   A usable dated bar of a flat symbol opens a long exactly when the long setup
   and the volatility index allow it, and a short exactly when shorts are on
   and the short setup holds: no bar qualifies both ways.  Either needs two
   hundred closes, room, and a close that buys a share.
   */
  lemma EnteredExactly(leg: Leg, bar: Bar, openCount: int, vix: Option<real>, shorts: bool)
    requires Buffered(leg) && LegInv(leg) && leg.position == 0
    requires bar.day.Some? && Usable(Absorb(leg, bar)) && bar.close > 0.0
    ensures var l, z := Absorb(leg, bar), LegStep(leg, bar, openCount, vix, shorts).0;
            var open := |l.closes| >= 200 && openCount < 2 && bar.close < 60000.0;
            && (z.position > 0 <==> open && LongSetup(l, bar) && vix.Some? && 15.0 <= vix.value <= 30.0)
            && (z.position < 0 <==> open && shorts && ShortSetup(l, bar))
  {
    var l := Absorb(leg, bar);
    SharesExist(bar.close);
    if |l.closes| >= 200 { NotBothWays(l, bar); }
    OpenSide(l, bar, bar.day.value, true);
    OpenSide(l, bar, bar.day.value, false);
    hide Mean, Push, Usable, LongSetup, ShortSetup, Open, Buffered, Shares;
  }

  lemma OpenSide(leg: Leg, bar: Bar, day: int, long: bool)
    requires leg.position == 0 && bar.close > 0.0
    ensures var z := Open(leg, bar, day, long).0;
            if Shares(bar.close) < 1 then z.position == 0 else if long then z.position > 0 else z.position < 0
  {
    hide Shares, Atr, Stop, Target;
  }

  lemma NotBothWays(leg: Leg, bar: Bar)
    requires Usable(leg) && |leg.closes| >= 200
    ensures !(LongSetup(leg, bar) && ShortSetup(leg, bar))
  {
    hide Mean, PullbackAt, ResistanceAt, Rsi;
  }

  lemma NearCap(q: real, n: real, close: real)
    requires q - 0.5 <= n <= q + 0.5 && close > 0.0 && q * close == NOTIONAL_CAP
    ensures NOTIONAL_CAP - 0.5 * close <= n * close <= NOTIONAL_CAP + 0.5 * close
  {
    Within(q, n, close);
  }

  lemma Within(q: real, n: real, p: real)
    requires q - 0.5 <= n <= q + 0.5 && p > 0.0
    ensures q * p - 0.5 * p <= n * p <= q * p + 0.5 * p
  {
    Scale(q - 0.5, n, p);
    Scale(n, q + 0.5, p);
    assert (q - 0.5) * p == q * p - 0.5 * p;
    assert (q + 0.5) * p == q * p + 0.5 * p;
  }

  lemma PositiveDivisor(q: real, p: real)
    requires q * p > 0.0 && q > 0.0
    ensures p > 0.0
  {
  }

  lemma OpenMoves(leg: Leg, bar: Bar, day: int, long: bool)
    requires LegInv(leg) && leg.position == 0
    ensures var (z, outcome) := Open(leg, bar, day, long);
            && LegInv(z) && (Unmoved(leg, z) || Entered(leg, z))
            && z.position == leg.position + Signed(outcome)
            && (outcome.Trade? <==> z.position != 0)
  {
    AtrNotNegative(leg.history);
    if bar.close != 0.0 && Shares(bar.close) >= 1 { SharesNearCap(bar.close); }
    hide Shares, Atr, Stop, Target;
  }

  /** One bar leaves a leg's position alone, closes it whole, or opens it while fewer than two are held. */
  lemma LegMoves(leg: Leg, bar: Bar, openCount: int, vix: Option<real>, shorts: bool)
    requires Buffered(leg) && LegInv(leg)
    ensures var (z, outcome) := LegStep(leg, bar, openCount, vix, shorts);
            && LegInv(z) && (Unmoved(leg, z) || Closed(leg, z) || (Entered(leg, z) && openCount < 2))
            && z.position == leg.position + Signed(outcome)
            && (outcome.Trade? <==> z.position != leg.position)
            && (outcome.Trade? ==> outcome.qty > 0)
  {
    hide Mean, Push, Usable, ExitDue, LongSetup, ShortSetup, VixOk, Open, Buffered;
    var l := Absorb(leg, bar);
    if l.position == 0 && bar.day.Some? {
      OpenMoves(l, bar, bar.day.value, true);
      OpenMoves(l, bar, bar.day.value, false);
      OpenQty(l, bar, bar.day.value, true);
      OpenQty(l, bar, bar.day.value, false);
    }
  }

  lemma OpenQty(leg: Leg, bar: Bar, day: int, long: bool)
    ensures var (_, outcome) := Open(leg, bar, day, long); outcome.Trade? ==> outcome.qty > 0
  {
    hide Shares, Atr, Stop, Target;
  }

  /** A long's stop is below its entry and its target above; a short's the other way round. */
  lemma StopAndTarget(entry: real, atr: real)
    requires entry > 0.0 && atr >= 0.0
    ensures Stop(true, entry, atr) < entry < Target(true, entry, atr)
    ensures Target(false, entry, atr) < entry < Stop(false, entry, atr)
  {
  }

  /** The stop sent to the broker is on the other side, for the whole position, within half a cent of its rule. */
  lemma StopOrderFits(s: Sym, leg: Leg)
    requires LegInv(leg) && leg.entryPrice.Some?
    ensures var o, long := StopFor(s, leg), leg.position > 0;
            && o.sym == s && o.qty > 0 && leg.position == (if o.sell then o.qty else -o.qty)
            && var rule := Stop(long, leg.entryPrice.value, leg.entryAtr.value);
               rule - 0.005 <= o.cents as real / 100.0 <= rule + 0.005 && (if long then rule < leg.entryPrice.value else rule > leg.entryPrice.value)
  {
    var long := leg.position > 0;
    StopAndTarget(leg.entryPrice.value, leg.entryAtr.value);
    hide Stop, Target;
    var rule := Stop(long, leg.entryPrice.value, leg.entryAtr.value);
    NearestInteger(100.0 * rule, StopFor(s, leg).cents);
    hide RoundHalfEven;
  }

  /** The stop announced with an entry is the one later sent to the broker, except for a short opened with no range at all. */
  lemma BracketIsStop(leg: Leg, bar: Bar, day: int, long: bool)
    requires Open(leg, bar, day, long).1.Trade?
    ensures var (z, outcome) := Open(leg, bar, day, long);
            && outcome.bracket.Some? && z.entryPrice == Some(bar.close)
            && (outcome.bracket.value.stop == Stop(long, bar.close, AtrOf(z)) <==> long || Atr(leg.history) > 0.0)
  {
    AtrNotNegative(leg.history);
    SharesNearCap(bar.close);
    hide Shares, Atr;
  }

  // ----- What one event does to the stops -----

  ghost predicate LegsInv(legs: Legs) {
    forall s :: LegInv(LegOf(legs, s)) && (Opened(legs, s) ==> Listed(s))
  }

  /** Every recorded stop is live at the broker and fits its open leg. */
  ghost predicate RecordedFit(st: State) {
    forall s :: s in st.stops ==>
      Opened(st.legs, s) && st.stops[s] in st.book.live && st.book.live[st.stops[s]] == StopFor(s, LegOf(st.legs, s))
  }

  /** Every live order is the recorded stop of its symbol, or one whose cancellation failed. */
  ghost predicate LiveKnown(st: State, orphans: set<OrderId>) {
    forall id :: id in st.book.live ==>
      id < st.book.next && (id in orphans || (st.book.live[id].sym in st.stops && st.stops[st.book.live[id].sym] == id))
  }

  ghost predicate OrphansApart(st: State, orphans: set<OrderId>) {
    && (forall id :: id in orphans ==> id in st.book.live)
    && (forall s :: s in st.stops ==> st.stops[s] !in orphans)
  }

  ghost predicate Inv(st: State, orphans: set<OrderId>) {
    LegsInv(st.legs) && RecordedFit(st) && LiveKnown(st, orphans) && OrphansApart(st, orphans)
  }

  ghost predicate OthersSame(legs: Legs, after: Legs, s: Sym) {
    forall t :: t != s ==> LegOf(after, t) == LegOf(legs, t)
  }

  lemma BarMoves(legs: Legs, s: Sym, bar: Bar, vix: Option<real>, shorts: bool)
    requires LegsInv(legs)
    ensures var (after, outcome) := OnBar(legs, s, bar, vix, shorts);
            var leg, z := LegOf(legs, s), LegOf(after, s);
            && LegsInv(after) && OthersSame(legs, after, s)
            && (Unmoved(leg, z) || Closed(leg, z) || (Entered(leg, z) && Listed(s) && HeldCount(legs) < 2))
            && z.position == leg.position + Signed(outcome)
  {
    hide LegStep, HeldCount, Listed, LegInv, Buffered;
    var after := OnBar(legs, s, bar, vix, shorts).0;
    assert LegInv(LegOf(legs, s));
    if Listed(s) {
      LegMoves(LegOf(legs, s), bar, HeldCount(legs), vix, shorts);
      assert LegOf(after, s) == LegStep(LegOf(legs, s), bar, HeldCount(legs), vix, shorts).0;
    }
    assert OthersSame(legs, after, s);
  }

  lemma StopsDistinct(st: State, s: Sym, t: Sym)
    requires RecordedFit(st) && s in st.stops && t in st.stops && s != t
    ensures st.stops[s] != st.stops[t]
  {
    hide StopFor, Opened;
  }

  /** A bar that changes no opened leg keeps everything. */
  lemma BarKeeps(st: State, after: Legs, s: Sym, orphans: set<OrderId>)
    requires Inv(st, orphans) && LegsInv(after) && OthersSame(st.legs, after, s)
    requires s in st.stops ==> Unmoved(LegOf(st.legs, s), LegOf(after, s))
    ensures Inv(st.(legs := after), orphans)
  {
    hide LegInv, Buffered, Listed, LegOf, StopFor, LegsInv;
    forall t | t in st.stops ensures Opened(after, t) && StopFor(t, LegOf(after, t)) == st.book.live[st.stops[t]] {
      if t == s { SameStop(t, LegOf(st.legs, t), LegOf(after, t)); }
    }
  }

  lemma SameStop(s: Sym, leg: Leg, z: Leg)
    requires Unmoved(leg, z) && leg.entryPrice.Some?
    ensures z.entryPrice.Some? && StopFor(s, z) == StopFor(s, leg)
  {
    hide Stop, RoundHalfEven;
  }

  /** A symbol gone flat: its stop is cancelled, or becomes an orphan. */
  lemma CloseKeeps(st: State, after: Legs, s: Sym, placeOk: bool, cancelOk: bool, orphans: set<OrderId>)
    requires Inv(st, orphans) && LegsInv(after) && OthersSame(st.legs, after, s)
    requires LegOf(after, s).position == 0
    ensures Inv(PostBar(st.(legs := after), s, placeOk, cancelOk), orphans + if s in st.stops && !cancelOk then {st.stops[s]} else {})
  {
    hide StopFor, LegInv, Buffered, Listed, LegOf, LegsInv, RecordedFit, LiveKnown, OrphansApart;
    if s in st.stops {
      OthersKept(st, after, s, cancelOk);
      LiveKept(st, after, s, cancelOk, orphans);
    } else {
      BarKeeps(st, after, s, orphans);
      assert orphans + {} == orphans;
    }
  }

  /** The stops after one symbol's is given up. */
  function GivenUp(st: State, after: Legs, s: Sym, cancelOk: bool): State
    requires s in st.stops
  {
    State(after, st.stops - {s}, if cancelOk then st.book.(live := st.book.live - {st.stops[s]}) else st.book)
  }

  lemma OthersKept(st: State, after: Legs, s: Sym, cancelOk: bool)
    requires RecordedFit(st) && OthersSame(st.legs, after, s) && s in st.stops
    ensures RecordedFit(GivenUp(st, after, s, cancelOk))
  {
    hide StopFor, Buffered, LegOf, RecordedFit;
    var z := GivenUp(st, after, s, cancelOk);
    forall t | t in z.stops
      ensures Opened(z.legs, t) && z.stops[t] in z.book.live && z.book.live[z.stops[t]] == StopFor(t, LegOf(z.legs, t))
    {
      FitOf(st, t);
      StopsDistinct(st, s, t);
    }
    FitAll(z);
  }

  lemma FitOf(st: State, t: Sym)
    requires RecordedFit(st) && t in st.stops
    ensures Opened(st.legs, t) && st.stops[t] in st.book.live && st.book.live[st.stops[t]] == StopFor(t, LegOf(st.legs, t))
  {
    hide StopFor, LegOf, Opened;
  }

  lemma FitAll(st: State)
    requires forall t :: t in st.stops ==>
      Opened(st.legs, t) && st.stops[t] in st.book.live && st.book.live[st.stops[t]] == StopFor(t, LegOf(st.legs, t))
    ensures RecordedFit(st)
  {
    hide StopFor, LegOf, Opened;
  }

  lemma LiveKept(st: State, after: Legs, s: Sym, cancelOk: bool, orphans: set<OrderId>)
    requires RecordedFit(st) && LiveKnown(st, orphans) && OrphansApart(st, orphans) && s in st.stops
    ensures var z, all := GivenUp(st, after, s, cancelOk), orphans + if cancelOk then {} else {st.stops[s]};
            LiveKnown(z, all) && OrphansApart(z, all)
  {
    hide StopFor, Buffered, LegOf, RecordedFit, Opened;
    FitOf(st, s);
    forall t | t in st.stops && t != s
      ensures st.stops[t] != st.stops[s]
    {
      StopsDistinct(st, s, t);
    }
  }

  /** A held symbol: its stop stays, or is placed when its entry is known and the broker takes it. */
  lemma HoldKeeps(st: State, s: Sym, placeOk: bool, cancelOk: bool, orphans: set<OrderId>)
    requires Inv(st, orphans) && LegOf(st.legs, s).position != 0
    ensures Inv(PostBar(st, s, placeOk, cancelOk), orphans)
  {
    hide StopFor, LegInv, Buffered, Listed, LegOf;
  }

  /** One bar and its stop check keep the agreement between legs, recorded stops and live orders. */
  lemma PairKeeps(st: State, e: Event, shorts: bool, orphans: set<OrderId>)
    requires Inv(st, orphans)
    ensures Inv(Pair(st, e, shorts), orphans + Orphaned(st, e, shorts))
  {
    hide LegInv, OnBar, PostBar, Listed, RecordedFit, LiveKnown, OrphansApart, Buffered;
    var after := OnBar(st.legs, e.s, e.bar, e.vix, shorts).0;
    BarMoves(st.legs, e.s, e.bar, e.vix, shorts);
    var z := LegOf(after, e.s);
    if z.position == 0 {
      CloseKeeps(st, after, e.s, e.placeOk, e.cancelOk, orphans);
    } else {
      RecordedHeld(st, e.s);
      BarKeeps(st, after, e.s, orphans);
      HoldKeeps(st.(legs := after), e.s, e.placeOk, e.cancelOk, orphans);
      assert orphans + {} == orphans;
    }
  }

  lemma RecordedHeld(st: State, s: Sym)
    requires LegsInv(st.legs) && RecordedFit(st)
    ensures s in st.stops ==> LegOf(st.legs, s).position != 0 && LegOf(st.legs, s).entryPrice.Some?
  {
    hide StopFor, Buffered, Listed, LegOf;
    assert LegInv(LegOf(st.legs, s));
  }

  // ----- Whole runs -----

  /** Positions taken over at startup carry no entry. */
  ghost predicate Startup(legs: Legs) {
    forall s :: s in legs ==> legs[s].entryPrice.None? && legs[s].entryDay.None? && legs[s].entryAtr.None?
  }

  lemma RestoreStartsUp(legs: Legs, s: Sym, long: Option<bool>)
    requires Startup(legs)
    ensures Startup(Restore(legs, s, long))
  {
    hide Buffered;
  }

  /** The legs after taking over a list of broker positions, before any bar. */
  function TakenOver(overs: seq<(Sym, Option<bool>)>): Legs {
    if overs == [] then map[]
    else Restore(TakenOver(overs[..|overs| - 1]), overs[|overs| - 1].0, overs[|overs| - 1].1)
  }

  /** Whatever positions are taken over at startup, the runs below may start from them. */
  lemma {:induction false} TakeoversStartUp(overs: seq<(Sym, Option<bool>)>)
    ensures Startup(TakenOver(overs))
    decreases |overs|
  {
    hide Restore, Buffered;
    if overs != [] {
      TakeoversStartUp(overs[..|overs| - 1]);
      RestoreStartsUp(TakenOver(overs[..|overs| - 1]), overs[|overs| - 1].0, overs[|overs| - 1].1);
    }
  }

  /** In every run the recorded stops, the live orders and the open legs agree. */
  lemma {:induction false} ProtectionHolds(start: Legs, shorts: bool, events: seq<Event>)
    requires Startup(start)
    ensures Inv(Run(start, shorts, events), Orphans(start, shorts, events))
    decreases |events|
  {
    hide Pair, LegInv, Buffered, Listed;
    if events == [] {
      StartInv(start);
    } else {
      var init := events[..|events| - 1];
      ProtectionHolds(start, shorts, init);
      PairKeeps(Run(start, shorts, init), events[|events| - 1], shorts, Orphans(start, shorts, init));
    }
  }

  lemma StartInv(start: Legs)
    requires Startup(start)
    ensures LegsInv(start)
  {
    hide Buffered;
  }

  /** An opened symbol goes without a stop only while the broker refuses it. */
  lemma {:induction false} OpenedIsCovered(start: Legs, shorts: bool, events: seq<Event>, s: Sym)
    requires Startup(start)
    ensures var st := Run(start, shorts, events);
            s in st.stops ==> Opened(st.legs, s)
    ensures var st := Run(start, shorts, events);
            Opened(st.legs, s) && LastPlaceOk(events, s) ==> s in st.stops
    decreases |events|
  {
    hide Pair, LegInv, Buffered, Listed;
    ProtectionHolds(start, shorts, events);
    if events != [] {
      var init := events[..|events| - 1];
      OpenedIsCovered(start, shorts, init, s);
      ProtectionHolds(start, shorts, init);
      PairCovers(Run(start, shorts, init), events[|events| - 1], shorts, s);
    } else {
      StartInv(start);
    }
  }

  lemma PairCovers(st: State, e: Event, shorts: bool, s: Sym)
    requires LegsInv(st.legs)
    ensures var z := Pair(st, e, shorts);
            if s == e.s then Opened(z.legs, s) && e.placeOk ==> s in z.stops
            else LegOf(z.legs, s) == LegOf(st.legs, s) && (s in st.stops <==> s in z.stops)
  {
    hide LegOf, OnBar, Listed, Buffered, StopFor;
    BarMoves(st.legs, e.s, e.bar, e.vix, shorts);
    assert LegInv(LegOf(OnBar(st.legs, e.s, e.bar, e.vix, shorts).0, e.s));
  }

  /**
   With a broker that takes every call: the live orders are exactly one stop
   per opened symbol, on the other side, for the whole position, at the price
   its entry and range give; a flat symbol has none, and at most two live.
   */
  lemma ExactlyOneStop(start: Legs, shorts: bool, events: seq<Event>)
    requires Startup(start)
    requires forall i :: 0 <= i < |events| ==> events[i].placeOk && events[i].cancelOk
    ensures var st := Run(start, shorts, events);
            && (forall s :: s in st.stops <==> Opened(st.legs, s))
            && (forall s :: s in st.stops ==> st.stops[s] in st.book.live && st.book.live[st.stops[s]] == StopFor(s, LegOf(st.legs, s)))
            && (forall id :: id in st.book.live ==> st.book.live[id].sym in st.stops && st.stops[st.book.live[id].sym] == id)
            && |st.book.live| <= 2
  {
    hide Run, LegInv, Buffered, Listed, StopFor, LegOf, Opened;
    ProtectionHolds(start, shorts, events);
    NoFailuresNoOrphans(start, shorts, events);
    var st := Run(start, shorts, events);
    forall s ensures s in st.stops <==> Opened(st.legs, s) {
      OpenedIsCovered(start, shorts, events, s);
      AlwaysPlaced(events, s);
    }
    AtMostTwo(start, shorts, events);
    LiveWithin(st, {});
  }

  lemma {:induction false} AlwaysPlaced(events: seq<Event>, s: Sym)
    requires forall i :: 0 <= i < |events| ==> events[i].placeOk
    ensures LastPlaceOk(events, s)
    decreases |events|
  {
    if events != [] { AlwaysPlaced(events[..|events| - 1], s); }
  }

  lemma {:induction false} NoFailuresNoOrphans(start: Legs, shorts: bool, events: seq<Event>)
    requires forall i :: 0 <= i < |events| ==> events[i].cancelOk
    ensures Orphans(start, shorts, events) == {}
    decreases |events|
  {
    hide Run, OnBar, LegOf;
    if events != [] { NoFailuresNoOrphans(start, shorts, events[..|events| - 1]); }
  }

  /** Whatever fails: the live orders are the recorded stops exactly when no cancellation has failed, and otherwise two stops besides the orphans at most. */
  lemma ExactUnlessOrphaned(start: Legs, shorts: bool, events: seq<Event>)
    requires Startup(start)
    ensures var st := Run(start, shorts, events);
            var orphans := Orphans(start, shorts, events);
            && (st.book.live.Keys == st.stops.Values <==> orphans == {})
            && st.book.live.Keys == st.stops.Values + orphans
            && |st.book.live.Keys - orphans| <= 2
  {
    hide Run, Orphans, LegInv, Buffered, Listed, StopFor, LegOf, Opened;
    ProtectionHolds(start, shorts, events);
    AtMostTwo(start, shorts, events);
    var st, orphans := Run(start, shorts, events), Orphans(start, shorts, events);
    LiveWithin(st, orphans);
    assert st.book.live.Keys == st.stops.Values + orphans;
    assert st.stops.Values !! orphans;
    if orphans != {} {
      var id :| id in orphans;
      assert id in st.book.live && id !in st.stops.Values;
    }
  }

  // ----- Counting -----

  function HeldIn(legs: Legs, symbols: seq<Sym>): set<Sym> {
    set s | s in symbols && IsOpen(legs, s)
  }

  ghost function OpenedSet(legs: Legs): set<Sym> {
    set s | s in legs && Opened(legs, s)
  }

  /** Two letters and the length tell the listed symbols apart. */
  function Tag(s: Sym): int {
    if |s| < 2 then 0 else s[0] as int * 2048 + s[1] as int * 8 + |s|
  }

  lemma SymbolsDistinct()
    ensures NoDup(SYMBOLS)
  {
    forall i, j | 0 <= i < j < |SYMBOLS|
      ensures SYMBOLS[i] != SYMBOLS[j]
    {
      Apart(i, j);
    }
  }

  lemma Apart(i: nat, j: nat)
    requires i < j < |SYMBOLS|
    ensures SYMBOLS[i] != SYMBOLS[j]
  {
    TagAt(i);
    TagAt(j);
  }

  const TAGS: seq<int> := [
    160436, 133779, 133812, 133739, 170604, 145963, 156259, 158378, 172699,
    162452, 137875, 133668, 160379, 164364, 137876, 170612, 139812, 148140]

  lemma TagAt(i: nat)
    requires i < |SYMBOLS|
    ensures Tag(SYMBOLS[i]) == TAGS[i]
  {
  }

  /** Over distinct symbols, the count is the size of the held set. */
  lemma {:induction false} CountIsSize(legs: Legs, symbols: seq<Sym>, n: nat)
    requires n <= |symbols| && NoDup(symbols)
    ensures OpenCount(legs, symbols, n) == |HeldIn(legs, symbols[..n])|
    decreases n
  {
    hide HeldIn, IsOpen;
    if n > 0 {
      CountIsSize(legs, symbols, n - 1);
      var s, before := symbols[n - 1], symbols[..n - 1];
      assert symbols[..n] == before + [s] && s !in before;
      HeldGrows(legs, before, s);
    } else {
      NoneHeld(legs);
    }
  }

  lemma NoneHeld(legs: Legs)
    ensures HeldIn(legs, []) == {}
  {
    hide LegOf, Buffered;
  }

  lemma HeldGrows(legs: Legs, before: seq<Sym>, s: Sym)
    requires s !in before
    ensures |HeldIn(legs, before + [s])| == |HeldIn(legs, before)| + if IsOpen(legs, s) then 1 else 0
  {
    hide LegOf, IsOpen, Buffered;
    if IsOpen(legs, s) {
      assert HeldIn(legs, before + [s]) == HeldIn(legs, before) + {s};
    } else {
      assert HeldIn(legs, before + [s]) == HeldIn(legs, before);
    }
  }

  lemma OpenedAreHeld(legs: Legs)
    requires LegsInv(legs)
    ensures |OpenedSet(legs)| <= HeldCount(legs)
  {
    hide LegOf, Buffered;
    SymbolsDistinct();
    CountIsSize(legs, SYMBOLS, |SYMBOLS|);
    assert SYMBOLS[..|SYMBOLS|] == SYMBOLS;
    forall s | s in OpenedSet(legs)
      ensures s in HeldIn(legs, SYMBOLS)
    {
      assert LegInv(LegOf(legs, s));
    }
    Smaller(OpenedSet(legs), HeldIn(legs, SYMBOLS));
  }

  /** The strategy never has more than two positions of its own open. */
  lemma {:induction false} AtMostTwo(start: Legs, shorts: bool, events: seq<Event>)
    requires Startup(start)
    ensures |OpenedSet(Run(start, shorts, events).legs)| <= 2
    decreases |events|
  {
    hide OnBar, LegInv, Buffered, Listed, OpenedSet, LegOf, PostBar;
    if events == [] {
      NoneOpened(start);
    } else {
      var init, e := events[..|events| - 1], events[|events| - 1];
      AtMostTwo(start, shorts, init);
      ProtectionHolds(start, shorts, init);
      var legs := Run(start, shorts, init).legs;
      BarMoves(legs, e.s, e.bar, e.vix, shorts);
      var after := OnBar(legs, e.s, e.bar, e.vix, shorts).0;
      SameLegs(Run(start, shorts, init).(legs := after), e.s, e.placeOk, e.cancelOk);
      OpenedAreHeld(legs);
      OpensWithin(legs, after, e.s);
    }
  }

  lemma SameLegs(st: State, s: Sym, placeOk: bool, cancelOk: bool)
    ensures PostBar(st, s, placeOk, cancelOk).legs == st.legs
  {
    hide StopFor;
  }

  lemma NoneOpened(start: Legs)
    requires Startup(start)
    ensures |OpenedSet(start)| <= 2
  {
    hide Buffered;
    assert OpenedSet(start) == {};
  }

  lemma OpensWithin(legs: Legs, after: Legs, s: Sym)
    requires OthersSame(legs, after, s) && |OpenedSet(legs)| <= 2
    requires Entered(LegOf(legs, s), LegOf(after, s)) ==> |OpenedSet(legs)| < 2
    requires Unmoved(LegOf(legs, s), LegOf(after, s)) || Closed(LegOf(legs, s), LegOf(after, s)) || Entered(LegOf(legs, s), LegOf(after, s))
    ensures |OpenedSet(after)| <= 2
  {
    hide Buffered;
    if Entered(LegOf(legs, s), LegOf(after, s)) {
      assert OpenedSet(after) <= OpenedSet(legs) + {s};
      Smaller(OpenedSet(after), OpenedSet(legs) + {s});
    } else {
      assert OpenedSet(after) <= OpenedSet(legs);
      Smaller(OpenedSet(after), OpenedSet(legs));
    }
  }

  /** There are no more live stops than opened symbols, orphans aside. */
  lemma LiveWithin(st: State, orphans: set<OrderId>)
    requires Inv(st, orphans)
    ensures |st.book.live.Keys - orphans| <= |OpenedSet(st.legs)|
    ensures orphans == {} ==> |st.book.live| <= |OpenedSet(st.legs)|
  {
    hide LegInv, Buffered, Listed, StopFor, LegOf;
    var ids := st.book.live.Keys - orphans;
    forall s | s in st.stops
      ensures s in OpenedSet(st.legs)
    {
      OpenedRecorded(st.legs, s);
    }
    NoMoreThan(ids, st.stops);
    Smaller(st.stops.Keys, OpenedSet(st.legs));
    if orphans == {} {
      assert ids == st.book.live.Keys;
    }
  }

  lemma OpenedRecorded(legs: Legs, s: Sym)
    requires Opened(legs, s)
    ensures s in legs
  {
    hide Buffered;
  }

  lemma {:induction false} NoMoreThan(ids: set<OrderId>, stops: map<Sym, OrderId>)
    requires ids <= stops.Values
    ensures |ids| <= |stops.Keys|
    decreases |ids|
  {
    if ids != {} {
      var id :| id in ids;
      var s :| s in stops && stops[s] == id;
      var rest := map t | t in stops && t != s :: stops[t];
      assert rest.Keys == stops.Keys - {s};
      forall other | other in ids && other != id
        ensures other in rest.Values
      {
        var t :| t in stops && stops[t] == other;
        assert rest[t] == other;
      }
      NoMoreThan(ids - {id}, rest);
    }
  }

  // ----- Signals -----

  /** The net of the shares the strategy asked to trade in a symbol. */
  function Net(start: Legs, shorts: bool, events: seq<Event>, s: Sym): int {
    if events == [] then 0
    else
      var init, e := events[..|events| - 1], events[|events| - 1];
      Net(start, shorts, init, s)
      + if e.s == s then Signed(OnBar(Run(start, shorts, init).legs, s, e.bar, e.vix, shorts).1) else 0
  }

  /** In any run, a symbol's position is what was taken over plus the net of its signals. */
  lemma {:induction false} SignalsNetToPosition(start: Legs, shorts: bool, events: seq<Event>, s: Sym)
    requires Startup(start)
    ensures LegOf(Run(start, shorts, events).legs, s).position == LegOf(start, s).position + Net(start, shorts, events, s)
    decreases |events|
  {
    hide OnBar, LegInv, Buffered, Listed, LegOf, PostBar, Signed;
    if events != [] {
      var init, e := events[..|events| - 1], events[|events| - 1];
      SignalsNetToPosition(start, shorts, init, s);
      ProtectionHolds(start, shorts, init);
      var st := Run(start, shorts, init);
      BarMoves(st.legs, e.s, e.bar, e.vix, shorts);
      SameLegs(st.(legs := OnBar(st.legs, e.s, e.bar, e.vix, shorts).0), e.s, e.placeOk, e.cancelOk);
    }
  }

  /** The bar closes at or beyond the protective stop's price, reaches the target, or comes twenty days after entry. */
  predicate Finished(leg: Leg, bar: Bar)
    requires leg.entryPrice.Some? && leg.entryDay.Some? && bar.day.Some?
  {
    var long := leg.position > 0;
    var rule, target := Stop(long, leg.entryPrice.value, AtrOf(leg)), Target(long, leg.entryPrice.value, AtrOf(leg));
    || (long && (bar.close <= rule || bar.high >= target))
    || (!long && (bar.close >= rule || bar.low <= target))
    || bar.day.value - leg.entryDay.value >= 20
  }

  /**
   In any run, a usable dated bar of an opened symbol clears the position
   exactly when it is finished; then its stop goes with it, and otherwise both
   the position and its recorded stop stay as they were.
   */
  lemma ClearedExactly(start: Legs, shorts: bool, events: seq<Event>, e: Event)
    requires Startup(start)
    requires var legs := Run(start, shorts, events).legs;
             Opened(legs, e.s) && e.bar.day.Some? && Usable(Absorb(LegOf(legs, e.s), e.bar))
    ensures var x, z := Run(start, shorts, events), Run(start, shorts, events + [e]);
            var leg := LegOf(x.legs, e.s);
            && leg.entryDay.Some?
            && (!IsOpen(z.legs, e.s) <==> Finished(leg, e.bar))
            && (Finished(leg, e.bar) ==> e.s !in z.stops)
            && (!Finished(leg, e.bar) ==> Unmoved(leg, LegOf(z.legs, e.s)) && (e.s in x.stops ==> e.s in z.stops && z.stops[e.s] == x.stops[e.s]))
  {
    hide LegInv, Buffered, Listed, Usable, Absorb, Pair, Finished;
    ProtectionHolds(start, shorts, events);
    assert (events + [e])[..|events|] == events;
    EntryKnown(LegOf(Run(start, shorts, events).legs, e.s));
    ClearStep(Run(start, shorts, events), e, shorts);
  }

  lemma EntryKnown(leg: Leg)
    requires LegInv(leg) && leg.entryPrice.Some?
    ensures leg.position != 0 && leg.entryDay.Some?
  {
  }

  lemma ClearStep(st: State, e: Event, shorts: bool)
    requires LegsInv(st.legs) && Opened(st.legs, e.s) && LegOf(st.legs, e.s).entryDay.Some?
    requires e.bar.day.Some? && Usable(Absorb(LegOf(st.legs, e.s), e.bar))
    ensures var leg, z := LegOf(st.legs, e.s), Pair(st, e, shorts);
            && (!IsOpen(z.legs, e.s) <==> Finished(leg, e.bar))
            && (Finished(leg, e.bar) ==> e.s !in z.stops)
            && (!Finished(leg, e.bar) ==> Unmoved(leg, LegOf(z.legs, e.s)) && (e.s in st.stops ==> e.s in z.stops && z.stops[e.s] == st.stops[e.s]))
  {
    hide Mean, Push, Usable, LegStep, Buffered, HeldCount, StopFor, Finished, Enter;
    var leg := LegOf(st.legs, e.s);
    assert LegInv(leg) && Listed(e.s);
    EntryKnown(leg);
    ExitStep(leg, e.bar, HeldCount(st.legs), e.vix, shorts);
  }

  lemma ExitStep(leg: Leg, bar: Bar, openCount: int, vix: Option<real>, shorts: bool)
    requires Buffered(leg) && leg.position != 0 && leg.entryPrice.Some? && leg.entryDay.Some? && bar.day.Some? && Usable(Absorb(leg, bar))
    ensures var z := LegStep(leg, bar, openCount, vix, shorts).0;
            if Finished(leg, bar) then z.position == 0 else Unmoved(leg, z)
  {
    hide Mean, Push, Usable, Enter, Buffered, Stop, Target;
  }
}
