/**
 The tracker's figures, operation by operation: by how much each one moves
 the net asset value, what becomes of its peak, when the day's figure starts
 again, and when the volatility guard opens and closes.
 */
module TrackerMetrics {
  import opened Sums
  import opened Tracker

  // ----- Net asset value -----

  /** What a lot adds to the net asset value: its quantity at its last price, and nothing before it has one. */
  function Worth(lot: Lot): real {
    match lot.lastPrice
    case None => 0.0
    case Some(p) => p * lot.qty
  }

  lemma MarkIsWorth(lot: Lot)
    ensures Mark(lot) == Worth(lot)
  {
  }

  lemma NavAfterLot(cash: real, positions: map<Symbol, Lot>, sym: Symbol, lot: Lot)
    ensures NavOf(cash, positions[sym := lot])
         == NavOf(cash, positions) + Worth(lot) - if sym in positions then Worth(positions[sym]) else 0.0
  {
    hide SumOver, Worth, Mark;
    var after, keys := positions[sym := lot], positions.Keys;
    var f, g := MarkIn(positions), MarkIn(after);
    MarkIsWorth(lot);
    assert f(sym) == if sym in positions then Mark(positions[sym]) else 0.0;
    assert g(sym) == Mark(lot);
    if sym in positions {
      MarkIsWorth(positions[sym]);
      assert after.Keys == keys;
      Changed(keys, sym, f, g);
    } else {
      assert after.Keys == keys + {sym};
      Congruent(keys, f, g);
      Added(keys, sym, g);
    }
  }

  lemma NavAfterCash(was: real, cash: real, positions: map<Symbol, Lot>)
    ensures NavOf(cash, positions) == NavOf(was, positions) + cash - was
  {
  }

  lemma NavAfterLotOf(st: KeyState, sym: Symbol, lot: Lot)
    ensures NavOf(st.cash, st.positions[sym := lot]) == NavOf(st.cash, st.positions) + Worth(lot) - Worth(LotOf(st, sym))
  {
    hide NavOf;
    NavAfterLot(st.cash, st.positions, sym, lot);
  }

  /** The quantity an operation adds to its lot. */
  function Moved(st: KeyState, op: Op): real {
    if !op.Fill? || op.total.None? then 0.0
    else if op.side == Buy then op.total.value - FilledOf(st, op.oid) else FilledOf(st, op.oid) - op.total.value
  }

  /** A price for the symbol's lot, zero before its first mark. */
  function PriceOf(st: KeyState, sym: Symbol): real {
    var p := LotOf(st, sym).lastPrice;
    if p.Some? then p.value else 0.0
  }

  /** By how much an operation moves the net asset value. */
  function NavMove(st: KeyState, op: Op): real {
    match op
    case Cash(c) => c - st.cash
    case MarkPrice(sym, p) => LotOf(st, sym).qty * (p - PriceOf(st, sym))
    case Fill(_, sym, _, _, _) => Moved(st, op) * PriceOf(st, sym)
    case _ => 0.0
  }

  lemma MarkMoves(st: KeyState, sym: Symbol, price: real)
    ensures Worth(LotOf(st, sym).(lastPrice := Some(price))) - Worth(LotOf(st, sym)) == NavMove(st, MarkPrice(sym, price))
  {
    hide LotOf;
  }

  lemma FillMovesWorth(lot: Lot, avg: Option<real>, d: real)
    ensures Worth(Lot(lot.qty + d, avg, lot.lastPrice)) - Worth(lot) == d * if lot.lastPrice.Some? then lot.lastPrice.value else 0.0
  {
  }

  lemma NavMoves(st: KeyState, op: Op, today: int)
    requires st.nav == NavOf(st.cash, st.positions)
    ensures Apply(st, op, today).nav == st.nav + NavMove(st, op)
  {
    match op
    case Cash(c) => {
      hide NavOf;
      NavAfterCash(st.cash, c, st.positions);
    }
    case MarkPrice(sym, p) => {
      hide NavOf, LotOf, Worth, NavMove;
      NavAfterLotOf(st, sym, LotOf(st, sym).(lastPrice := Some(p)));
      MarkMoves(st, sym, p);
    }
    case Fill(oid, sym, side, total, px) => {
      FillNav(st, oid, sym, side, total, px, today);
    }
    case _ => {}
  }

  lemma FillNav(st: KeyState, oid: OrderId, sym: Symbol, side: Side, total: Option<real>, px: Option<real>, today: int)
    requires st.nav == NavOf(st.cash, st.positions)
    ensures ApplyFill(st, oid, sym, side, total, px, today).nav == st.nav + NavMove(st, Fill(oid, sym, side, total, px))
  {
    hide NavOf, LotOf, Worth, NewAvg, FilledOf;
    if total.Some? && total.value != FilledOf(st, oid) {
      var signed := Signed(side, total.value - FilledOf(st, oid));
      var lot := LotOf(st, sym);
      var avg := NewAvg(lot, signed, px);
      NavAfterLotOf(st, sym, Lot(lot.qty + signed, avg, lot.lastPrice));
      FillMovesWorth(lot, avg, signed);
    }
  }

  /**
   On every run each operation moves the net asset value by exactly the
   change of cash, the lot's quantity times the change of its price, or the
   filled quantity times the lot's price; nothing else moves it.
   */
  lemma NavByOperation(ops: seq<(Op, int)>, start: int, op: Op, today: int)
    ensures Run([], start).nav == 0.0
    ensures Run(ops + [(op, today)], start).nav == Run(ops, start).nav + NavMove(Run(ops, start), op)
  {
    hide Apply, NavMove, NavOf;
    assert (ops + [(op, today)])[..|ops|] == ops;
    NavAlwaysConsistent(ops, start);
    NavMoves(Run(ops, start), op, today);
  }

  // ----- The peak -----

  /** The operations that recompute the figures. */
  predicate Recomputes(st: KeyState, op: Op) {
    op.Cash? || op.MarkPrice? || (op.Fill? && op.total.Some? && op.total.value != FilledOf(st, op.oid))
  }

  /** Any other operation leaves nav and peak; these leave the higher of peak and nav, or nav itself when the peak was zero. */
  lemma PeakMoves(st: KeyState, op: Op, today: int)
    ensures var z := Apply(st, op, today);
            && (!Recomputes(st, op) ==> z.navPeak == st.navPeak && z.nav == st.nav)
            && (Recomputes(st, op) && st.navPeak == 0.0 ==> z.navPeak == z.nav)
            && (Recomputes(st, op) && st.navPeak != 0.0 ==>
                  z.navPeak >= st.navPeak && z.navPeak >= z.nav && (z.navPeak == st.navPeak || z.navPeak == z.nav))
  {
    hide NavOf, LotOf, NewAvg;
  }

  /** So the peak falls exactly when it is zero and the new value is negative. */
  lemma PeakFalls(st: KeyState, op: Op, today: int)
    ensures var z := Apply(st, op, today);
            z.navPeak < st.navPeak <==> Recomputes(st, op) && st.navPeak == 0.0 && z.nav < 0.0
  {
    hide Apply, Recomputes;
    PeakMoves(st, op, today);
  }

  /** Some of the operations `i .. j` left this net asset value. */
  ghost predicate Reached(ops: seq<(Op, int)>, start: int, i: nat, j: nat, nav: real) {
    exists k :: i < k <= j <= |ops| && Run(ops[..k], start).nav == nav
  }

  /** Once above zero, the peak is the highest net asset value since: it bounds every one, and is the old peak or one of them. */
  lemma {:induction false} PeakIsHighest(ops: seq<(Op, int)>, start: int, i: nat, j: nat)
    requires i <= j <= |ops| && Run(ops[..i], start).navPeak > 0.0
    ensures var was, peak := Run(ops[..i], start).navPeak, Run(ops[..j], start).navPeak;
            && peak >= was
            && (forall k :: i < k <= j ==> Run(ops[..k], start).nav <= peak)
            && (peak == was || Reached(ops, start, i, j, peak))
    decreases j
  {
    hide Apply, Recomputes;
    if i < j {
      PeakIsHighest(ops, start, i, j - 1);
      assert ops[..j][..j - 1] == ops[..j - 1];
      var st, z := Run(ops[..j - 1], start), Run(ops[..j], start);
      PeakMoves(st, ops[j - 1].0, ops[j - 1].1);
      NavAlwaysConsistent(ops[..j], start);
      hide Run, NavOf;
      if z.navPeak == z.nav { assert Reached(ops, start, i, j, z.navPeak); }
    }
  }

  // ----- The day's figure, and the guard -----

  /** The day's figure starts again with the first recomputation or reading of another day; otherwise only its own operation changes it. */
  lemma DailyMoves(st: KeyState, op: Op, today: int)
    ensures var z := Apply(st, op, today);
            if op.DailyPnl? then z.dailyPnl == op.pnl && z.dailyDate == st.dailyDate
            else if Recomputes(st, op) || op.ReadMetrics? then
              z.dailyDate == today && z.dailyPnl == if today == st.dailyDate then st.dailyPnl else 0.0
            else z.dailyPnl == st.dailyPnl && z.dailyDate == st.dailyDate
  {
    hide NavOf, LotOf, NewAvg;
  }

  /**
   The guard: a level at or under the lower bound opens it, one above both
   closes it, one in between leaves it as it was, and no other operation
   touches it.
   */
  lemma GuardMoves(st: KeyState, op: Op, today: int)
    ensures var z := Apply(st, op, today);
            if !op.VixGuard? || st.vixLevel.None? then z.vixEnabled == st.vixEnabled
            else if st.vixLevel.value <= op.onLe then z.vixEnabled
            else if st.vixLevel.value > op.offGt then !z.vixEnabled
            else z.vixEnabled == st.vixEnabled
    ensures Apply(st, op, today).vixLevel == if op.Vix? then Some(op.level) else st.vixLevel
  {
    hide NavOf, LotOf, NewAvg;
  }

  /** The drawdown is the fall from the peak in parts of the peak, and zero while the peak is not positive. */
  lemma DrawdownIs(st: KeyState)
    ensures st.navPeak > 0.0 ==> Drawdown(st) * st.navPeak == st.nav - st.navPeak
    ensures st.navPeak <= 0.0 ==> Drawdown(st) == 0.0
  {
  }
}
