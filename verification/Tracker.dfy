/**
 The in-memory position tracker: per account and strategy it keeps lots,
 cash, net asset value and, per order, the cumulative quantity already
 counted, so that a replayed or repeated update moves nothing twice.

 Symbols are in their upper-case form and quantities are exact reals.
 */
module Tracker {
  import opened Sums

  type Symbol = string
  type OrderId = string

  datatype Side = Buy | Sell

  function Signed(side: Side, q: real): real {
    if side == Buy then q else -q
  }

  datatype Lot = Lot(qty: real, avgCost: Option<real>, lastPrice: Option<real>)

  const EmptyLot := Lot(0.0, None, None)

  datatype KeyState = KeyState(
    positions: map<Symbol, Lot>,
    cash: real,
    navPeak: real,
    nav: real,
    dailyPnl: real,
    dailyDate: int,
    vixEnabled: bool,
    vixLevel: Option<real>,
    orderFilled: map<OrderId, real>)

  function NewKey(today: int): KeyState {
    KeyState(map[], 0.0, 0.0, 0.0, 0.0, today, true, None, map[])
  }

  function LotOf(st: KeyState, sym: Symbol): Lot {
    if sym in st.positions then st.positions[sym] else EmptyLot
  }

  function FilledOf(st: KeyState, oid: OrderId): real {
    if oid in st.orderFilled then st.orderFilled[oid] else 0.0
  }

  // ----- Net asset value -----

  function Mark(lot: Lot): real {
    if lot.lastPrice.Some? && lot.qty != 0.0 then lot.lastPrice.value * lot.qty else 0.0
  }

  function MarkIn(positions: map<Symbol, Lot>): Symbol -> real {
    sym => if sym in positions then Mark(positions[sym]) else 0.0
  }

  ghost function NavOf(cash: real, positions: map<Symbol, Lot>): real {
    cash + SumOver(positions.Keys, MarkIn(positions))
  }

  function RollDaily(st: KeyState, today: int): KeyState {
    if st.dailyDate != today then st.(dailyDate := today, dailyPnl := 0.0) else st
  }

  ghost function Recalc(st: KeyState, today: int): KeyState {
    var nav := NavOf(st.cash, st.positions);
    RollDaily(st, today).(nav := nav, navPeak := if st.navPeak == 0.0 || st.navPeak < nav then nav else st.navPeak)
  }

  lemma RollKeeps(st: KeyState, today: int)
    ensures RollDaily(st, today) == st.(dailyDate := RollDaily(st, today).dailyDate, dailyPnl := RollDaily(st, today).dailyPnl)
  {
  }

  lemma NoneLeft(positions: map<Symbol, Lot>)
    ensures SumOver({}, MarkIn(positions)) == 0.0
  {
  }

  lemma MarkInAt(positions: map<Symbol, Lot>, sym: Symbol)
    requires sym in positions
    ensures MarkIn(positions)(sym) == Mark(positions[sym])
  {
  }

  method RecalcMetrics(st0: KeyState, today: int) returns (st: KeyState)
    ensures st == Recalc(st0, today)
  {
    hide SumOver, MarkIn, RollDaily;
    st := RollDaily(st0, today);
    RollKeeps(st0, today);
    NoneLeft(st.positions);
    var nav := st.cash;
    var left := st.positions.Keys;
    while left != {}
      invariant left <= st.positions.Keys
      invariant nav + SumOver(left, MarkIn(st.positions)) == NavOf(st.cash, st.positions)
      decreases |left|
    {
      var sym :| sym in left;
      Pick(left, sym, MarkIn(st.positions));
      MarkInAt(st.positions, sym);
      var lot := st.positions[sym];
      if lot.lastPrice.Some? && lot.qty != 0.0 {
        nav := nav + lot.lastPrice.value * lot.qty;
      }
      left := left - {sym};
    }
    st := st.(nav := nav);
    if st.navPeak == 0.0 {
      st := st.(navPeak := nav);
    } else {
      st := st.(navPeak := if st.navPeak < nav then nav else st.navPeak);
    }
  }

  // ----- Fills -----

  /** The quantity-weighted average of a holding of `q` at `a` and `s` more at `p`. */
  function Vwap(a: real, q: real, p: real, s: real): real
    requires q + s != 0.0
  {
    (a * q + p * s) / (q + s)
  }

  /** The average cost of a lot after `signed` more shares at `px`. */
  function NewAvg(lot: Lot, signed: real, px: Option<real>): Option<real> {
    if px.None? then lot.avgCost
    else if lot.qty == 0.0 || lot.avgCost.None? then px
    else if (lot.qty > 0.0 && signed > 0.0) || (lot.qty < 0.0 && signed < 0.0) then
      Some(Vwap(lot.avgCost.value, lot.qty, px.value, signed))
    else lot.avgCost
  }

  ghost function ApplyFill(st: KeyState, oid: OrderId, sym: Symbol, side: Side, total: Option<real>, px: Option<real>, today: int): KeyState {
    if total.None? || total.value == FilledOf(st, oid) then st
    else
      var signed := Signed(side, total.value - FilledOf(st, oid));
      var lot := LotOf(st, sym);
      var lot' := Lot(lot.qty + signed, NewAvg(lot, signed, px), lot.lastPrice);
      Recalc(st.(orderFilled := st.orderFilled[oid := total.value], positions := st.positions[sym := lot']), today)
  }

  ghost function SetCash(st: KeyState, cash: real, today: int): KeyState {
    Recalc(st.(cash := cash), today)
  }

  ghost function SetMark(st: KeyState, sym: Symbol, price: real, today: int): KeyState {
    Recalc(st.(positions := st.positions[sym := LotOf(st, sym).(lastPrice := Some(price))]), today)
  }

  datatype Key = Key(tenant: string, mode: string, account: string, strategy: string) {
    predicate Complete() { tenant != "" && mode != "" && account != "" && strategy != "" }
  }

  /** The tracker object; an incomplete key raises and changes nothing. */
  class PositionTracker {
    var state: map<Key, KeyState>

    constructor ()
      ensures state == map[]
    {
      state := map[];
    }

    function Get(k: Key, today: int): KeyState
      reads this
    {
      if k in state then state[k] else NewKey(today)
    }

    method SetCashFor(k: Key, cash: real, today: int) returns (raised: bool)
      modifies this
      ensures raised <==> "" in {k.tenant, k.mode, k.account, k.strategy}
      ensures state == if raised then old(state) else old(state)[k := SetCash(old(Get(k, today)), cash, today)]
    {
      if !k.Complete() { return true; }
      var st := Get(k, today);
      st := RecalcMetrics(st.(cash := cash), today);
      state := state[k := st];
      return false;
    }

    method SetMarkPrice(k: Key, sym: Symbol, price: real, today: int) returns (raised: bool)
      modifies this
      ensures raised <==> "" in {k.tenant, k.mode, k.account, k.strategy}
      ensures state == if raised then old(state) else old(state)[k := SetMark(old(Get(k, today)), sym, price, today)]
    {
      if !k.Complete() { return true; }
      var st := Get(k, today);
      var lot := if sym in st.positions then st.positions[sym] else EmptyLot;
      lot := lot.(lastPrice := Some(price));
      st := RecalcMetrics(st.(positions := st.positions[sym := lot]), today);
      state := state[k := st];
      return false;
    }

    method ApplyFillFor(k: Key, oid: OrderId, sym: Symbol, side: Side, total: Option<real>, px: Option<real>, today: int)
      returns (raised: bool)
      modifies this
      ensures raised <==> "" in {k.tenant, k.mode, k.account, k.strategy}
      ensures state == if raised then old(state)
                       else old(state)[k := ApplyFill(old(Get(k, today)), oid, sym, side, total, px, today)]
    {
      hide NavOf, Vwap;
      if !k.Complete() { return true; }
      var st := Get(k, today);
      state := state[k := st];
      if total.None? { return false; }
      var prev := if oid in st.orderFilled then st.orderFilled[oid] else 0.0;
      var delta := total.value - prev;
      if delta == 0.0 { return false; }
      st := st.(orderFilled := st.orderFilled[oid := total.value]);
      var lot := if sym in st.positions then st.positions[sym] else EmptyLot;
      var signed := if side == Buy then delta else -delta;
      if px.Some? {
        if lot.qty == 0.0 || lot.avgCost.None? {
          lot := lot.(avgCost := px);
        } else if (lot.qty > 0.0 && signed > 0.0) || (lot.qty < 0.0 && signed < 0.0) {
          var newQty := lot.qty + signed;
          if newQty != 0.0 {
            lot := lot.(avgCost := Some(Vwap(lot.avgCost.value, lot.qty, px.value, signed)));
          }
        }
      }
      assert lot.avgCost == NewAvg(LotOf(st, sym), signed, px);
      lot := lot.(qty := lot.qty + signed);
      st := RecalcMetrics(st.(positions := st.positions[sym := lot]), today);
      state := state[k := st];
      return false;
    }
  }

  // ----- Every operation keeps the books consistent -----

  datatype Op =
    | Fill(oid: OrderId, sym: Symbol, side: Side, total: Option<real>, px: Option<real>)
    | Cash(cash: real)
    | MarkPrice(msym: Symbol, price: real)
    | DailyPnl(pnl: real)
    | Vix(level: real)
    | VixGuard(offGt: real, onLe: real)
    | ReadMetrics

  /** `vix_guard_allows_entries`: the answer is the new `vixEnabled`, or yes when there is no level. */
  function GuardVix(st: KeyState, offGt: real, onLe: real): KeyState {
    if st.vixLevel.None? then st
    else
      var enabled := if st.vixEnabled && st.vixLevel.value > offGt then false else st.vixEnabled;
      st.(vixEnabled := enabled || st.vixLevel.value <= onLe)
  }

  ghost function Apply(st: KeyState, op: Op, today: int): KeyState {
    match op
    case Fill(oid, sym, side, total, px) => ApplyFill(st, oid, sym, side, total, px, today)
    case Cash(c) => SetCash(st, c, today)
    case MarkPrice(sym, p) => SetMark(st, sym, p, today)
    case DailyPnl(p) => st.(dailyPnl := p)
    case Vix(v) => st.(vixLevel := Some(v))
    case VixGuard(off, on) => GuardVix(st, off, on)
    case ReadMetrics => RollDaily(st, today)
  }

  /** A run: operations with the day each one happened on. */
  ghost function Run(ops: seq<(Op, int)>, start: int): KeyState {
    if ops == [] then NewKey(start)
    else
      var l := |ops| - 1;
      Apply(Run(ops[..l], start), ops[l].0, ops[l].1)
  }

  /** After every operation nav is cash plus marked lots, and no nav exceeds the peak (so drawdown is never positive). */
  lemma {:induction false} NavAlwaysConsistent(ops: seq<(Op, int)>, start: int)
    ensures var st := Run(ops, start);
            st.nav == NavOf(st.cash, st.positions) && st.nav <= st.navPeak
    decreases |ops|
  {
    hide Apply;
    if ops == [] {
      assert NewKey(start).positions.Keys == {};
    } else {
      NavAlwaysConsistent(ops[..|ops| - 1], start);
      NavKept(Run(ops[..|ops| - 1], start), ops[|ops| - 1].0, ops[|ops| - 1].1);
    }
  }

  ghost predicate Consistent(st: KeyState) {
    st.nav == NavOf(st.cash, st.positions) && st.nav <= st.navPeak
  }

  lemma NavKept(st: KeyState, op: Op, today: int)
    requires Consistent(st)
    ensures Consistent(Apply(st, op, today))
  {
    hide NavOf, LotOf, NewAvg;
  }

  function Drawdown(st: KeyState): real {
    if st.navPeak <= 0.0 then 0.0 else (st.nav - st.navPeak) / st.navPeak
  }

  lemma DrawdownNeverPositive(ops: seq<(Op, int)>, start: int)
    ensures Drawdown(Run(ops, start)) <= 0.0
  {
    NavAlwaysConsistent(ops, start);
    var st := Run(ops, start);
    if st.navPeak > 0.0 {
      assert st.nav - st.navPeak <= 0.0;
      NonPositiveQuotient(st.nav - st.navPeak, st.navPeak);
    }
  }

  lemma NonPositiveQuotient(a: real, b: real)
    requires a <= 0.0 && b > 0.0
    ensures a / b <= 0.0
  {
  }

  // ----- Average cost is an average -----

  ghost predicate AvgWithin(lot: Lot, lo: real, hi: real) {
    lot.avgCost.Some? ==> lo <= lot.avgCost.value <= hi
  }

  lemma Convex(a: real, p: real, q: real, s: real, lo: real, hi: real)
    requires (q > 0.0 && s > 0.0) || (q < 0.0 && s < 0.0)
    requires lo <= a <= hi && lo <= p <= hi
    ensures q + s != 0.0 && lo <= Vwap(a, q, p, s) <= hi
  {
    if q > 0.0 {
      ConvexUp(a, p, q, s, lo, hi);
    } else {
      ConvexUp(a, p, -q, -s, lo, hi);
      VwapMirror(a, p, q, s);
    }
  }

  lemma VwapMirror(a: real, p: real, q: real, s: real)
    requires q + s != 0.0
    ensures Vwap(a, -q, p, -s) == Vwap(a, q, p, s)
  {
    var n, d := a * q + p * s, q + s;
    assert a * (-q) + p * (-s) == -n && -q + -s == -d;
    assert (-n) / (-d) == n / d;
  }

  lemma ConvexUp(a: real, p: real, q: real, s: real, lo: real, hi: real)
    requires q > 0.0 && s > 0.0 && lo <= a <= hi && lo <= p <= hi
    ensures lo <= Vwap(a, q, p, s) <= hi
  {
    WeightedLeq(lo, lo, a, p, q, s);
    Distribute(lo, q, s);
    WeightedLeq(a, p, hi, hi, q, s);
    Distribute(hi, q, s);
    QuotientBetween(a * q + p * s, q + s, lo, hi);
  }

  lemma WeightedLeq(a: real, b: real, c: real, d: real, q: real, s: real)
    requires a <= c && b <= d && q > 0.0 && s > 0.0
    ensures a * q + b * s <= c * q + d * s
  {
    Scale(a, c, q);
    Scale(b, d, s);
  }

  lemma QuotientBetween(n: real, d: real, lo: real, hi: real)
    requires d > 0.0 && lo * d <= n <= hi * d
    ensures lo <= n / d <= hi
  {
    var x := n / d;
    assert x * d == n;
    if x < lo {
      ScaleStrict(x, lo, d);
    } else if x > hi {
      ScaleStrict(hi, x, d);
    }
  }

  /** If every fill price of a symbol lies in `[lo, hi]`, so does its average cost, after any run at all. */
  lemma {:induction false} AvgCostWithinPrices(ops: seq<(Op, int)>, start: int, sym: Symbol, lo: real, hi: real)
    requires forall i :: 0 <= i < |ops| && ops[i].0.Fill? && ops[i].0.sym == sym && ops[i].0.px.Some?
               ==> lo <= ops[i].0.px.value <= hi
    ensures AvgWithin(LotOf(Run(ops, start), sym), lo, hi)
    decreases |ops|
  {
    if ops != [] {
      var l := |ops| - 1;
      AvgCostWithinPrices(ops[..l], start, sym, lo, hi);
      AvgStep(Run(ops[..l], start), ops[l].0, ops[l].1, sym, lo, hi);
    }
  }

  lemma AvgStep(st: KeyState, op: Op, today: int, sym: Symbol, lo: real, hi: real)
    requires AvgWithin(LotOf(st, sym), lo, hi)
    requires op.Fill? && op.sym == sym && op.px.Some? ==> lo <= op.px.value <= hi
    ensures AvgWithin(LotOf(Apply(st, op, today), sym), lo, hi)
  {
    hide NavOf;
    if op.Fill? && op.sym == sym && op.total.Some? {
      NewAvgWithin(LotOf(st, sym), Signed(op.side, op.total.value - FilledOf(st, op.oid)), op.px, lo, hi);
      hide NewAvg;
    }
  }

  lemma NewAvgWithin(lot: Lot, signed: real, px: Option<real>, lo: real, hi: real)
    requires AvgWithin(lot, lo, hi) && (px.Some? ==> lo <= px.value <= hi)
    ensures NewAvg(lot, signed, px).Some? ==> lo <= NewAvg(lot, signed, px).value <= hi
  {
    hide Vwap;
    if px.Some? && lot.avgCost.Some? && ((lot.qty > 0.0 && signed > 0.0) || (lot.qty < 0.0 && signed < 0.0)) {
      Convex(lot.avgCost.value, px.value, lot.qty, signed, lo, hi);
    }
  }

  // ----- Replay equivalence -----

  datatype Update = Update(oid: OrderId, total: Option<real>, px: Option<real>)

  /** Every order has one symbol and one side. */
  type OrderBook = OrderId -> (Symbol, Side)

  ghost function Replay(book: OrderBook, us: seq<Update>, today: int): KeyState {
    if us == [] then NewKey(today)
    else
      var l := |us| - 1;
      var u := us[l];
      ApplyFill(Replay(book, us[..l], today), u.oid, book(u.oid).0, book(u.oid).1, u.total, u.px, today)
  }

  /** The last cumulative quantity reported for an order, zero before any report. */
  function LastTotal(us: seq<Update>, oid: OrderId): real {
    if us == [] then 0.0
    else
      var u := us[|us| - 1];
      if u.oid == oid && u.total.Some? then u.total.value else LastTotal(us[..|us| - 1], oid)
  }

  function Share(book: OrderBook, us: seq<Update>, sym: Symbol): OrderId -> real {
    oid => if book(oid).0 == sym then Signed(book(oid).1, LastTotal(us, oid)) else 0.0
  }

  /**
   However often orders report, in whatever order, with repeats and with
   totals that go back, each lot holds the signed sum of the orders' last totals.
   */
  lemma {:induction false} ReplayEquivalence(book: OrderBook, us: seq<Update>, orders: set<OrderId>, sym: Symbol, today: int)
    requires forall i :: 0 <= i < |us| ==> us[i].oid in orders
    ensures LotOf(Replay(book, us, today), sym).qty == SumOver(orders, Share(book, us, sym))
    ensures forall oid :: FilledOf(Replay(book, us, today), oid) == LastTotal(us, oid)
    decreases |us|
  {
    hide ApplyFill, SumOver;
    if us == [] {
      Congruent(orders, Share(book, us, sym), (o: OrderId) => 0.0);
      SumOfZeros(orders);
    } else {
      var l := |us| - 1;
      var u := us[l];
      ReplayEquivalence(book, us[..l], orders, sym, today);
      FillMoves(Replay(book, us[..l], today), u.oid, book(u.oid).0, book(u.oid).1, u.total, u.px, today, sym);
      Changed(orders, u.oid, Share(book, us[..l], sym), Share(book, us, sym));
    }
  }

  /** One cumulative update moves its own lot by the signed increase, and nothing else. */
  lemma FillMoves(st: KeyState, oid: OrderId, osym: Symbol, side: Side, total: Option<real>, px: Option<real>, today: int, sym: Symbol)
    ensures var st' := ApplyFill(st, oid, osym, side, total, px, today);
            var now := if total.Some? then total.value else FilledOf(st, oid);
            && LotOf(st', sym).qty == LotOf(st, sym).qty + (if sym == osym then Signed(side, now - FilledOf(st, oid)) else 0.0)
            && FilledOf(st', oid) == now
            && forall o :: o != oid ==> FilledOf(st', o) == FilledOf(st, o)
  {
    hide NavOf, NewAvg, Vwap;
  }

  lemma {:induction false} SumOfZeros(s: set<OrderId>)
    ensures SumOver(s, (o: OrderId) => 0.0) == 0.0
    decreases |s|
  {
    if s != {} {
      var x :| x in s;
      Pick(s, x, (o: OrderId) => 0.0);
      SumOfZeros(s - {x});
    }
  }

  /** Two histories that end on the same totals leave the same positions. */
  lemma HistoryIndependent(book: OrderBook, us: seq<Update>, vs: seq<Update>, sym: Symbol, today: int)
    requires forall oid :: LastTotal(us, oid) == LastTotal(vs, oid)
    ensures LotOf(Replay(book, us, today), sym).qty == LotOf(Replay(book, vs, today), sym).qty
  {
    var orders := (set i | 0 <= i < |us| :: us[i].oid) + (set i | 0 <= i < |vs| :: vs[i].oid);
    ReplayEquivalence(book, us, orders, sym, today);
    ReplayEquivalence(book, vs, orders, sym, today);
    Congruent(orders, Share(book, us, sym), Share(book, vs, sym));
  }
}
