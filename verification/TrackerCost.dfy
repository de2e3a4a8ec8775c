/**
 The tracker's own average cost against average-cost accounting.  The two
 hold the same quantities; the tracker's average is wrong exactly when its
 lot last opened by crossing zero at a price other than the old average,
 because the tracker then keeps the average of the side that was closed.
 */
module TrackerCost {
  import opened Sums
  import opened Tracker
  import opened Ledger
  import opened CashFlow

  /** A row that reaches the lots of a strategy in an account once it settles. */
  predicate Reaches(cfg: Config, orders: map<OrderId, OrderRow>, acct: Account, strategy: Strategy, row: FillRow) {
    && Joined(orders, strategy, row) && row.acct == acct && acct in cfg.accounts
    && acct != "" && row.sym != "" && row.side.Some?
  }

  ghost function Settled(cfg: Config, st: KeyState, row: FillRow): KeyState
    requires row.side.Some?
  {
    ApplyFill(st, row.oid, row.sym, row.side.value, Some(row.qty), Some(row.price), cfg.today)
  }

  /** The tracker's state once the rows have settled in table order, each on its own side. */
  ghost function TrackedBooks(cfg: Config, orders: map<OrderId, OrderRow>, acct: Account, strategy: Strategy, rows: seq<FillRow>): KeyState {
    if rows == [] then NewKey(cfg.today)
    else
      var row, st := rows[|rows| - 1], TrackedBooks(cfg, orders, acct, strategy, rows[..|rows| - 1]);
      if Reaches(cfg, orders, acct, strategy, row) then Settled(cfg, st, row) else st
  }

  // ----- The rows the comparison is about -----

  ghost predicate DistinctOrders(rows: seq<FillRow>) {
    forall i, j :: 0 <= i < j < |rows| ==> rows[i].oid != rows[j].oid
  }

  /** The strategy's fills in the account carry their order's side and can be resolved. */
  ghost predicate SidesAgree(cfg: Config, orders: map<OrderId, OrderRow>, acct: Account, strategy: Strategy, rows: seq<FillRow>) {
    forall i :: 0 <= i < |rows| && Joined(orders, strategy, rows[i]) && rows[i].acct == acct ==>
      Reaches(cfg, orders, acct, strategy, rows[i]) && rows[i].side == Some(orders[rows[i].oid].side)
  }

  function Average(lot: Lot): real {
    if lot.avgCost.Some? then lot.avgCost.value else 0.0
  }

  /** How far the tracker's lot is from the holding: same quantity always, same average unless stale. */
  ghost predicate Matches(lot: Lot, h: Holding, stale: bool) {
    lot.qty == h.qty && (lot.qty != 0.0 ==> lot.avgCost.Some? && (Average(lot) != h.avg <==> stale))
  }

  /** A fill opens the lot by crossing zero away from the average, or leaves a stale lot open. */
  function StaleAfter(lot: Lot, signed: real, px: real, stale: bool): bool {
    if lot.qty == 0.0 then false
    else if Crosses(lot.qty, signed) then px != Average(lot)
    else stale
  }

  lemma VwapInjective(a: real, b: real, q: real, p: real, s: real)
    requires q != 0.0 && q + s != 0.0
    ensures Vwap(a, q, p, s) == Vwap(b, q, p, s) <==> a == b
  {
    if a != b {
      ProductOfQuotient(a * q + p * s, q + s);
      ProductOfQuotient(b * q + p * s, q + s);
      NonZeroProduct(a - b, q);
      assert (a - b) * q == a * q - b * q;
    }
  }

  lemma NonZeroProduct(q: real, d: real)
    requires q != 0.0 && d != 0.0
    ensures q * d != 0.0
  {
  }

  /** One fill: the lot and the holding move together, and staleness is as stated. */
  lemma FillMatches(lot: Lot, h: Holding, signed: real, px: real, stale: bool)
    requires Matches(lot, h, stale) && signed != 0.0
    ensures Matches(Lot(lot.qty + signed, NewAvg(lot, signed, Some(px)), lot.lastPrice), Traded(h, signed, px), StaleAfter(lot, signed, px, stale))
  {
    hide Vwap;
    if lot.qty != 0.0 && !Opposes(lot.qty, signed) {
      VwapInjective(Average(lot), h.avg, lot.qty, px, signed);
    }
  }

  /** Whether the symbol's lot opened last by crossing zero away from its average. */
  ghost function Stale(cfg: Config, orders: map<OrderId, OrderRow>, acct: Account, strategy: Strategy, sym: Symbol, rows: seq<FillRow>): bool {
    if rows == [] then false
    else
      var row, init := rows[|rows| - 1], rows[..|rows| - 1];
      var before := Stale(cfg, orders, acct, strategy, sym, init);
      if !Reaches(cfg, orders, acct, strategy, row) || row.sym != sym || row.qty == 0.0 then before
      else StaleAfter(LotOf(TrackedBooks(cfg, orders, acct, strategy, init), sym), Signed(row.side.value, row.qty), row.price, before)
  }

  // ----- Every history -----

  /** A first report of an order changes its own lot, by its own signed quantity. */
  lemma FirstReport(cfg: Config, st: KeyState, row: FillRow, sym: Symbol)
    requires row.side.Some? && row.oid !in st.orderFilled
    ensures var lot := LotOf(st, sym);
            LotOf(Settled(cfg, st, row), sym) == if row.sym == sym && row.qty != 0.0
              then Lot(lot.qty + Signed(row.side.value, row.qty), NewAvg(lot, Signed(row.side.value, row.qty), Some(row.price)), lot.lastPrice)
              else lot
    ensures forall oid :: oid in Settled(cfg, st, row).orderFilled ==> oid == row.oid || oid in st.orderFilled
  {
    hide NavOf, NewAvg;
  }

  lemma {:induction false} OnlyTheirOrders(cfg: Config, orders: map<OrderId, OrderRow>, acct: Account, strategy: Strategy, rows: seq<FillRow>)
    requires DistinctOrders(rows)
    ensures forall oid :: oid in TrackedBooks(cfg, orders, acct, strategy, rows).orderFilled ==> HasFill(rows, oid)
    ensures rows != [] ==> rows[|rows| - 1].oid !in TrackedBooks(cfg, orders, acct, strategy, rows[..|rows| - 1]).orderFilled
    decreases |rows|
  {
    hide Settled, Reaches;
    if rows != [] {
      var l := |rows| - 1;
      var init, row := rows[..l], rows[l];
      OnlyTheirOrders(cfg, orders, acct, strategy, init);
      assert forall i :: 0 <= i < l ==> init[i] == rows[i];
      Within(init, rows);
      var st := TrackedBooks(cfg, orders, acct, strategy, init);
      if Reaches(cfg, orders, acct, strategy, row) {
        TrackedSide(cfg, orders, acct, strategy, row);
        FirstReport(cfg, st, row, "");
      }
    }
  }

  lemma Within(init: seq<FillRow>, rows: seq<FillRow>)
    requires rows != [] && init == rows[..|rows| - 1]
    ensures forall oid :: HasFill(init, oid) || oid == rows[|rows| - 1].oid ==> HasFill(rows, oid)
  {
    forall oid | HasFill(init, oid) ensures HasFill(rows, oid) {
      var i :| 0 <= i < |init| && init[i].oid == oid;
      assert rows[i].oid == oid;
    }
  }

  lemma TrackedSide(cfg: Config, orders: map<OrderId, OrderRow>, acct: Account, strategy: Strategy, row: FillRow)
    requires Reaches(cfg, orders, acct, strategy, row)
    ensures row.side.Some?
  {
  }

  /**
   In every history of fills, each lot of the tracker has the quantity of the
   account's holding; and while it is open its average is wrong exactly when
   the lot last opened by crossing zero at a price other than its average.
   */
  lemma {:induction false} WrongExactlyWhenStale(cfg: Config, orders: map<OrderId, OrderRow>, acct: Account, strategy: Strategy, sym: Symbol, rows: seq<FillRow>)
    requires DistinctOrders(rows) && SidesAgree(cfg, orders, acct, strategy, rows)
    ensures Matches(LotOf(TrackedBooks(cfg, orders, acct, strategy, rows), sym), HoldingOf(BooksOf(orders, strategy, rows), (acct, sym)),
                    Stale(cfg, orders, acct, strategy, sym, rows))
    decreases |rows|
  {
    hide Settled, StaleAfter, Matches, Enter, DistinctOrders, Reaches, Joined;
    if rows == [] {
      NewMatches(cfg.today, sym);
    } else {
      var l := |rows| - 1;
      var init, row := rows[..l], rows[l];
      OnlyTheirOrders(cfg, orders, acct, strategy, rows);
      assert forall i :: 0 <= i < l ==> init[i] == rows[i];
      SameDistinct(init, rows);
      WrongExactlyWhenStale(cfg, orders, acct, strategy, sym, init);
      RowMatches(cfg, orders, acct, strategy, sym, TrackedBooks(cfg, orders, acct, strategy, init), BooksOf(orders, strategy, init), row,
                 Stale(cfg, orders, acct, strategy, sym, init));
    }
  }

  lemma NewMatches(today: int, sym: Symbol)
    ensures Matches(LotOf(NewKey(today), sym), Nothing, false)
  {
  }

  lemma SameDistinct(init: seq<FillRow>, rows: seq<FillRow>)
    requires rows != [] && init == rows[..|rows| - 1] && DistinctOrders(rows)
    ensures DistinctOrders(init)
  {
  }

  /** The lot, the holding and the staleness after one row. */
  lemma RowMatches(cfg: Config, orders: map<OrderId, OrderRow>, acct: Account, strategy: Strategy, sym: Symbol,
                   st: KeyState, books: Books, row: FillRow, stale: bool)
    requires Matches(LotOf(st, sym), HoldingOf(books, (acct, sym)), stale) && row.oid !in st.orderFilled
    requires Joined(orders, strategy, row) && row.acct == acct ==>
               Reaches(cfg, orders, acct, strategy, row) && row.side == Some(orders[row.oid].side)
    ensures var tracked := Reaches(cfg, orders, acct, strategy, row);
            var st' := if tracked then Settled(cfg, st, row) else st;
            var books' := if Joined(orders, strategy, row) then Enter(orders, books, row) else books;
            var stale' := if !tracked || row.sym != sym || row.qty == 0.0 then stale
                          else StaleAfter(LotOf(st, sym), Signed(row.side.value, row.qty), row.price, stale);
            Matches(LotOf(st', sym), HoldingOf(books', (acct, sym)), stale')
  {
    hide Settled, StaleAfter, Matches, Traded, NewAvg, LotOf;
    if Reaches(cfg, orders, acct, strategy, row) {
      var signed := Signed(row.side.value, row.qty);
      FirstReport(cfg, st, row, sym);
      if row.sym == sym && row.qty != 0.0 {
        FillMatches(LotOf(st, sym), HoldingOf(books, (acct, sym)), signed, row.price, stale);
      } else if row.sym == sym {
        NothingTraded(LotOf(st, sym), HoldingOf(books, (acct, sym)), row.price, stale);
      }
    }
  }

  lemma NothingTraded(lot: Lot, h: Holding, px: real, stale: bool)
    requires Matches(lot, h, stale)
    ensures Matches(lot, Traded(h, 0.0, px), stale)
  {
    if h.qty != 0.0 {
      hide Vwap;
      VwapOfNothing(h.avg, h.qty, px);
    }
  }

  lemma VwapOfNothing(a: real, q: real, p: real)
    requires q != 0.0
    ensures Vwap(a, q, p, 0.0) == a
  {
    ProductOfQuotient(a * q, q);
  }

  /** No fill of the strategy carries a lot of the account through zero. */
  ghost predicate NeverCrosses(cfg: Config, orders: map<OrderId, OrderRow>, acct: Account, strategy: Strategy, rows: seq<FillRow>) {
    forall i :: 0 <= i < |rows| && Reaches(cfg, orders, acct, strategy, rows[i]) ==>
      !Crosses(LotOf(TrackedBooks(cfg, orders, acct, strategy, rows[..i]), rows[i].sym).qty, Signed(rows[i].side.value, rows[i].qty))
  }

  lemma {:induction false} NeverStale(cfg: Config, orders: map<OrderId, OrderRow>, acct: Account, strategy: Strategy, sym: Symbol, rows: seq<FillRow>)
    requires NeverCrosses(cfg, orders, acct, strategy, rows)
    ensures !Stale(cfg, orders, acct, strategy, sym, rows)
    decreases |rows|
  {
    hide TrackedBooks, Reaches, Crosses, LotOf;
    if rows != [] {
      var l := |rows| - 1;
      var init := rows[..l];
      forall i | 0 <= i < l && Reaches(cfg, orders, acct, strategy, init[i])
        ensures init[i].side.Some?
        ensures !Crosses(LotOf(TrackedBooks(cfg, orders, acct, strategy, init[..i]), init[i].sym).qty, Signed(init[i].side.value, init[i].qty))
      {
        TrackedSide(cfg, orders, acct, strategy, init[i]);
        assert init[..i] == rows[..i] && init[i] == rows[i];
      }
      NeverStale(cfg, orders, acct, strategy, sym, init);
      if Reaches(cfg, orders, acct, strategy, rows[l]) {
        TrackedSide(cfg, orders, acct, strategy, rows[l]);
        assert !Crosses(LotOf(TrackedBooks(cfg, orders, acct, strategy, rows[..l]), rows[l].sym).qty, Signed(rows[l].side.value, rows[l].qty));
      }
    }
  }

  // ----- The identity with the tracker's figures -----

  ghost function TrackedLot(cfg: Config, orders: map<OrderId, OrderRow>, strategy: Strategy, rows: seq<FillRow>, k: (Account, Symbol)): Lot {
    LotOf(TrackedBooks(cfg, orders, k.0, strategy, rows), k.1)
  }

  ghost function TrackedCostIn(cfg: Config, orders: map<OrderId, OrderRow>, strategy: Strategy, rows: seq<FillRow>): ((Account, Symbol)) -> real {
    k => Average(TrackedLot(cfg, orders, strategy, rows, k)) * TrackedLot(cfg, orders, strategy, rows, k).qty
  }

  /** The tracker's average cost times quantity, over the lots of a strategy in all its accounts. */
  ghost function TrackedExposure(cfg: Config, orders: map<OrderId, OrderRow>, strategy: Strategy, rows: seq<FillRow>): real {
    SumOver(BooksOf(orders, strategy, rows).Keys, TrackedCostIn(cfg, orders, strategy, rows))
  }

  ghost predicate AllAgree(cfg: Config, orders: map<OrderId, OrderRow>, strategy: Strategy, rows: seq<FillRow>) {
    DistinctOrders(rows) && forall acct :: SidesAgree(cfg, orders, acct, strategy, rows)
  }

  /** No open lot of the strategy is stale. */
  ghost predicate NoneStale(cfg: Config, orders: map<OrderId, OrderRow>, strategy: Strategy, rows: seq<FillRow>) {
    forall k :: TrackedLot(cfg, orders, strategy, rows, k).qty != 0.0 ==> !Stale(cfg, orders, k.0, strategy, k.1, rows)
  }

  /** A lot's cost is that of the holding exactly when the lot is flat or not stale. */
  lemma CostAgrees(cfg: Config, orders: map<OrderId, OrderRow>, strategy: Strategy, rows: seq<FillRow>, k: (Account, Symbol))
    requires AllAgree(cfg, orders, strategy, rows)
    ensures var lot := TrackedLot(cfg, orders, strategy, rows, k);
            (Average(lot) * lot.qty == Cost(HoldingOf(BooksOf(orders, strategy, rows), k)))
            <==> (lot.qty == 0.0 || !Stale(cfg, orders, k.0, strategy, k.1, rows))
  {
    hide TrackedBooks, BooksOf, Stale, SidesAgree, DistinctOrders;
    WrongExactlyWhenStale(cfg, orders, k.0, strategy, k.1, rows);
    var lot, h := TrackedLot(cfg, orders, strategy, rows, k), HoldingOf(BooksOf(orders, strategy, rows), k);
    if lot.qty != 0.0 && Average(lot) != h.avg {
      NonZeroProduct(Average(lot) - h.avg, lot.qty);
      assert (Average(lot) - h.avg) * lot.qty == Average(lot) * lot.qty - h.avg * lot.qty;
    }
  }

  /** What a stale open lot's average is off by, times its quantity; nothing for any other lot. */
  ghost function StaleGapIn(cfg: Config, orders: map<OrderId, OrderRow>, strategy: Strategy, rows: seq<FillRow>): ((Account, Symbol)) -> real {
    k => var lot := TrackedLot(cfg, orders, strategy, rows, k);
         if lot.qty != 0.0 && Stale(cfg, orders, k.0, strategy, k.1, rows)
         then (Average(lot) - HoldingOf(BooksOf(orders, strategy, rows), k).avg) * lot.qty else 0.0
  }

  /** The same over all lots of the strategy. */
  ghost function StaleGap(cfg: Config, orders: map<OrderId, OrderRow>, strategy: Strategy, rows: seq<FillRow>): real {
    SumOver(BooksOf(orders, strategy, rows).Keys, StaleGapIn(cfg, orders, strategy, rows))
  }

  /** The tracker's cost of a lot is the holding's, plus the gap of a stale one. */
  lemma CostGap(cfg: Config, orders: map<OrderId, OrderRow>, strategy: Strategy, rows: seq<FillRow>, k: (Account, Symbol))
    requires AllAgree(cfg, orders, strategy, rows)
    ensures TrackedCostIn(cfg, orders, strategy, rows)(k)
         == CostIn(BooksOf(orders, strategy, rows))(k) + StaleGapIn(cfg, orders, strategy, rows)(k)
  {
    hide TrackedBooks, BooksOf, Stale, SidesAgree, NoDup, DistinctOrders;
    WrongExactlyWhenStale(cfg, orders, k.0, strategy, k.1, rows);
    var lot, h := TrackedLot(cfg, orders, strategy, rows, k), HoldingOf(BooksOf(orders, strategy, rows), k);
    assert (Average(lot) - h.avg) * lot.qty == Average(lot) * lot.qty - h.avg * lot.qty;
  }

  lemma ExposureGap(cfg: Config, orders: map<OrderId, OrderRow>, strategy: Strategy, rows: seq<FillRow>)
    requires AllAgree(cfg, orders, strategy, rows)
    ensures TrackedExposure(cfg, orders, strategy, rows) == Exposure(BooksOf(orders, strategy, rows)) + StaleGap(cfg, orders, strategy, rows)
  {
    hide TrackedBooks, BooksOf, Stale, AllAgree, SumOver, TrackedCostIn, CostIn, StaleGapIn;
    var keys := BooksOf(orders, strategy, rows).Keys;
    var f, g, h := TrackedCostIn(cfg, orders, strategy, rows), CostIn(BooksOf(orders, strategy, rows)), StaleGapIn(cfg, orders, strategy, rows);
    forall k | k in keys ensures f(k) == g(k) + h(k) {
      CostGap(cfg, orders, strategy, rows, k);
    }
    SumsAdd(keys, f, g, h);
  }

  lemma {:induction false} NoGap(cfg: Config, orders: map<OrderId, OrderRow>, strategy: Strategy, rows: seq<FillRow>, keys: set<(Account, Symbol)>)
    requires NoneStale(cfg, orders, strategy, rows)
    ensures SumOver(keys, StaleGapIn(cfg, orders, strategy, rows)) == 0.0
    decreases |keys|
  {
    hide TrackedLot, BooksOf, Stale;
    if keys != {} {
      var k :| k in keys;
      Pick(keys, k, StaleGapIn(cfg, orders, strategy, rows));
      NoGap(cfg, orders, strategy, rows, keys - {k});
    }
  }

  /**
   For every history: the router's figure plus the change in the tracker's
   average cost times quantity is off realised profit by exactly the change in
   the gaps of the stale open lots.
   */
  lemma TrackerIdentity(cfg: Config, orders: map<OrderId, OrderRow>, strategy: Strategy, start: int, rows: seq<FillRow>, n: nat)
    requires DayStartsAt(rows, n, start) && AllAgree(cfg, orders, strategy, rows)
    ensures RouterPnl(orders, strategy, start, rows)
              + TrackedExposure(cfg, orders, strategy, rows) - TrackedExposure(cfg, orders, strategy, rows[..n])
              - Realised(orders, strategy, start, rows)
         == StaleGap(cfg, orders, strategy, rows) - StaleGap(cfg, orders, strategy, rows[..n])
    ensures NoneStale(cfg, orders, strategy, rows) ==> StaleGap(cfg, orders, strategy, rows) == 0.0
    ensures NoneStale(cfg, orders, strategy, rows[..n]) ==> StaleGap(cfg, orders, strategy, rows[..n]) == 0.0
  {
    PrefixAgrees(cfg, orders, strategy, rows, n);
    hide TrackedExposure, Exposure, NoneStale, AllAgree, RouterPnl, Realised, CostMoved, BooksOf, StaleGapIn;
    if NoneStale(cfg, orders, strategy, rows) { NoGap(cfg, orders, strategy, rows, BooksOf(orders, strategy, rows).Keys); }
    if NoneStale(cfg, orders, strategy, rows[..n]) { NoGap(cfg, orders, strategy, rows[..n], BooksOf(orders, strategy, rows[..n]).Keys); }
    hide StaleGap;
    CashFlowIdentity(orders, strategy, start, rows);
    MovedIsChange(orders, strategy, start, rows, n);
    ExposureGap(cfg, orders, strategy, rows);
    ExposureGap(cfg, orders, strategy, rows[..n]);
  }

  lemma PrefixAgrees(cfg: Config, orders: map<OrderId, OrderRow>, strategy: Strategy, rows: seq<FillRow>, n: nat)
    requires AllAgree(cfg, orders, strategy, rows) && n <= |rows|
    ensures AllAgree(cfg, orders, strategy, rows[..n])
  {
    hide Reaches, Joined;
    forall acct ensures SidesAgree(cfg, orders, acct, strategy, rows[..n]) {
      assert SidesAgree(cfg, orders, acct, strategy, rows);
    }
  }

  // ----- A history that shows it -----

  /** Buy 10 at 100, sell 20 at 110. */
  function LongThenShort(acct: Account, sym: Symbol): seq<FillRow> {
    [FillRow("a", 100.0, 10.0, false, acct, sym, Some(Buy), 0), FillRow("b", 110.0, 20.0, false, acct, sym, Some(Sell), 0)]
  }

  function TheirOrders(strategy: Strategy): map<OrderId, OrderRow> {
    map["a" := OrderRow(strategy, Buy, "filled"), "b" := OrderRow(strategy, Sell, "filled"), "c" := OrderRow(strategy, Buy, "filled")]
  }

  /**
   After it the short of ten really opened at 110, and the tracker says 100.
   Buying ten back at 105 ends flat with 150 made, which is the router's
   figure; at the tracker's averages the same three fills gain 50.
   */
  lemma CrossingLeavesItStale(cfg: Config, acct: Account, strategy: Strategy, sym: Symbol)
    requires acct in cfg.accounts && acct != "" && sym != ""
    ensures var orders, rows := TheirOrders(strategy), LongThenShort(acct, sym);
            var lot, h := LotOf(TrackedBooks(cfg, orders, acct, strategy, rows), sym), HoldingOf(BooksOf(orders, strategy, rows), (acct, sym));
            && lot.qty == h.qty == -10.0 && Average(lot) == 100.0 && h.avg == 110.0
            && Stale(cfg, orders, acct, strategy, sym, rows)
            && var all := rows + [FillRow("c", 105.0, 10.0, false, acct, sym, Some(Buy), 0)];
               && RouterPnl(orders, strategy, 0, all) == Realised(orders, strategy, 0, all) == 150.0
               && HoldingOf(BooksOf(orders, strategy, all), (acct, sym)).qty == 0.0
               && Gain(Holding(10.0, 100.0), -20.0, 110.0) + Gain(Holding(lot.qty, Average(lot)), 10.0, 105.0) == 50.0
  {
    TwoFills(cfg, acct, strategy, sym);
    ThreeFills(acct, strategy, sym);
    TheyAgree(cfg, acct, strategy, sym);
    hide TrackedBooks, BooksOf, Stale, RouterPnl, Realised, SidesAgree, DistinctOrders, LongThenShort, TheirOrders, LotOf, HoldingOf;
    WrongExactlyWhenStale(cfg, TheirOrders(strategy), acct, strategy, sym, LongThenShort(acct, sym));
  }

  lemma TheyAgree(cfg: Config, acct: Account, strategy: Strategy, sym: Symbol)
    requires acct in cfg.accounts && acct != "" && sym != ""
    ensures DistinctOrders(LongThenShort(acct, sym)) && SidesAgree(cfg, TheirOrders(strategy), acct, strategy, LongThenShort(acct, sym))
  {
  }

  lemma TwoFills(cfg: Config, acct: Account, strategy: Strategy, sym: Symbol)
    requires acct in cfg.accounts && acct != "" && sym != ""
    ensures LotOf(TrackedBooks(cfg, TheirOrders(strategy), acct, strategy, LongThenShort(acct, sym)), sym) == Lot(-10.0, Some(100.0), None)
    ensures HoldingOf(BooksOf(TheirOrders(strategy), strategy, LongThenShort(acct, sym)), (acct, sym)) == Holding(-10.0, 110.0)
  {
    hide Settled, LotOf;
    var orders, rows := TheirOrders(strategy), LongThenShort(acct, sym);
    var one := rows[..1];
    assert one[..0] == [] && one == [rows[0]];
    assert BooksOf(orders, strategy, []) == map[];
    assert HoldingOf(BooksOf(orders, strategy, one), (acct, sym)) == Holding(10.0, 100.0);
    FirstReport(cfg, NewKey(cfg.today), rows[0], sym);
    EmptyAtFirst(cfg.today, sym);
    assert TrackedBooks(cfg, orders, acct, strategy, []) == NewKey(cfg.today);
    assert TrackedBooks(cfg, orders, acct, strategy, one) == Settled(cfg, NewKey(cfg.today), rows[0]);
    assert DistinctOrders(rows) by { TheyAgree(cfg, acct, strategy, sym); }
    OnlyTheirOrders(cfg, orders, acct, strategy, rows);
    FirstReport(cfg, TrackedBooks(cfg, orders, acct, strategy, one), rows[1], sym);
  }

  lemma EmptyAtFirst(today: int, sym: Symbol)
    ensures LotOf(NewKey(today), sym) == EmptyLot
  {
  }

  lemma ThreeFills(acct: Account, strategy: Strategy, sym: Symbol)
    ensures var orders, rows := TheirOrders(strategy), LongThenShort(acct, sym);
            var all := rows + [FillRow("c", 105.0, 10.0, false, acct, sym, Some(Buy), 0)];
            && RouterPnl(orders, strategy, 0, all) == Realised(orders, strategy, 0, all) == 150.0
            && HoldingOf(BooksOf(orders, strategy, all), (acct, sym)).qty == 0.0
  {
    var orders, rows := TheirOrders(strategy), LongThenShort(acct, sym);
    var all := rows + [FillRow("c", 105.0, 10.0, false, acct, sym, Some(Buy), 0)];
    var one := rows[..1];
    assert all[..2] == rows && one[..0] == [] && one == [rows[0]];
    assert BooksOf(orders, strategy, []) == map[];
    assert HoldingOf(BooksOf(orders, strategy, one), (acct, sym)) == Holding(10.0, 100.0);
    assert HoldingOf(BooksOf(orders, strategy, rows), (acct, sym)) == Holding(-10.0, 110.0);
    assert RouterPnl(orders, strategy, 0, one) == -1000.0;
    assert RouterPnl(orders, strategy, 0, rows) == 1200.0;
    assert Realised(orders, strategy, 0, one) == 0.0;
    assert Realised(orders, strategy, 0, rows) == 100.0;
  }
}
