/**
 The router's daily figure for a strategy is a plain cash-flow sum over fill
 rows.  It is set against average-cost accounting kept on its own, in one
 holding per account and symbol, where a fill that carries a holding through
 zero closes all of it and opens the rest at its own price.
 */
module CashFlow {
  import opened Sums
  import opened Tracker
  import opened Ledger

  /** The rows the router's query keeps: live, joined to an order of the strategy. */
  predicate Joined(orders: map<OrderId, OrderRow>, strategy: Strategy, row: FillRow) {
    !row.isSnapshot && row.oid in orders && orders[row.oid].strategy == strategy
  }

  function Flow(orders: map<OrderId, OrderRow>, row: FillRow): real
    requires row.oid in orders
  {
    if orders[row.oid].side == Sell then row.price * row.qty else -row.price * row.qty
  }

  /** `_sync_strategy_daily_pnl`: the sum of signed notionals since `start`. */
  function RouterPnl(orders: map<OrderId, OrderRow>, strategy: Strategy, start: int, rows: seq<FillRow>): real {
    if rows == [] then 0.0
    else
      var row := rows[|rows| - 1];
      RouterPnl(orders, strategy, start, rows[..|rows| - 1])
        + if Joined(orders, strategy, row) && row.at >= start then Flow(orders, row) else 0.0
  }

  /**
   One more row counts if and only if it was filled live, at or after the
   start of the day, for a known order of the strategy; it then adds what a
   sell brings in or takes off what a buy pays out.
   */
  lemma RouterAdds(orders: map<OrderId, OrderRow>, strategy: Strategy, start: int, rows: seq<FillRow>, row: FillRow)
    ensures RouterPnl(orders, strategy, start, []) == 0.0
    ensures RouterPnl(orders, strategy, start, rows + [row])
         == RouterPnl(orders, strategy, start, rows)
            + if row.oid in orders && orders[row.oid].strategy == strategy && !row.isSnapshot && start <= row.at then
                if orders[row.oid].side.Sell? then row.qty * row.price else 0.0 - row.qty * row.price
              else 0.0
  {
    assert (rows + [row])[..|rows|] == rows;
  }

  // ----- Average-cost accounting -----

  datatype Holding = Holding(qty: real, avg: real)

  const Nothing := Holding(0.0, 0.0)

  predicate Opposes(q: real, signed: real) {
    (q > 0.0 && signed < 0.0) || (q < 0.0 && signed > 0.0)
  }

  predicate Crosses(q: real, signed: real) {
    (q > 0.0 && q + signed < 0.0) || (q < 0.0 && q + signed > 0.0)
  }

  /** Adding averages, reducing keeps the average, and what opens from zero or beyond it opens at the fill's price. */
  function Traded(h: Holding, signed: real, px: real): Holding {
    var q := h.qty + signed;
    if q == 0.0 then Nothing
    else if h.qty == 0.0 || Crosses(h.qty, signed) then Holding(q, px)
    else if Opposes(h.qty, signed) then Holding(q, h.avg)
    else Holding(q, Vwap(h.avg, h.qty, px, signed))
  }

  /** Shares closed times the price difference in the holder's favour. */
  function Gain(h: Holding, signed: real, px: real): real {
    if !Opposes(h.qty, signed) then 0.0
    else
      var closed := if Abs(signed) < Abs(h.qty) then Abs(signed) else Abs(h.qty);
      if h.qty > 0.0 then closed * (px - h.avg) else closed * (h.avg - px)
  }

  /** Average cost times quantity. */
  function Cost(h: Holding): real {
    h.avg * h.qty
  }

  /** One fill: the cash it brings in, and what it adds to the cost of the holding, make its gain. */
  lemma HoldingIdentity(h: Holding, signed: real, px: real)
    ensures -signed * px + Cost(Traded(h, signed, px)) - Cost(h) == Gain(h, signed, px)
  {
    var q := h.qty;
    if q == 0.0 || signed == 0.0 {
      OpensOrStays(h, signed, px);
    } else if !Opposes(q, signed) {
      AddsUp(h, signed, px);
    } else if Crosses(q, signed) {
      CrossesOver(h, signed, px);
    } else {
      Reduces(h, signed, px);
    }
  }

  lemma OpensOrStays(h: Holding, signed: real, px: real)
    requires h.qty == 0.0 || signed == 0.0
    ensures -signed * px + Cost(Traded(h, signed, px)) - Cost(h) == Gain(h, signed, px)
  {
    if h.qty != 0.0 { ProductOfQuotient(h.avg * h.qty, h.qty); }
  }

  lemma AddsUp(h: Holding, signed: real, px: real)
    requires h.qty != 0.0 && signed != 0.0 && !Opposes(h.qty, signed)
    ensures -signed * px + Cost(Traded(h, signed, px)) - Cost(h) == Gain(h, signed, px)
  {
    ProductOfQuotient(h.avg * h.qty + px * signed, h.qty + signed);
  }

  lemma CrossesOver(h: Holding, signed: real, px: real)
    requires Crosses(h.qty, signed)
    ensures -signed * px + Cost(Traded(h, signed, px)) - Cost(h) == Gain(h, signed, px)
  {
    Distribute(px, h.qty, signed);
  }

  lemma Reduces(h: Holding, signed: real, px: real)
    requires Opposes(h.qty, signed) && !Crosses(h.qty, signed)
    ensures -signed * px + Cost(Traded(h, signed, px)) - Cost(h) == Gain(h, signed, px)
  {
    Distribute(h.avg, h.qty, signed);
  }

  lemma ProductOfQuotient(n: real, d: real)
    requires d != 0.0
    ensures n / d * d == n
  {
  }

  // ----- The book of a strategy -----

  type Books = map<(Account, Symbol), Holding>

  function HoldingOf(books: Books, k: (Account, Symbol)): Holding {
    if k in books then books[k] else Nothing
  }

  function SignedQty(orders: map<OrderId, OrderRow>, row: FillRow): real
    requires row.oid in orders
  {
    Signed(orders[row.oid].side, row.qty)
  }

  function Enter(orders: map<OrderId, OrderRow>, books: Books, row: FillRow): Books
    requires row.oid in orders
  {
    var k := (row.acct, row.sym);
    books[k := Traded(HoldingOf(books, k), SignedQty(orders, row), row.price)]
  }

  /** All fills the router joins to the strategy, each on its order's side, in table order. */
  function BooksOf(orders: map<OrderId, OrderRow>, strategy: Strategy, rows: seq<FillRow>): Books {
    if rows == [] then map[]
    else
      var row, books := rows[|rows| - 1], BooksOf(orders, strategy, rows[..|rows| - 1]);
      if Joined(orders, strategy, row) then Enter(orders, books, row) else books
  }

  function GainOf(orders: map<OrderId, OrderRow>, books: Books, row: FillRow): real
    requires row.oid in orders
  {
    Gain(HoldingOf(books, (row.acct, row.sym)), SignedQty(orders, row), row.price)
  }

  /** What a fill adds to the cost of its holding. */
  function CostAdded(orders: map<OrderId, OrderRow>, books: Books, row: FillRow): real
    requires row.oid in orders
  {
    var h := HoldingOf(books, (row.acct, row.sym));
    Cost(Traded(h, SignedQty(orders, row), row.price)) - Cost(h)
  }

  /** The average-cost profit that the fills since `start` realised. */
  function Realised(orders: map<OrderId, OrderRow>, strategy: Strategy, start: int, rows: seq<FillRow>): real {
    if rows == [] then 0.0
    else
      var row, init := rows[|rows| - 1], rows[..|rows| - 1];
      Realised(orders, strategy, start, init)
        + if Joined(orders, strategy, row) && row.at >= start then GainOf(orders, BooksOf(orders, strategy, init), row) else 0.0
  }

  /** What the fills since `start` added to the cost of the holdings. */
  function CostMoved(orders: map<OrderId, OrderRow>, strategy: Strategy, start: int, rows: seq<FillRow>): real {
    if rows == [] then 0.0
    else
      var row, init := rows[|rows| - 1], rows[..|rows| - 1];
      CostMoved(orders, strategy, start, init)
        + if Joined(orders, strategy, row) && row.at >= start then CostAdded(orders, BooksOf(orders, strategy, init), row) else 0.0
  }

  lemma FillIdentity(orders: map<OrderId, OrderRow>, books: Books, row: FillRow)
    requires row.oid in orders
    ensures Flow(orders, row) + CostAdded(orders, books, row) == GainOf(orders, books, row)
  {
    HoldingIdentity(HoldingOf(books, (row.acct, row.sym)), SignedQty(orders, row), row.price);
    FlowIsCash(orders, row);
    hide Traded, Gain, Cost, Flow;
  }

  lemma FlowIsCash(orders: map<OrderId, OrderRow>, row: FillRow)
    requires row.oid in orders
    ensures Flow(orders, row) == -SignedQty(orders, row) * row.price
  {
  }

  /**
   The accounting identity, for every history of fills in any order: the
   router's figure for the day, plus what the day's fills added to the cost of
   the holdings, is the average-cost profit the day's fills realised.  So the
   figure is that profit exactly when the day leaves the cost as it found it.
   */
  lemma {:induction false} CashFlowIdentity(orders: map<OrderId, OrderRow>, strategy: Strategy, start: int, rows: seq<FillRow>)
    ensures RouterPnl(orders, strategy, start, rows) + CostMoved(orders, strategy, start, rows) == Realised(orders, strategy, start, rows)
    ensures RouterPnl(orders, strategy, start, rows) == Realised(orders, strategy, start, rows)
       <==> CostMoved(orders, strategy, start, rows) == 0.0
    decreases |rows|
  {
    hide Flow, CostAdded, GainOf, BooksOf;
    if rows != [] {
      var l := |rows| - 1;
      CashFlowIdentity(orders, strategy, start, rows[..l]);
      if Joined(orders, strategy, rows[l]) { FillIdentity(orders, BooksOf(orders, strategy, rows[..l]), rows[l]); }
    }
  }

  // ----- From flat to flat -----

  function CostIn(books: Books): ((Account, Symbol)) -> real {
    k => Cost(HoldingOf(books, k))
  }

  /** Average cost times quantity, over all holdings. */
  ghost function Exposure(books: Books): real {
    SumOver(books.Keys, CostIn(books))
  }

  lemma ExposureChange(orders: map<OrderId, OrderRow>, books: Books, row: FillRow)
    requires row.oid in orders
    ensures Exposure(Enter(orders, books, row)) == Exposure(books) + CostAdded(orders, books, row)
  {
    hide Cost, Traded, SumOver, SignedQty;
    var k, after := (row.acct, row.sym), Enter(orders, books, row);
    var f, g := CostIn(books), CostIn(after);
    assert g(k) == Cost(Traded(HoldingOf(books, k), SignedQty(orders, row), row.price));
    if k in books {
      assert after.Keys == books.Keys;
      Changed(books.Keys, k, f, g);
    } else {
      assert after.Keys == books.Keys + {k};
      Added(books.Keys, k, g);
      Congruent(books.Keys, f, g);
      NothingCosts();
    }
  }

  lemma NothingCosts()
    ensures Cost(Nothing) == 0.0
  {
  }

  /** `n` rows before the day, the rest on it. */
  ghost predicate DayStartsAt(rows: seq<FillRow>, n: nat, start: int) {
    && n <= |rows|
    && (forall i :: 0 <= i < n ==> rows[i].at < start)
    && (forall i :: n <= i < |rows| ==> rows[i].at >= start)
  }

  lemma {:induction false} NothingBefore(orders: map<OrderId, OrderRow>, strategy: Strategy, start: int, rows: seq<FillRow>)
    requires forall i :: 0 <= i < |rows| ==> rows[i].at < start
    ensures CostMoved(orders, strategy, start, rows) == 0.0
    decreases |rows|
  {
    hide BooksOf, CostAdded;
    if rows != [] { NothingBefore(orders, strategy, start, rows[..|rows| - 1]); }
  }

  /** When the table holds the day's fills after all earlier ones, the cost moved is the change of exposure. */
  lemma {:induction false} MovedIsChange(orders: map<OrderId, OrderRow>, strategy: Strategy, start: int, rows: seq<FillRow>, n: nat)
    requires DayStartsAt(rows, n, start)
    ensures CostMoved(orders, strategy, start, rows)
         == Exposure(BooksOf(orders, strategy, rows)) - Exposure(BooksOf(orders, strategy, rows[..n]))
    decreases |rows|
  {
    hide CostAdded, Exposure, Enter;
    if n == |rows| {
      assert rows[..n] == rows;
      NothingBefore(orders, strategy, start, rows);
    } else {
      var l := |rows| - 1;
      var init := rows[..l];
      assert init[..n] == rows[..n];
      MovedIsChange(orders, strategy, start, init, n);
      if Joined(orders, strategy, rows[l]) { ExposureChange(orders, BooksOf(orders, strategy, init), rows[l]); }
    }
  }

  ghost predicate Flat(books: Books) {
    forall k :: HoldingOf(books, k).qty == 0.0
  }

  lemma {:induction false} FlatExposure(books: Books, keys: set<(Account, Symbol)>)
    requires Flat(books)
    ensures SumOver(keys, CostIn(books)) == 0.0
    decreases |keys|
  {
    hide Flat, CostIn, HoldingOf, Cost;
    if keys != {} {
      var k :| k in keys;
      NoCost(books, k);
      Pick(keys, k, CostIn(books));
      hide SumOver;
      FlatExposure(books, keys - {k});
    }
  }

  lemma NoCost(books: Books, k: (Account, Symbol))
    requires Flat(books)
    ensures CostIn(books)(k) == 0.0
  {
    assert HoldingOf(books, k).qty == 0.0;
  }

  /** From flat to flat the router's figure is exactly the realised profit of the day, whatever its fills crossed. */
  lemma FlatToFlat(orders: map<OrderId, OrderRow>, strategy: Strategy, start: int, rows: seq<FillRow>, n: nat)
    requires DayStartsAt(rows, n, start)
    requires Flat(BooksOf(orders, strategy, rows[..n])) && Flat(BooksOf(orders, strategy, rows))
    ensures RouterPnl(orders, strategy, start, rows) == Realised(orders, strategy, start, rows)
  {
    hide RouterPnl, Realised, CostMoved, BooksOf, Flat;
    CashFlowIdentity(orders, strategy, start, rows);
    MovedIsChange(orders, strategy, start, rows, n);
    var a, b := BooksOf(orders, strategy, rows[..n]), BooksOf(orders, strategy, rows);
    FlatExposure(a, a.Keys);
    FlatExposure(b, b.Keys);
  }
}
