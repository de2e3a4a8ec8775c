/**
 The average cost the positions table carries: what one fill does to a row,
 and what a place holds that has only ever bought.
 */
module LedgerCosts {
  import opened Sums
  import opened Tracker
  import opened Ledger
  import opened LedgerSafety
  import opened LedgerAccounts

  // ----- One fill -----

  /** A buy onto a long row adds what it cost to what the row cost. */
  lemma BuyAddsCost(positions: map<Place, PositionRow>, p: Place, price: real, qty: real)
    requires qty > 0.0 && p in positions && positions[p].qty > 0.0 && positions[p].avgCost.Some?
    ensures var z := ApplyDbFill(positions, p, price, qty, Buy);
            && p in z && z[p].avgCost.Some? && z[p].qty == positions[p].qty + qty
            && z[p].qty * z[p].avgCost.value == positions[p].qty * positions[p].avgCost.value + qty * price
  {
    var n, d := positions[p].avgCost.value * positions[p].qty + price * qty, positions[p].qty + qty;
    Whole(n, d);
  }

  /** A buy from flat or short leaves the fill's price, and so does one onto a long row without an average. */
  lemma BuySetsCost(positions: map<Place, PositionRow>, p: Place, price: real, qty: real)
    requires qty > 0.0
    requires p in positions && positions[p].qty > 0.0 ==> positions[p].avgCost.None?
    ensures var z := ApplyDbFill(positions, p, price, qty, Buy);
            && (p in z <==> PositionQty(positions, p) + qty != 0.0)
            && (p in z ==> z[p] == PositionRow(PositionQty(positions, p) + qty, Some(price)))
  {
    hide Vwap;
    if p in positions && positions[p].qty > 0.0 { AverageOfOne(price, positions[p].qty, qty); }
  }

  lemma AverageOfOne(price: real, q: real, s: real)
    requires q + s != 0.0
    ensures Vwap(price, q, price, s) == price
  {
    Distribute(price, q, s);
    SameQuotient(price, Vwap(price, q, price, s), q + s);
  }

  lemma SameQuotient(a: real, b: real, d: real)
    requires d != 0.0 && b == (a * d) / d
    ensures a == b
  {
  }

  /** A sell leaves a known average, and the fill's price where there was none. */
  lemma SellKeepsCost(positions: map<Place, PositionRow>, p: Place, price: real, qty: real)
    requires qty > 0.0
    ensures var z := ApplyDbFill(positions, p, price, qty, Sell);
            var known := p in positions && positions[p].avgCost.Some?;
            && (p in z <==> PositionQty(positions, p) - qty != 0.0)
            && (p in z ==> z[p] == PositionRow(PositionQty(positions, p) - qty, if known then positions[p].avgCost else Some(price)))
  {
  }

  /** No fill touches another place, and a fill of no quantity touches none. */
  lemma OtherPlaces(positions: map<Place, PositionRow>, p: Place, price: real, qty: real, side: Side)
    ensures var z := ApplyDbFill(positions, p, price, qty, side);
            && (forall o :: o != p ==> (o in z <==> o in positions) && (o in z ==> z[o] == positions[o]))
            && (qty <= 0.0 ==> z == positions)
  {
    hide AvgAfter;
  }

  // ----- Whole runs -----

  /** The fill the step carries into the positions table. */
  function SettledBy(s: State, step: Step): seq<FillRow> {
    if step.Advance? && step.t < |s.tasks| && s.tasks[step.t].Settle? && InFlight(s.tasks[step.t]).Some? && s.tasks[step.t].e.side.Some?
    then [InFlight(s.tasks[step.t]).value] else []
  }

  function Paid(row: FillRow): real {
    row.price * row.qty
  }

  /** What the rows of a place cost together. */
  function Spent(cfg: Config, rows: seq<FillRow>, p: Place): real {
    if rows == [] then 0.0
    else
      var row := rows[|rows| - 1];
      Spent(cfg, rows[..|rows| - 1], p) + if Effect(cfg, row, p) != 0.0 then Paid(row) else 0.0
  }

  ghost predicate OnlyBought(cfg: Config, rows: seq<FillRow>, p: Place) {
    forall i :: 0 <= i < |rows| && Effect(cfg, rows[i], p) != 0.0 ==> rows[i].side == Some(Buy)
  }

  /** The row of a place that has only bought: all it bought, at what that cost. */
  predicate BoughtRow(positions: map<Place, PositionRow>, units: real, spent: real, p: Place) {
    && units >= 0.0 && (p in positions <==> units > 0.0)
    && (p in positions ==> positions[p].qty == units && positions[p].avgCost.Some? && units * positions[p].avgCost.value == spent)
    && (p !in positions ==> spent == 0.0)
  }

  ghost predicate Bought(cfg: Config, positions: map<Place, PositionRow>, rows: seq<FillRow>, p: Place) {
    BoughtRow(positions, RowSum(cfg, rows, p), Spent(cfg, rows, p), p)
  }

  lemma StepPositions(cfg: Config, s: State, step: Step)
    requires Inv(cfg, s)
    ensures var z, rows := Next(cfg, s, step), SettledBy(s, step);
            if rows == [] then z.positions == s.positions
            else |rows| == 1 && rows[0].acct in cfg.accounts && rows[0].acct != "" && rows[0].sym != "" && !rows[0].isSnapshot && rows[0].side.Some?
                 && z.positions == ApplyDbFill(s.positions, (cfg.accounts[rows[0].acct], rows[0].sym), rows[0].price, rows[0].qty, rows[0].side.value)
  {
    hide Inv, SettleStep, DbErrorStep, Move, RestartStep, CanFailWrite, ApplyDbFill, StrategyOf, Shaped;
    if step.Advance? && Settles(s, step) {
      SettledPositions(cfg, s, step.t);
    } else if step.DbError? {
      if CanFailWrite(s, step.t) { SamePositions(cfg, s, step.t); }
    } else if step.Restart? {
      RestartPositions(s);
    } else {
      OthersLeaveLedgers(cfg, s, step);
      hide Next;
    }
  }

  lemma SettledPositions(cfg: Config, s: State, t: nat)
    requires Inv(cfg, s) && t < |s.tasks| && s.tasks[t].Settle?
    ensures var z, rows := Move(cfg, s, t), SettledBy(s, Advance(t));
            && |rows| == 1 && rows[0].acct in cfg.accounts && rows[0].acct != "" && rows[0].sym != "" && !rows[0].isSnapshot && rows[0].side.Some?
            && z.positions == ApplyDbFill(s.positions, (cfg.accounts[rows[0].acct], rows[0].sym), rows[0].price, rows[0].qty, rows[0].side.value)
  {
    assert Shaped(cfg, s.tasks[t]);
    hide Inv, Track, ApplyDbFill, StrategyOf;
  }

  lemma SamePositions(cfg: Config, s: State, t: nat)
    requires CanFailWrite(s, t)
    ensures DbErrorStep(cfg, s, t).positions == s.positions
  {
    hide Track, StrategyOf;
  }

  lemma RestartPositions(s: State)
    ensures RestartStep(s).positions == s.positions
  {
    hide DropAll;
  }

  lemma SpentMore(cfg: Config, rows: seq<FillRow>, row: FillRow, p: Place)
    ensures Spent(cfg, rows + [row], p) == Spent(cfg, rows, p) + if Effect(cfg, row, p) != 0.0 then Paid(row) else 0.0
  {
    hide Effect;
    assert (rows + [row])[..|rows|] == rows;
  }

  lemma OneMoreBought(cfg: Config, positions: map<Place, PositionRow>, rows: seq<FillRow>, row: FillRow, p: Place)
    requires Bought(cfg, positions, rows, p)
    requires row.acct in cfg.accounts && row.acct != "" && row.sym != "" && !row.isSnapshot && row.side.Some?
    requires Effect(cfg, row, p) != 0.0 ==> row.side == Some(Buy)
    ensures Bought(cfg, ApplyDbFill(positions, (cfg.accounts[row.acct], row.sym), row.price, row.qty, row.side.value), rows + [row], p)
  {
    SpentMore(cfg, rows, row, p);
    RowAdded(cfg, rows, row, p);
    EffectCases(cfg, row, p);
    hide ApplyDbFill, RowSum, Spent, Effect, BoughtRow, Paid;
    if Effect(cfg, row, p) != 0.0 {
      BuyBought(positions, RowSum(cfg, rows, p), Spent(cfg, rows, p), p, row);
    } else {
      OthersBought(positions, RowSum(cfg, rows, p), Spent(cfg, rows, p), p, (cfg.accounts[row.acct], row.sym), row);
    }
  }

  lemma OthersBought(positions: map<Place, PositionRow>, units: real, spent: real, p: Place, at: Place, row: FillRow)
    requires BoughtRow(positions, units, spent, p) && row.side.Some? && (p != at || row.qty <= 0.0)
    ensures BoughtRow(ApplyDbFill(positions, at, row.price, row.qty, row.side.value), units, spent, p)
  {
    OtherPlaces(positions, at, row.price, row.qty, row.side.value);
    hide ApplyDbFill;
  }

  /** A settled row counts at its own place, and only when it has a quantity. */
  lemma EffectCases(cfg: Config, row: FillRow, p: Place)
    requires row.acct in cfg.accounts && row.acct != "" && row.sym != "" && !row.isSnapshot && row.side.Some?
    ensures Effect(cfg, row, p) != 0.0 <==> p == (cfg.accounts[row.acct], row.sym) && row.qty > 0.0
    ensures Effect(cfg, row, p) != 0.0 && row.side == Some(Buy) ==> Effect(cfg, row, p) == row.qty
  {
  }

  lemma BuyBought(positions: map<Place, PositionRow>, units: real, spent: real, p: Place, row: FillRow)
    requires BoughtRow(positions, units, spent, p) && row.qty > 0.0
    ensures BoughtRow(ApplyDbFill(positions, p, row.price, row.qty, Buy), units + row.qty, spent + Paid(row), p)
  {
    hide ApplyDbFill;
    if p in positions { BuyAddsCost(positions, p, row.price, row.qty); } else { BuySetsCost(positions, p, row.price, row.qty); }
  }

  lemma {:induction false} RunBought(cfg: Config, s: State, steps: seq<Step>, p: Place)
    requires Fresh(s) && s.positions == map[] && OnlyBought(cfg, Collected(cfg, s, steps, SettledBy), p)
    ensures Bought(cfg, Ledger.Run(cfg, s, steps).positions, Collected(cfg, s, steps, SettledBy), p)
    decreases |steps|
  {
    FreshInv(cfg, s);
    if steps == [] {
      hide Fresh, Inv;
    } else {
      hide Fresh, Inv, Next, Bought, ApplyDbFill, SettledBy;
      var init, step := steps[..|steps| - 1], steps[|steps| - 1];
      var before, st := Collected(cfg, s, init, SettledBy), Ledger.Run(cfg, s, init);
      RunKeeps(cfg, s, init);
      StepPositions(cfg, st, step);
      var rows := SettledBy(st, step);
      assert Collected(cfg, s, steps, SettledBy) == before + rows;
      PrefixBought(cfg, before, rows, p);
      RunBought(cfg, s, init, p);
      if rows == [] {
        assert before + rows == before;
      } else {
        assert rows == [rows[0]];
        OneMoreBought(cfg, st.positions, before, rows[0], p);
      }
    }
  }

  lemma PrefixBought(cfg: Config, before: seq<FillRow>, rows: seq<FillRow>, p: Place)
    requires OnlyBought(cfg, before + rows, p)
    ensures OnlyBought(cfg, before, p)
    ensures |rows| == 1 && Effect(cfg, rows[0], p) != 0.0 ==> rows[0].side == Some(Buy)
  {
    hide Effect;
    assert forall i :: 0 <= i < |before| ==> (before + rows)[i] == before[i];
    if |rows| == 1 { assert (before + rows)[|before|] == rows[0]; }
  }

  /**
   In every run from an empty positions table, a place whose settled fills were
   all buys holds the summed quantity, and average cost times quantity is the
   summed price times quantity.
   */
  lemma BoughtAtCost(cfg: Config, s: State, steps: seq<Step>, p: Place)
    requires Fresh(s) && s.positions == map[] && OnlyBought(cfg, Collected(cfg, s, steps, SettledBy), p)
    ensures var z, rows := Ledger.Run(cfg, s, steps), Collected(cfg, s, steps, SettledBy);
            && (p in z.positions <==> RowSum(cfg, rows, p) > 0.0)
            && (p in z.positions ==>
                  z.positions[p].qty == RowSum(cfg, rows, p) && z.positions[p].avgCost.Some?
                  && z.positions[p].qty * z.positions[p].avgCost.value == Spent(cfg, rows, p))
  {
    hide Ledger.Run, Collected, RowSum, Spent, Fresh, OnlyBought;
    RunBought(cfg, s, steps, p);
  }
}
