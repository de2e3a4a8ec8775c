/**
 Bounded loss, conservation and solvency of the daily simulations 002 and 004,
 over every run and whatever the indicator columns say.
 */
module MultiSimLaws {
  import opened Sums
  import opened MultiSim

  // ----- Conservation -----

  function Cost(p: Pos): real { Value(p.shares, p.p0) }

  function PnlOf(c: Closed): real {
    Profit(c.pos.shares, c.pos.p0, c.exitPrice)
  }

  /** The entry value of a closed position. */
  function CostClosed(c: Closed): real { Cost(c.pos) }

  function Wealth(b: Book): real {
    b.cash + SeqSum(b.positions, Cost) - SeqSum(b.log, PnlOf)
  }

  lemma {:induction false} EnterWealth(total: real, slot: real, maxPos: nat, gate: bool, rows: DayRows, di: int, b: Book, ss: seq<Sym>)
    ensures Wealth(Enter(total, slot, maxPos, gate, rows, di, b, ss)) == Wealth(b)
    decreases |ss|
  {
    if ss != [] && |b.positions| < maxPos {
      EnterOneWealth(total, slot, gate, rows, di, b, ss[0]);
      hide EnterOne, Wealth;
      EnterWealth(total, slot, maxPos, gate, rows, di, EnterOne(total, slot, gate, rows, di, b, ss[0]), ss[1..]);
    }
  }

  lemma EnterOneWealth(total: real, slot: real, gate: bool, rows: DayRows, di: int, b: Book, s: Sym)
    ensures Wealth(EnterOne(total, slot, gate, rows, di, b, s)) == Wealth(b)
  {
    hide Holds, Used, Min, Value;
    var z := EnterOne(total, slot, gate, rows, di, b, s);
    if z != b {
      var p := z.positions[|b.positions|];
      assert z.positions == b.positions + [p] && z.positions[..|b.positions|] == b.positions;
    }
  }

  /** A pass over the positions moves value from open to closed, and loses none. */
  lemma {:induction false} PassWealth(rule: Pos -> Option<real>, b: Book, ps: seq<Pos>)
    ensures Wealth(Pass(rule, b, ps)) == b.cash + SeqSum(ps, Cost) - SeqSum(b.log, PnlOf)
    decreases |ps|
  {
    if ps != [] {
      var l := |ps| - 1;
      PassWealth(rule, b, ps[..l]);
      var before, p := Pass(rule, b, ps[..l]), ps[l];
      hide Value;
      if rule(p).Some? {
        var c := Closed(p, rule(p).value);
        ProfitIsDifference(c.pos.shares, c.pos.p0, c.exitPrice);
        hide PnlOf;
        assert (before.log + [c])[..|before.log|] == before.log;
      } else {
        assert (before.positions + [p])[..|before.positions|] == before.positions;
      }
    }
  }

  lemma Day002Wealth(syms: seq<Sym>, total: real, slot: real, maxPos: nat, days: seq<DayRows>, vix: seq<Option<real>>, di: nat, b: Book)
    requires di < |days|
    ensures Wealth(Day002(syms, total, slot, maxPos, days, vix, di, b)) == Wealth(b)
  {
    hide Enter, Pass, NextPending, SeqSum, Stop002, Close002, Calm, VixAt, RowsAt;
    var gate := Calm(VixAt(vix, di - 1));
    EnterWealth(total, slot, maxPos, gate, days[di], di, b.(pending := []), b.pending);
    var b1 := Enter(total, slot, maxPos, gate, days[di], di, b.(pending := []), b.pending);
    PassWealth(Stop002(days[di]), b1, b1.positions);
    var b2 := Pass(Stop002(days[di]), b1, b1.positions);
    PassWealth(Close002(RowsAt(days, di - 1), days[di], di), b2, b2.positions);
  }

  lemma Day004Wealth(syms: seq<Sym>, total: real, slot: real, maxPos: nat, days: seq<DayRows>, di: nat, b: Book)
    requires di < |days|
    ensures Wealth(Day004(syms, total, slot, maxPos, days, di, b)) == Wealth(b)
  {
    hide Enter, Pass, NextPending, SeqSum, Exit004;
    EnterWealth(total, slot, maxPos, true, days[di], di, b.(pending := []), b.pending);
    var b1 := Enter(total, slot, maxPos, true, days[di], di, b.(pending := []), b.pending);
    PassWealth(Exit004(days[di], di), b1, b1.positions);
  }

  /** Cash plus open shares at their entry prices is the starting capital plus the profit of closed positions, on every day of every run. */
  lemma {:induction false} Conserved002(syms: seq<Sym>, total: real, slot: real, maxPos: nat, days: seq<DayRows>, vix: seq<Option<real>>, n: nat)
    requires n <= |days|
    ensures var b := Run002(syms, total, slot, maxPos, days, vix, n); b.cash + SeqSum(b.positions, Cost) == total + SeqSum(b.log, PnlOf)
    decreases n
  {
    hide Day002;
    if n > 0 {
      Conserved002(syms, total, slot, maxPos, days, vix, n - 1);
      Day002Wealth(syms, total, slot, maxPos, days, vix, n - 1, Run002(syms, total, slot, maxPos, days, vix, n - 1));
    }
  }

  lemma {:induction false} Conserved004(syms: seq<Sym>, total: real, slot: real, maxPos: nat, days: seq<DayRows>, n: nat)
    requires n <= |days|
    ensures var b := Run004(syms, total, slot, maxPos, days, n); b.cash + SeqSum(b.positions, Cost) == total + SeqSum(b.log, PnlOf)
    decreases n
  {
    hide Day004;
    if n > 0 {
      Conserved004(syms, total, slot, maxPos, days, n - 1);
      Day004Wealth(syms, total, slot, maxPos, days, n - 1, Run004(syms, total, slot, maxPos, days, n - 1));
    }
  }

  // ----- What holds of every open and closed position -----

  ghost predicate ProperRow(r: Row) {
    r.low <= r.close <= r.high && r.close >= 0.0
  }

  ghost predicate ProperDays(days: seq<DayRows>) {
    forall d, s :: 0 <= d < |days| && s in days[d] ==> ProperRow(days[d][s])
  }

  ghost predicate Distinct(ps: seq<Pos>) {
    forall i, j :: 0 <= i < j < |ps| ==> ps[i].sym != ps[j].sym
  }

  ghost predicate Proper(p: Pos) {
    p.shares > 0 && p.p0 > 0.0
  }

  ghost predicate AllProper(ps: seq<Pos>) {
    forall i :: 0 <= i < |ps| ==> Proper(ps[i])
  }

  ghost predicate AllAbove(log: seq<Closed>, lo: real) {
    forall i :: 0 <= i < |log| ==> Proper(log[i].pos) && lo * log[i].pos.p0 <= log[i].exitPrice
  }

  ghost predicate AllBelow(log: seq<Closed>, hi: real) {
    forall i :: 0 <= i < |log| ==> Proper(log[i].pos) && log[i].exitPrice <= hi * log[i].pos.p0
  }

  /** Positions proper and distinct, cash not negative, and every exit so far at `lo` of entry or better. */
  ghost predicate Good(b: Book, maxPos: nat, lo: real) {
    && AllProper(b.positions) && Distinct(b.positions) && |b.positions| <= maxPos
    && b.cash >= -TOLERANCE && AllAbove(b.log, lo)
  }

  lemma {:induction false} EnterGood(total: real, slot: real, maxPos: nat, gate: bool, rows: DayRows, di: int, b: Book, ss: seq<Sym>, lo: real)
    requires Good(b, maxPos, lo)
    ensures var z := Enter(total, slot, maxPos, gate, rows, di, b, ss); Good(z, maxPos, lo) && z.log == b.log
    decreases |ss|
  {
    if ss != [] && |b.positions| < maxPos {
      hide Used, Min, Value, AllAbove;
      EnterGood(total, slot, maxPos, gate, rows, di, EnterOne(total, slot, gate, rows, di, b, ss[0]), ss[1..], lo);
    }
  }

  /** A rule that never sells below `lo` of entry. */
  ghost predicate Floors(rule: Pos -> Option<real>, ps: seq<Pos>, lo: real) {
    forall i :: 0 <= i < |ps| && rule(ps[i]).Some? ==> rule(ps[i]).value >= lo * ps[i].p0
  }

  lemma FloorNotNegative(lo: real, p0: real)
    requires lo >= 0.0 && p0 > 0.0
    ensures lo * p0 >= 0.0
  {
  }

  /** What a pass keeps is a part of what it was given, for which the rule gave no price. */
  lemma {:induction false} PassKeeps(rule: Pos -> Option<real>, b: Book, ps: seq<Pos>)
    ensures var z := Pass(rule, b, ps);
            && (forall i :: 0 <= i < |z.positions| ==> z.positions[i] in ps && rule(z.positions[i]).None?)
            && |z.positions| <= |ps| && (Distinct(ps) ==> Distinct(z.positions)) && (AllProper(ps) ==> AllProper(z.positions))
    decreases |ps|
  {
    if ps != [] {
      var l := |ps| - 1;
      PassKeeps(rule, b, ps[..l]);
      var before := Pass(rule, b, ps[..l]);
      assert forall i :: 0 <= i < |before.positions| ==> before.positions[i] in ps[..l];
      if Distinct(ps) {
        assert Distinct(ps[..l]);
        forall i | 0 <= i < |before.positions| ensures before.positions[i].sym != ps[l].sym {
          assert before.positions[i] in ps[..l];
        }
      }
    }
  }

  lemma {:induction false} PassGood(rule: Pos -> Option<real>, b: Book, ps: seq<Pos>, lo: real)
    requires lo >= 0.0 && AllProper(ps) && b.cash >= -TOLERANCE && AllAbove(b.log, lo) && Floors(rule, ps, lo)
    ensures var z := Pass(rule, b, ps); z.cash >= -TOLERANCE && AllAbove(z.log, lo)
    decreases |ps|
  {
    if ps != [] {
      var l := |ps| - 1;
      PassGood(rule, b, ps[..l], lo);
      if rule(ps[l]).Some? {
        FloorNotNegative(lo, ps[l].p0);
        ValueNotNegative(ps[l].shares, rule(ps[l]).value);
        hide Value;
      }
    }
  }

  lemma {:induction false} PassBelow(rule: Pos -> Option<real>, b: Book, ps: seq<Pos>, hi: real)
    requires AllProper(ps) && AllBelow(b.log, hi)
    requires forall i :: 0 <= i < |ps| && rule(ps[i]).Some? ==> rule(ps[i]).value <= hi * ps[i].p0
    ensures AllBelow(Pass(rule, b, ps).log, hi)
    decreases |ps|
  {
    if ps != [] { PassBelow(rule, b, ps[..|ps| - 1], hi); }
  }

  lemma WholePass(rule: Pos -> Option<real>, b: Book, maxPos: nat, lo: real)
    requires lo >= 0.0 && Good(b, maxPos, lo) && Floors(rule, b.positions, lo)
    ensures Good(Pass(rule, b, b.positions), maxPos, lo)
  {
    PassKeeps(rule, b, b.positions);
    PassGood(rule, b, b.positions, lo);
    hide Pass, Floors, AllAbove;
  }

  /** What survives the stops of a day did not touch its stop, so its close is above it. */
  lemma CloseAboveStop(days: seq<DayRows>, di: nat, b1: Book)
    requires di < |days| && ProperDays(days)
    ensures var b2 := Pass(Stop002(days[di]), b1, b1.positions);
            Floors(Close002(RowsAt(days, di - 1), days[di], di), b2.positions, 0.92)
  {
    PassKeeps(Stop002(days[di]), b1, b1.positions);
    hide Pass;
    var b2 := Pass(Stop002(days[di]), b1, b1.positions);
    forall i | 0 <= i < |b2.positions| && b2.positions[i].sym in days[di]
      ensures days[di][b2.positions[i].sym].close >= 0.92 * b2.positions[i].p0
    {
      assert ProperRow(days[di][b2.positions[i].sym]);
    }
  }

  /**
   Strategy 002, any run on proper bars: every closed trade exits at no less
   than 0.92 of its entry, cash never runs out, and at most `maxPos` distinct
   symbols are held.
   */
  lemma {:induction false} BoundedLoss002(syms: seq<Sym>, total: real, slot: real, maxPos: nat, days: seq<DayRows>, vix: seq<Option<real>>, n: nat)
    requires n <= |days| && ProperDays(days) && total >= -TOLERANCE
    ensures Good(Run002(syms, total, slot, maxPos, days, vix, n), maxPos, 0.92)
    decreases n
  {
    if n > 0 {
      var di, b := n - 1, Run002(syms, total, slot, maxPos, days, vix, n - 1);
      hide Day002, Good, ProperDays;
      BoundedLoss002(syms, total, slot, maxPos, days, vix, di);
      Day002Good(syms, total, slot, maxPos, days, vix, di, b);
    } else {
      hide Value;
    }
  }

  lemma Day002Good(syms: seq<Sym>, total: real, slot: real, maxPos: nat, days: seq<DayRows>, vix: seq<Option<real>>, di: nat, b: Book)
    requires di < |days| && ProperDays(days) && Good(b, maxPos, 0.92)
    ensures Good(Day002(syms, total, slot, maxPos, days, vix, di, b), maxPos, 0.92)
  {
    hide Enter, Pass, NextPending, AllProper, Distinct, AllAbove, ProperDays, Stop002, Close002, Floors;
    var gate := Calm(VixAt(vix, di - 1));
    EnterGood(total, slot, maxPos, gate, days[di], di, b.(pending := []), b.pending, 0.92);
    var b1 := Enter(total, slot, maxPos, gate, days[di], di, b.(pending := []), b.pending);
    StopFloors(days[di], b1.positions);
    WholePass(Stop002(days[di]), b1, maxPos, 0.92);
    var b2 := Pass(Stop002(days[di]), b1, b1.positions);
    CloseAboveStop(days, di, b1);
    WholePass(Close002(RowsAt(days, di - 1), days[di], di), b2, maxPos, 0.92);
  }

  lemma StopFloors(rows: DayRows, ps: seq<Pos>)
    ensures Floors(Stop002(rows), ps, 0.92)
  {
  }

  lemma Exit004Bounds(rows: DayRows, di: int, ps: seq<Pos>)
    requires AllProper(ps) && forall s :: s in rows ==> ProperRow(rows[s])
    ensures Floors(Exit004(rows, di), ps, 0.96)
    ensures forall i :: 0 <= i < |ps| && Exit004(rows, di)(ps[i]).Some? ==> Exit004(rows, di)(ps[i]).value <= 1.08 * ps[i].p0
  {
    forall i | 0 <= i < |ps| ensures Proper(ps[i]) && (ps[i].sym in rows ==> ProperRow(rows[ps[i].sym])) {
    }
  }

  lemma Day004Good(syms: seq<Sym>, total: real, slot: real, maxPos: nat, days: seq<DayRows>, di: nat, b: Book)
    requires di < |days| && ProperDays(days) && Good(b, maxPos, 0.96) && AllBelow(b.log, 1.08)
    ensures var z := Day004(syms, total, slot, maxPos, days, di, b); Good(z, maxPos, 0.96) && AllBelow(z.log, 1.08)
  {
    hide Enter, Pass, NextPending, AllProper, Distinct, AllAbove, AllBelow, Exit004, Floors;
    EnterGood(total, slot, maxPos, true, days[di], di, b.(pending := []), b.pending, 0.96);
    var b1 := Enter(total, slot, maxPos, true, days[di], di, b.(pending := []), b.pending);
    Exit004Bounds(days[di], di, b1.positions);
    WholePass(Exit004(days[di], di), b1, maxPos, 0.96);
    PassBelow(Exit004(days[di], di), b1, b1.positions, 1.08);
  }

  /** Strategy 004, any run on proper bars: exits lie within [0.96, 1.08] of entry, with the same solvency. */
  lemma {:induction false} BoundedLoss004(syms: seq<Sym>, total: real, slot: real, maxPos: nat, days: seq<DayRows>, n: nat)
    requires n <= |days| && ProperDays(days) && total >= -TOLERANCE
    ensures var b := Run004(syms, total, slot, maxPos, days, n); Good(b, maxPos, 0.96) && AllBelow(b.log, 1.08)
    decreases n
  {
    hide Day004;
    if n > 0 {
      BoundedLoss004(syms, total, slot, maxPos, days, n - 1);
      hide Good, AllBelow;
      Day004Good(syms, total, slot, maxPos, days, n - 1, Run004(syms, total, slot, maxPos, days, n - 1));
    }
  }

  // ----- Totals -----

  lemma PnlAbove(c: Closed, lo: real)
    requires Proper(c.pos) && c.exitPrice >= lo * c.pos.p0
    ensures PnlOf(c) >= (lo - 1.0) * Cost(c.pos)
  {
    var n, p := c.pos.shares as real, c.pos.p0;
    assert (c.exitPrice - p) - (lo - 1.0) * p >= 0.0;
    assert ((c.exitPrice - p) - (lo - 1.0) * p) * n >= 0.0;
    assert ((c.exitPrice - p) - (lo - 1.0) * p) * n == (c.exitPrice - p) * n - (lo - 1.0) * (n * p);
  }

  lemma PnlBelow(c: Closed, hi: real)
    requires Proper(c.pos) && c.exitPrice <= hi * c.pos.p0
    ensures PnlOf(c) <= (hi - 1.0) * Cost(c.pos)
  {
    var n, p := c.pos.shares as real, c.pos.p0;
    assert (hi - 1.0) * p - (c.exitPrice - p) >= 0.0;
    assert ((hi - 1.0) * p - (c.exitPrice - p)) * n >= 0.0;
    assert ((hi - 1.0) * p - (c.exitPrice - p)) * n == (hi - 1.0) * (n * p) - (c.exitPrice - p) * n;
  }

  lemma {:induction false} TotalAbove(log: seq<Closed>, lo: real)
    requires AllAbove(log, lo)
    ensures SeqSum(log, PnlOf) >= (lo - 1.0) * SeqSum(log, CostClosed)
    decreases |log|
  {
    if log != [] {
      TotalAbove(log[..|log| - 1], lo);
      PnlAbove(log[|log| - 1], lo);
      Distribute(lo - 1.0, SeqSum(log[..|log| - 1], CostClosed), Cost(log[|log| - 1].pos));
      hide PnlOf, Cost;
    }
  }

  lemma {:induction false} TotalBelow(log: seq<Closed>, hi: real)
    requires AllBelow(log, hi)
    ensures SeqSum(log, PnlOf) <= (hi - 1.0) * SeqSum(log, CostClosed)
    decreases |log|
  {
    if log != [] {
      TotalBelow(log[..|log| - 1], hi);
      PnlBelow(log[|log| - 1], hi);
      Distribute(hi - 1.0, SeqSum(log[..|log| - 1], CostClosed), Cost(log[|log| - 1].pos));
      hide PnlOf, Cost;
    }
  }

  /** So the realised loss of strategy 002 never exceeds 8% of what was put into closed positions; 004 loses at most 4% and gains at most 8%. */
  lemma RealisedBounds(syms: seq<Sym>, total: real, slot: real, maxPos: nat, days: seq<DayRows>, vix: seq<Option<real>>, n: nat)
    requires n <= |days| && ProperDays(days) && total >= -TOLERANCE
    ensures var log := Run002(syms, total, slot, maxPos, days, vix, n).log; SeqSum(log, PnlOf) >= (0.92 - 1.0) * SeqSum(log, CostClosed)
    ensures var log := Run004(syms, total, slot, maxPos, days, n).log;
            (0.96 - 1.0) * SeqSum(log, CostClosed) <= SeqSum(log, PnlOf) <= (1.08 - 1.0) * SeqSum(log, CostClosed)
  {
    hide Run002, Run004, SeqSum, AllProper, Distinct;
    BoundedLoss002(syms, total, slot, maxPos, days, vix, n);
    TotalAbove(Run002(syms, total, slot, maxPos, days, vix, n).log, 0.92);
    BoundedLoss004(syms, total, slot, maxPos, days, n);
    TotalAbove(Run004(syms, total, slot, maxPos, days, n).log, 0.96);
    TotalBelow(Run004(syms, total, slot, maxPos, days, n).log, 1.08);
  }

  /** No position with a bar on the last simulated day is older than its time exit: 20 sessions in 002, 10 in 004. */
  lemma TimeExit002(syms: seq<Sym>, total: real, slot: real, maxPos: nat, days: seq<DayRows>, vix: seq<Option<real>>, n: nat)
    requires 0 < n <= |days|
    ensures forall p :: p in Run002(syms, total, slot, maxPos, days, vix, n).positions && p.sym in days[n - 1] ==> n - p.entryIdx < 20
  {
    hide Enter, Pass, NextPending, Stop002, CrossDown, Distinct, AllProper;
    var di := n - 1;
    var b := Run002(syms, total, slot, maxPos, days, vix, di);
    var b1 := Enter(total, slot, maxPos, Calm(VixAt(vix, di - 1)), days[di], di, b.(pending := []), b.pending);
    var b2 := Pass(Stop002(days[di]), b1, b1.positions);
    PassKeeps(Close002(RowsAt(days, di - 1), days[di], di), b2, b2.positions);
  }

  lemma TimeExit004(syms: seq<Sym>, total: real, slot: real, maxPos: nat, days: seq<DayRows>, n: nat)
    requires 0 < n <= |days|
    ensures forall p :: p in Run004(syms, total, slot, maxPos, days, n).positions && p.sym in days[n - 1] ==> n - p.entryIdx < 10
  {
    hide Enter, Pass, NextPending, Distinct, AllProper;
    var di := n - 1;
    var c := Run004(syms, total, slot, maxPos, days, di);
    var c1 := Enter(total, slot, maxPos, true, days[di], di, c.(pending := []), c.pending);
    PassKeeps(Exit004(days[di], di), c1, c1.positions);
  }

  // ----- The marked curve -----

  /** What an open position adds to equity beyond its cost; one without a bar that day is marked at nothing, and takes its whole cost away. */
  function OpenGain(rows: DayRows): Pos -> real {
    (p: Pos) => if p.sym in rows then Profit(p.shares, p.p0, rows[p.sym].close) else -Cost(p)
  }

  lemma {:induction false} MarkedIsCostAndGain(rows: DayRows, ps: seq<Pos>)
    ensures Marked(rows, ps) == SeqSum(ps, Cost) + SeqSum(ps, OpenGain(rows))
    decreases |ps|
  {
    hide Value, Profit;
    if ps != [] {
      var p := ps[|ps| - 1];
      MarkedIsCostAndGain(rows, ps[..|ps| - 1]);
      if p.sym in rows { ProfitIsDifference(p.shares, p.p0, rows[p.sym].close); }
    }
  }

  /** On every day of every run the marked equity is the starting capital plus realised profit plus what the open positions add. */
  lemma EquityIsProfit002(syms: seq<Sym>, total: real, slot: real, maxPos: nat, days: seq<DayRows>, vix: seq<Option<real>>, n: nat)
    requires 0 < n <= |days|
    ensures var b, curve := Run002(syms, total, slot, maxPos, days, vix, n), Equity002(syms, total, slot, maxPos, days, vix, n);
            |curve| > 0 && curve[|curve| - 1] == total + SeqSum(b.log, PnlOf) + SeqSum(b.positions, OpenGain(days[n - 1]))
  {
    hide Run002, Marked, SeqSum;
    Conserved002(syms, total, slot, maxPos, days, vix, n);
    MarkedIsCostAndGain(days[n - 1], Run002(syms, total, slot, maxPos, days, vix, n).positions);
  }

  lemma EquityIsProfit004(syms: seq<Sym>, total: real, slot: real, maxPos: nat, days: seq<DayRows>, n: nat)
    requires 0 < n <= |days|
    ensures var b, curve := Run004(syms, total, slot, maxPos, days, n), Equity004(syms, total, slot, maxPos, days, n);
            |curve| > 0 && curve[|curve| - 1] == total + SeqSum(b.log, PnlOf) + SeqSum(b.positions, OpenGain(days[n - 1]))
  {
    hide Run004, Marked, SeqSum;
    Conserved004(syms, total, slot, maxPos, days, n);
    MarkedIsCostAndGain(days[n - 1], Run004(syms, total, slot, maxPos, days, n).positions);
  }
}
