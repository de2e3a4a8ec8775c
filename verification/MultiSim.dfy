/**
 The multi-strategy simulations: strategies 002 and 004 on daily bars with a
 shared cash book, strategy 006 on five-minute futures bars.  Indicator
 columns (rolling means, bands, RSI, ATR) are inputs; an undefined cell is
 `None`, and comparisons with it are false.
 */
module MultiSim {
  import opened Sums

  type Sym = string

  datatype Row = Row(
    open: real, high: real, low: real, close: real, volume: real,
    sma10: Option<real>, sma20: Option<real>, sma50: Option<real>, volMean20: Option<real>, signal: bool)

  /** One day's rows; a symbol without a bar that day has none. */
  type DayRows = map<Sym, Row>

  datatype Pos = Pos(sym: Sym, shares: int, p0: real, entryIdx: int)

  /** A closed position, kept for the statements below. */
  datatype Closed = Closed(pos: Pos, exitPrice: real)

  datatype Book = Book(cash: real, positions: seq<Pos>, pending: seq<Sym>, trades: nat, log: seq<Closed>)

  function Min(a: real, b: real): real { if b < a then b else a }

  predicate Holds(ps: seq<Pos>, s: Sym) {
    exists i :: 0 <= i < |ps| && ps[i].sym == s
  }

  // ----- Entries at the open -----

  /** Open positions at today's opens; a position without a bar today counts nothing. */
  function Used(rows: DayRows, ps: seq<Pos>): real {
    if ps == [] then 0.0
    else
      var p := ps[|ps| - 1];
      Used(rows, ps[..|ps| - 1]) + if p.sym in rows then Value(p.shares, rows[p.sym].open) else 0.0
  }

  /** What both strategies do with one pending symbol; `gate` is strategy 002's volatility gate. */
  function EnterOne(total: real, slot: real, gate: bool, rows: DayRows, di: int, b: Book, s: Sym): Book {
    if Holds(b.positions, s) || s !in rows || !gate then b
    else
      var px, room := rows[s].open, Min(slot, total - Used(rows, b.positions));
      if room <= 0.0 || px <= 0.0 then b
      else
        var shares := (room / px).Floor;
        if shares <= 0 || Value(shares, px) > b.cash + TOLERANCE then b
        else b.(cash := b.cash - Value(shares, px), positions := b.positions + [Pos(s, shares, px, di)], trades := b.trades + 1)
  }

  /** The pending symbols in order, until `maxPos` positions are open. */
  function Enter(total: real, slot: real, maxPos: nat, gate: bool, rows: DayRows, di: int, b: Book, ss: seq<Sym>): Book
    decreases |ss|
  {
    if ss == [] || |b.positions| >= maxPos then b
    else Enter(total, slot, maxPos, gate, rows, di, EnterOne(total, slot, gate, rows, di, b, ss[0]), ss[1..])
  }

  method EnterPending(total: real, slot: real, maxPos: nat, gate: bool, rows: DayRows, di: int, b0: Book) returns (b: Book)
    ensures b == Enter(total, slot, maxPos, gate, rows, di, b0.(pending := []), b0.pending)
  {
    var pending := b0.pending;
    b := b0.(pending := []);
    var i := 0;
    while i < |pending|
      invariant 0 <= i <= |pending|
      invariant Enter(total, slot, maxPos, gate, rows, di, b0.(pending := []), pending)
             == Enter(total, slot, maxPos, gate, rows, di, b, pending[i..])
    {
      if |b.positions| >= maxPos { break; }
      var s := pending[i];
      assert pending[i..][0] == s && pending[i..][1..] == pending[i + 1..];
      i := i + 1;
      if Holds(b.positions, s) { continue; }
      if s !in rows { continue; }
      if !gate { continue; }
      var openPx := rows[s].open;
      var used := 0.0;
      for k := 0 to |b.positions|
        invariant used == Used(rows, b.positions[..k])
      {
        assert b.positions[..k + 1][..k] == b.positions[..k];
        var p := b.positions[k];
        if p.sym in rows { used := used + Value(p.shares, rows[p.sym].open); }
      }
      assert b.positions[..|b.positions|] == b.positions;
      var room := Min(slot, total - used);
      if room <= 0.0 || openPx <= 0.0 { continue; }
      var shares := (room / openPx).Floor;
      if shares <= 0 { continue; }
      var cost := Value(shares, openPx);
      if cost > b.cash + TOLERANCE { continue; }
      b := b.(cash := b.cash - cost, positions := b.positions + [Pos(s, shares, openPx, di)], trades := b.trades + 1);
    }
  }

  // ----- Exit passes -----

  /** Every position is closed at the rule's price, or kept when the rule gives none. */
  function Pass(rule: Pos -> Option<real>, b: Book, ps: seq<Pos>): Book {
    if ps == [] then b.(positions := [])
    else
      var p := ps[|ps| - 1];
      var before := Pass(rule, b, ps[..|ps| - 1]);
      match rule(p)
      case None => before.(positions := before.positions + [p])
      case Some(px) => before.(cash := before.cash + Value(p.shares, px), trades := before.trades + 1, log := before.log + [Closed(p, px)])
  }

  function Stop002(rows: DayRows): Pos -> Option<real> {
    (p: Pos) => if p.sym in rows && rows[p.sym].low <= p.p0 * 0.92 then Some(p.p0 * 0.92) else None
  }

  /** The close crossed below its 20-day mean between two days on which the symbol has both. */
  predicate CrossDown(prev: Option<DayRows>, rows: DayRows, s: Sym) {
    && prev.Some? && s in rows && s in prev.value
    && rows[s].sma20.Some? && prev.value[s].sma20.Some?
    && rows[s].close < rows[s].sma20.value && prev.value[s].close >= prev.value[s].sma20.value
  }

  function Close002(prev: Option<DayRows>, rows: DayRows, di: int): Pos -> Option<real> {
    (p: Pos) => if p.sym in rows && (di - p.entryIdx + 1 >= 20 || CrossDown(prev, rows, p.sym)) then Some(rows[p.sym].close) else None
  }

  function Exit004(rows: DayRows, di: int): Pos -> Option<real> {
    (p: Pos) =>
      if p.sym !in rows then None
      else if rows[p.sym].low <= p.p0 * 0.96 then Some(p.p0 * 0.96)
      else if rows[p.sym].high >= p.p0 * 1.08 then Some(p.p0 * 1.08)
      else if di - p.entryIdx + 1 >= 10 then Some(rows[p.sym].close)
      else None
  }

  /** The intraday stops of strategy 002. */
  method StopPass(rows: DayRows, b0: Book) returns (b: Book)
    ensures b == Pass(Stop002(rows), b0, b0.positions)
  {
    b := b0;
    var open := b0.positions;
    var still: seq<Pos> := [];
    for i := 0 to |open|
      invariant b.(positions := still) == Pass(Stop002(rows), b0, open[..i])
    {
      assert open[..i + 1][..i] == open[..i];
      var p := open[i];
      if p.sym !in rows {
        still := still + [p];
        continue;
      }
      var stop := p.p0 * 0.92;
      if rows[p.sym].low <= stop {
        b := b.(cash := b.cash + Value(p.shares, stop), trades := b.trades + 1, log := b.log + [Closed(p, stop)]);
      } else {
        still := still + [p];
      }
    }
    assert open[..|open|] == open;
    b := b.(positions := still);
  }

  /** The time and cross exits of strategy 002 at the close. */
  method ClosePass(prev: Option<DayRows>, rows: DayRows, di: int, b0: Book) returns (b: Book)
    ensures b == Pass(Close002(prev, rows, di), b0, b0.positions)
  {
    b := b0;
    var open := b0.positions;
    var still: seq<Pos> := [];
    for i := 0 to |open|
      invariant b.(positions := still) == Pass(Close002(prev, rows, di), b0, open[..i])
    {
      assert open[..i + 1][..i] == open[..i];
      var p := open[i];
      if p.sym !in rows {
        still := still + [p];
        continue;
      }
      var close := rows[p.sym].close;
      var sessions := di - p.entryIdx + 1;
      var cross := false;
      if prev.Some? && p.sym in prev.value {
        var y, x := rows[p.sym], prev.value[p.sym];
        cross := y.sma20.Some? && x.sma20.Some? && y.close < y.sma20.value && x.close >= x.sma20.value;
      }
      if sessions >= 20 {
        b := b.(cash := b.cash + Value(p.shares, close), trades := b.trades + 1, log := b.log + [Closed(p, close)]);
      } else if cross {
        b := b.(cash := b.cash + Value(p.shares, close), trades := b.trades + 1, log := b.log + [Closed(p, close)]);
      } else {
        still := still + [p];
      }
    }
    assert open[..|open|] == open;
    b := b.(positions := still);
  }

  /** The stop, target and time exits of strategy 004, in that order. */
  method ExitPass004(rows: DayRows, di: int, b0: Book) returns (b: Book)
    ensures b == Pass(Exit004(rows, di), b0, b0.positions)
  {
    b := b0;
    var open := b0.positions;
    var still: seq<Pos> := [];
    for i := 0 to |open|
      invariant b.(positions := still) == Pass(Exit004(rows, di), b0, open[..i])
    {
      assert open[..i + 1][..i] == open[..i];
      var p := open[i];
      if p.sym !in rows {
        still := still + [p];
        continue;
      }
      var stop, tp := p.p0 * 0.96, p.p0 * 1.08;
      var sessions := di - p.entryIdx + 1;
      if rows[p.sym].low <= stop {
        b := b.(cash := b.cash + Value(p.shares, stop), trades := b.trades + 1, log := b.log + [Closed(p, stop)]);
      } else if rows[p.sym].high >= tp {
        b := b.(cash := b.cash + Value(p.shares, tp), trades := b.trades + 1, log := b.log + [Closed(p, tp)]);
      } else if sessions >= 10 {
        b := b.(cash := b.cash + Value(p.shares, rows[p.sym].close), trades := b.trades + 1, log := b.log + [Closed(p, rows[p.sym].close)]);
      } else {
        still := still + [p];
      }
    }
    assert open[..|open|] == open;
    b := b.(positions := still);
  }

  // ----- Signals for the next open -----

  function Calm(vix: Option<real>): bool {
    vix.Some? && vix.value <= 28.0
  }

  predicate Signal002(rows: DayRows, vix: Option<real>, s: Sym) {
    s in rows && rows[s].signal && Calm(vix)
  }

  /** A low at or under the 10-day mean, by at most one percent. */
  predicate Pulled(prev: DayRows, s: Sym) {
    && s in prev && prev[s].sma10.Some? && prev[s].sma10.value > 0.0
    && prev[s].low <= prev[s].sma10.value && prev[s].sma10.value - prev[s].low <= 0.01 * prev[s].sma10.value
  }

  predicate Signal004(d1: DayRows, d2: DayRows, rows: DayRows, s: Sym) {
    && s in rows && rows[s].sma50.Some? && rows[s].sma10.Some? && rows[s].volMean20.Some?
    && rows[s].close > rows[s].sma50.value && (Pulled(d1, s) || Pulled(d2, s))
    && rows[s].close > rows[s].sma10.value && rows[s].volume > 1.2 * rows[s].volMean20.value
  }

  /** The symbols, in order, that signal and are not held. */
  function NextPending(ss: seq<Sym>, signal: Sym -> bool, ps: seq<Pos>): seq<Sym> {
    if ss == [] then []
    else NextPending(ss[..|ss| - 1], signal, ps) + if signal(ss[|ss| - 1]) && !Holds(ps, ss[|ss| - 1]) then [ss[|ss| - 1]] else []
  }

  // ----- Marking -----

  /** Open positions at the day's closes; a position without a bar counts nothing. */
  function Marked(rows: DayRows, ps: seq<Pos>): real {
    if ps == [] then 0.0
    else
      var p := ps[|ps| - 1];
      Marked(rows, ps[..|ps| - 1]) + if p.sym in rows then Value(p.shares, rows[p.sym].close) else 0.0
  }

  method MarkToMarket(rows: DayRows, b: Book) returns (mtm: real)
    ensures mtm == b.cash + Marked(rows, b.positions)
  {
    hide Value;
    mtm := b.cash;
    for i := 0 to |b.positions|
      invariant mtm == b.cash + Marked(rows, b.positions[..i])
    {
      assert b.positions[..i + 1][..i] == b.positions[..i];
      var p := b.positions[i];
      if p.sym in rows { mtm := mtm + Value(p.shares, rows[p.sym].close); }
    }
    assert b.positions[..|b.positions|] == b.positions;
  }

  // ----- The day loops -----

  function RowsAt(days: seq<DayRows>, di: int): Option<DayRows> {
    if 0 <= di < |days| then Some(days[di]) else None
  }

  function VixAt(vix: seq<Option<real>>, di: int): Option<real> {
    if 0 <= di < |vix| then vix[di] else None
  }

  /** One day of strategy 002: entries gated by yesterday's volatility, stops, closes, then signals unless it is the last day. */
  function Day002(syms: seq<Sym>, total: real, slot: real, maxPos: nat, days: seq<DayRows>, vix: seq<Option<real>>, di: nat, b: Book): Book
    requires di < |days|
  {
    var b1 := Enter(total, slot, maxPos, Calm(VixAt(vix, di - 1)), days[di], di, b.(pending := []), b.pending);
    var b2 := Pass(Stop002(days[di]), b1, b1.positions);
    var b3 := Pass(Close002(RowsAt(days, di - 1), days[di], di), b2, b2.positions);
    if di + 1 < |days| then b3.(pending := NextPending(syms, s => Signal002(days[di], VixAt(vix, di), s), b3.positions)) else b3
  }

  function Run002(syms: seq<Sym>, total: real, slot: real, maxPos: nat, days: seq<DayRows>, vix: seq<Option<real>>, n: nat): Book
    requires n <= |days|
  {
    if n == 0 then Book(total, [], [], 0, [])
    else Day002(syms, total, slot, maxPos, days, vix, n - 1, Run002(syms, total, slot, maxPos, days, vix, n - 1))
  }

  /** The marked equity at the close of each of the first `n` days. */
  function Equity002(syms: seq<Sym>, total: real, slot: real, maxPos: nat, days: seq<DayRows>, vix: seq<Option<real>>, n: nat): seq<real>
    requires n <= |days|
  {
    if n == 0 then []
    else
      var b := Run002(syms, total, slot, maxPos, days, vix, n);
      Equity002(syms, total, slot, maxPos, days, vix, n - 1) + [b.cash + Marked(days[n - 1], b.positions)]
  }

  method RunStrategy002(syms: seq<Sym>, total: real, slot: real, maxPos: nat, days: seq<DayRows>, vix: seq<Option<real>>)
    returns (b: Book, equity: seq<real>)
    ensures b == Run002(syms, total, slot, maxPos, days, vix, |days|)
    ensures equity == Equity002(syms, total, slot, maxPos, days, vix, |days|)
  {
    hide Enter, Pass, NextPending, Marked;
    b, equity := Book(total, [], [], 0, []), [];
    for di := 0 to |days|
      invariant b == Run002(syms, total, slot, maxPos, days, vix, di)
      invariant equity == Equity002(syms, total, slot, maxPos, days, vix, di)
    {
      b := EnterPending(total, slot, maxPos, Calm(VixAt(vix, di - 1)), days[di], di, b);
      b := StopPass(days[di], b);
      b := ClosePass(RowsAt(days, di - 1), days[di], di, b);
      var mtm := MarkToMarket(days[di], b);
      equity := equity + [mtm];
      if di + 1 < |days| {
        b := b.(pending := NextPending(syms, s => Signal002(days[di], VixAt(vix, di), s), b.positions));
      }
    }
  }

  /** One day of strategy 004. */
  function Day004(syms: seq<Sym>, total: real, slot: real, maxPos: nat, days: seq<DayRows>, di: nat, b: Book): Book
    requires di < |days|
  {
    var b1 := Enter(total, slot, maxPos, true, days[di], di, b.(pending := []), b.pending);
    var b2 := Pass(Exit004(days[di], di), b1, b1.positions);
    if di + 1 < |days| then
      b2.(pending := if di >= 2 then NextPending(syms, s => Signal004(days[di - 1], days[di - 2], days[di], s), b2.positions) else [])
    else b2
  }

  function Run004(syms: seq<Sym>, total: real, slot: real, maxPos: nat, days: seq<DayRows>, n: nat): Book
    requires n <= |days|
  {
    if n == 0 then Book(total, [], [], 0, [])
    else Day004(syms, total, slot, maxPos, days, n - 1, Run004(syms, total, slot, maxPos, days, n - 1))
  }

  /** The marked equity at the close of each of the first `n` days. */
  function Equity004(syms: seq<Sym>, total: real, slot: real, maxPos: nat, days: seq<DayRows>, n: nat): seq<real>
    requires n <= |days|
  {
    if n == 0 then []
    else
      var b := Run004(syms, total, slot, maxPos, days, n);
      Equity004(syms, total, slot, maxPos, days, n - 1) + [b.cash + Marked(days[n - 1], b.positions)]
  }

  method RunStrategy004(syms: seq<Sym>, total: real, slot: real, maxPos: nat, days: seq<DayRows>)
    returns (b: Book, equity: seq<real>)
    ensures b == Run004(syms, total, slot, maxPos, days, |days|)
    ensures equity == Equity004(syms, total, slot, maxPos, days, |days|)
  {
    hide Enter, Pass, NextPending, Marked;
    b, equity := Book(total, [], [], 0, []), [];
    for di := 0 to |days|
      invariant b == Run004(syms, total, slot, maxPos, days, di)
      invariant equity == Equity004(syms, total, slot, maxPos, days, di)
    {
      b := EnterPending(total, slot, maxPos, true, days[di], di, b);
      b := ExitPass004(days[di], di, b);
      var mtm := MarkToMarket(days[di], b);
      equity := equity + [mtm];
      if di + 1 < |days| {
        if di >= 2 {
          b := b.(pending := NextPending(syms, s => Signal004(days[di - 1], days[di - 2], days[di], s), b.positions));
        } else {
          b := b.(pending := []);
        }
      }
    }
  }
}
