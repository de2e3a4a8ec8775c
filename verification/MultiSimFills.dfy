/**
 What each day of the simulations 002 and 004 does, said by the day's rows:
 which pending symbols are bought and for how many shares, which positions are
 closed and at what price, and which symbols are pending for the next open.
 */
module MultiSimFills {
  import opened Sums
  import opened MultiSim
  import opened MultiSimLaws

  // ----- A pass in general -----

  /** What a pass sells, in order. */
  function SoldBy(rule: Pos -> Option<real>, ps: seq<Pos>): seq<Closed> {
    if ps == [] then []
    else
      var p := ps[|ps| - 1];
      SoldBy(rule, ps[..|ps| - 1]) + if rule(p).Some? then [Closed(p, rule(p).value)] else []
  }

  lemma {:induction false} PassSells(rule: Pos -> Option<real>, b: Book, ps: seq<Pos>)
    ensures var z := Pass(rule, b, ps);
            && z.log == b.log + SoldBy(rule, ps) && z.trades == b.trades + |SoldBy(rule, ps)|
            && |z.positions| + |SoldBy(rule, ps)| == |ps| && z.pending == b.pending
    decreases |ps|
  {
    if ps != [] {
      PassSells(rule, b, ps[..|ps| - 1]);
      hide Value;
    }
  }

  lemma {:induction false} PassHolds(rule: Pos -> Option<real>, b: Book, ps: seq<Pos>)
    ensures forall p :: p in Pass(rule, b, ps).positions <==> p in ps && rule(p).None?
    decreases |ps|
  {
    if ps != [] {
      PassHolds(rule, b, ps[..|ps| - 1]);
      hide Value;
      assert ps == ps[..|ps| - 1] + [ps[|ps| - 1]];
    }
  }

  lemma {:induction false} SoldAre(rule: Pos -> Option<real>, ps: seq<Pos>)
    ensures forall c :: c in SoldBy(rule, ps) <==> c.pos in ps && rule(c.pos) == Some(c.exitPrice)
    decreases |ps|
  {
    if ps != [] {
      SoldAre(rule, ps[..|ps| - 1]);
      assert ps == ps[..|ps| - 1] + [ps[|ps| - 1]];
    }
  }

  /** No position is sold twice. */
  ghost predicate Once(log: seq<Closed>) {
    forall i, j :: 0 <= i < j < |log| ==> log[i].pos.sym != log[j].pos.sym
  }

  lemma {:induction false} SoldOnce(rule: Pos -> Option<real>, ps: seq<Pos>)
    requires Distinct(ps)
    ensures Once(SoldBy(rule, ps))
    decreases |ps|
  {
    if ps != [] {
      var init, p := ps[..|ps| - 1], ps[|ps| - 1];
      SoldOnce(rule, init);
      SoldAre(rule, init);
      var log := SoldBy(rule, init);
      forall i | 0 <= i < |log| ensures log[i].pos.sym != p.sym {
        assert log[i] in log && log[i].pos in init;
      }
    }
  }

  /** Some price fits the rule. */
  ghost predicate Fits(closes: (Pos, real) -> bool, p: Pos) {
    exists px :: closes(p, px)
  }

  /**
   From the positions `ps` to the book `z`: those for which some price fits
   the rule are closed at that price, once each; the others are kept, and
   nothing else is held or closed.
   */
  ghost predicate SettledBy(closes: (Pos, real) -> bool, ps: seq<Pos>, was: seq<Closed>, z: Book) {
    was <= z.log && KeptBy(closes, ps, z.positions) && ClosedBy(closes, ps, z.log[|was|..])
  }

  ghost predicate KeptBy(closes: (Pos, real) -> bool, ps: seq<Pos>, kept: seq<Pos>) {
    Distinct(kept) && forall p :: p in kept <==> p in ps && !Fits(closes, p)
  }

  ghost predicate ClosedBy(closes: (Pos, real) -> bool, ps: seq<Pos>, log: seq<Closed>) {
    Once(log) && forall c :: c in log <==> c.pos in ps && closes(c.pos, c.exitPrice)
  }

  /** The rule gives exactly the prices that fit. */
  ghost predicate Gives(rule: Pos -> Option<real>, closes: (Pos, real) -> bool) {
    && (forall p, px :: closes(p, px) ==> rule(p) == Some(px))
    && forall p :: rule(p).Some? ==> closes(p, rule(p).value)
  }

  lemma GivesFit(rule: Pos -> Option<real>, closes: (Pos, real) -> bool, p: Pos)
    requires Gives(rule, closes)
    ensures Fits(closes, p) <==> rule(p).Some?
  {
    if rule(p).Some? {
      var px := rule(p).value;
      assert closes(p, px);
    }
  }

  lemma PassKept(rule: Pos -> Option<real>, closes: (Pos, real) -> bool, b: Book, ps: seq<Pos>)
    requires Distinct(ps) && Gives(rule, closes)
    ensures KeptBy(closes, ps, Pass(rule, b, ps).positions)
  {
    PassHolds(rule, b, ps);
    PassKeeps(rule, b, ps);
    hide Pass, Distinct, AllProper, Fits, Gives;
    forall p ensures Fits(closes, p) <==> rule(p).Some? { GivesFit(rule, closes, p); }
  }

  lemma SoldClosed(rule: Pos -> Option<real>, closes: (Pos, real) -> bool, ps: seq<Pos>)
    requires Distinct(ps) && Gives(rule, closes)
    ensures ClosedBy(closes, ps, SoldBy(rule, ps))
  {
    SoldAre(rule, ps);
    SoldOnce(rule, ps);
    hide SoldBy, Distinct, Once;
  }

  lemma PassSettles(rule: Pos -> Option<real>, closes: (Pos, real) -> bool, b: Book)
    requires Distinct(b.positions) && Gives(rule, closes)
    ensures SettledBy(closes, b.positions, b.log, Pass(rule, b, b.positions))
  {
    hide Pass, Distinct, Gives, SoldBy, KeptBy, ClosedBy;
    PassSells(rule, b, b.positions);
    PassKept(rule, closes, b, b.positions);
    SoldClosed(rule, closes, b.positions);
    assert (b.log + SoldBy(rule, b.positions))[|b.log|..] == SoldBy(rule, b.positions);
  }

  // ----- Counting -----

  lemma {:induction false} EnterDistinct(total: real, slot: real, maxPos: nat, gate: bool, rows: DayRows, di: int, b: Book, ss: seq<Sym>)
    requires Distinct(b.positions)
    ensures var z := Enter(total, slot, maxPos, gate, rows, di, b, ss);
            Distinct(z.positions) && z.log == b.log && z.pending == b.pending && z.trades - |z.positions| == b.trades - |b.positions|
    decreases |ss|
  {
    if ss != [] && |b.positions| < maxPos {
      hide Used, Min, Value;
      EnterDistinct(total, slot, maxPos, gate, rows, di, EnterOne(total, slot, gate, rows, di, b, ss[0]), ss[1..]);
    }
  }

  /** No symbol is held twice, and the count of trades is two for every closed position and one for every open one. */
  ghost predicate Counted(b: Book) {
    Distinct(b.positions) && b.trades == 2 * |b.log| + |b.positions|
  }

  lemma PassCounts(rule: Pos -> Option<real>, b: Book)
    requires Counted(b)
    ensures Counted(Pass(rule, b, b.positions))
  {
    hide Pass, Distinct, AllProper, SoldBy;
    PassKeeps(rule, b, b.positions);
    PassSells(rule, b, b.positions);
  }

  lemma PendingUncounted(a: Book, b: Book)
    requires Counted(a) && b == a.(pending := b.pending)
    ensures Counted(b)
  {
  }

  lemma EnterCounts(total: real, slot: real, maxPos: nat, gate: bool, rows: DayRows, di: int, b: Book)
    requires Counted(b)
    ensures Counted(Enter(total, slot, maxPos, gate, rows, di, b.(pending := []), b.pending))
  {
    hide Enter, Distinct;
    EnterDistinct(total, slot, maxPos, gate, rows, di, b.(pending := []), b.pending);
  }

  // ----- Strategy 004 -----

  /** The stop at 0.96 of entry whatever the high, else the target at 1.08, else the close of the tenth session or a later one. */
  ghost function Closes004(rows: DayRows, di: int): (Pos, real) -> bool {
    (p: Pos, px: real) =>
      p.sym in rows
      && (|| (rows[p.sym].low <= 0.96 * p.p0 && px == 0.96 * p.p0)
          || (rows[p.sym].low > 0.96 * p.p0 && rows[p.sym].high >= 1.08 * p.p0 && px == 1.08 * p.p0)
          || (rows[p.sym].low > 0.96 * p.p0 && rows[p.sym].high < 1.08 * p.p0 && di - p.entryIdx >= 9 && px == rows[p.sym].close))
  }

  lemma Gives004(rows: DayRows, di: int)
    ensures Gives(Exit004(rows, di), Closes004(rows, di))
  {
  }

  /** The book of strategy 004 after the entries of day `n`. */
  function Morning004(syms: seq<Sym>, total: real, slot: real, maxPos: nat, days: seq<DayRows>, n: nat): Book
    requires n < |days|
  {
    var b := Run004(syms, total, slot, maxPos, days, n);
    Enter(total, slot, maxPos, true, days[n], n, b.(pending := []), b.pending)
  }

  lemma {:induction false} Distinct004(syms: seq<Sym>, total: real, slot: real, maxPos: nat, days: seq<DayRows>, n: nat)
    requires n <= |days|
    ensures Counted(Run004(syms, total, slot, maxPos, days, n))
    decreases n
  {
    if n > 0 {
      Distinct004(syms, total, slot, maxPos, days, n - 1);
      hide Counted, Pass, Exit004, Enter, Run004;
      var di, b := n - 1, Run004(syms, total, slot, maxPos, days, n - 1);
      EnterCounts(total, slot, maxPos, true, days[di], di, b);
      var b1 := Morning004(syms, total, slot, maxPos, days, di);
      PassCounts(Exit004(days[di], di), b1);
      Next004(syms, total, slot, maxPos, days, di);
      PendingUncounted(Pass(Exit004(days[di], di), b1, b1.positions), Run004(syms, total, slot, maxPos, days, n));
    }
  }

  lemma Next004(syms: seq<Sym>, total: real, slot: real, maxPos: nat, days: seq<DayRows>, n: nat)
    requires n < |days|
    ensures var b1 := Morning004(syms, total, slot, maxPos, days, n);
            var z := Run004(syms, total, slot, maxPos, days, n + 1);
            z == Pass(Exit004(days[n], n), b1, b1.positions).(pending := z.pending)
  {
    hide Enter, Pass, Exit004, NextPending;
  }

  /**
   Every position of strategy 004 open after a day's entries, on every run:
   a low at or under 0.96 of entry closes it at 0.96 whatever the high;
   otherwise a high at or above 1.08 of entry closes it at 1.08; otherwise
   the tenth session closes it at the close; otherwise, or without a bar, it
   is kept.  Each is closed once, and nothing else is.
   */
  lemma ClosedExactly004(syms: seq<Sym>, total: real, slot: real, maxPos: nat, days: seq<DayRows>, n: nat)
    requires n < |days|
    ensures var b1 := Morning004(syms, total, slot, maxPos, days, n);
            SettledBy(Closes004(days[n], n), b1.positions, b1.log, Run004(syms, total, slot, maxPos, days, n + 1))
  {
    Distinct004(syms, total, slot, maxPos, days, n);
    var b := Run004(syms, total, slot, maxPos, days, n);
    hide Distinct, Enter, Pass, Exit004, Closes004, Gives, NextPending, Run004;
    EnterDistinct(total, slot, maxPos, true, days[n], n, b.(pending := []), b.pending);
    Gives004(days[n], n);
    PassSettles(Exit004(days[n], n), Closes004(days[n], n), Morning004(syms, total, slot, maxPos, days, n));
    Next004(syms, total, slot, maxPos, days, n);
  }

  // ----- Strategy 002 -----

  /** The close fell under its twenty-day mean since the day before, on which it was not under. */
  ghost predicate Crossed(days: seq<DayRows>, n: int, s: Sym) {
    && 1 <= n < |days| && s in days[n] && s in days[n - 1]
    && days[n][s].sma20.Some? && days[n - 1][s].sma20.Some?
    && days[n][s].close < days[n][s].sma20.value && days[n - 1][s].close >= days[n - 1][s].sma20.value
  }

  ghost function Stops002(rows: DayRows): (Pos, real) -> bool {
    (p: Pos, px: real) => p.sym in rows && rows[p.sym].low <= 0.92 * p.p0 && px == 0.92 * p.p0
  }

  ghost function Ends002(days: seq<DayRows>, n: nat): (Pos, real) -> bool
    requires n < |days|
  {
    (p: Pos, px: real) => p.sym in days[n] && (n - p.entryIdx >= 19 || Crossed(days, n, p.sym)) && px == days[n][p.sym].close
  }

  /** The stop at 0.92 of entry, else the close of the twentieth session or of a cross under the mean. */
  ghost function Closes002(days: seq<DayRows>, n: nat): (Pos, real) -> bool
    requires n < |days|
  {
    (p: Pos, px: real) =>
      p.sym in days[n]
      && (|| (days[n][p.sym].low <= 0.92 * p.p0 && px == 0.92 * p.p0)
          || (days[n][p.sym].low > 0.92 * p.p0 && (n - p.entryIdx >= 19 || Crossed(days, n, p.sym)) && px == days[n][p.sym].close))
  }

  lemma Gives002(days: seq<DayRows>, n: nat)
    requires n < |days|
    ensures Gives(Stop002(days[n]), Stops002(days[n]))
    ensures Gives(Close002(RowsAt(days, n - 1), days[n], n), Ends002(days, n))
  {
    forall s ensures CrossDown(RowsAt(days, n - 1), days[n], s) <==> Crossed(days, n, s) {
    }
    hide CrossDown, Crossed;
  }

  /** The book of strategy 002 after the entries of day `n`. */
  function Morning002(syms: seq<Sym>, total: real, slot: real, maxPos: nat, days: seq<DayRows>, vix: seq<Option<real>>, n: nat): Book
    requires n < |days|
  {
    var b := Run002(syms, total, slot, maxPos, days, vix, n);
    Enter(total, slot, maxPos, Calm(VixAt(vix, n - 1)), days[n], n, b.(pending := []), b.pending)
  }

  /** And after its intraday stops. */
  function Afternoon002(syms: seq<Sym>, total: real, slot: real, maxPos: nat, days: seq<DayRows>, vix: seq<Option<real>>, n: nat): Book
    requires n < |days|
  {
    var b1 := Morning002(syms, total, slot, maxPos, days, vix, n);
    Pass(Stop002(days[n]), b1, b1.positions)
  }

  lemma Next002(syms: seq<Sym>, total: real, slot: real, maxPos: nat, days: seq<DayRows>, vix: seq<Option<real>>, n: nat)
    requires n < |days|
    ensures var b2 := Afternoon002(syms, total, slot, maxPos, days, vix, n);
            var z := Run002(syms, total, slot, maxPos, days, vix, n + 1);
            z == Pass(Close002(RowsAt(days, n - 1), days[n], n), b2, b2.positions).(pending := z.pending)
  {
    hide Enter, Pass, Stop002, Close002, NextPending, Calm;
  }

  lemma {:induction false} Distinct002(syms: seq<Sym>, total: real, slot: real, maxPos: nat, days: seq<DayRows>, vix: seq<Option<real>>, n: nat)
    requires n <= |days|
    ensures Counted(Run002(syms, total, slot, maxPos, days, vix, n))
    decreases n
  {
    hide Day002;
    if n > 0 {
      hide Counted, Run002;
      Distinct002(syms, total, slot, maxPos, days, vix, n - 1);
      StaysCounted002(syms, total, slot, maxPos, days, vix, n - 1);
    }
  }

  lemma StaysCounted002(syms: seq<Sym>, total: real, slot: real, maxPos: nat, days: seq<DayRows>, vix: seq<Option<real>>, n: nat)
    requires n < |days| && Counted(Run002(syms, total, slot, maxPos, days, vix, n))
    ensures Counted(Run002(syms, total, slot, maxPos, days, vix, n + 1))
  {
    hide Counted, Pass, Stop002, Close002, Run002, Morning002, RowsAt;
    MorningCounted002(syms, total, slot, maxPos, days, vix, n);
    PassCounts(Stop002(days[n]), Morning002(syms, total, slot, maxPos, days, vix, n));
    var b2 := Afternoon002(syms, total, slot, maxPos, days, vix, n);
    PassCounts(Close002(RowsAt(days, n - 1), days[n], n), b2);
    Next002(syms, total, slot, maxPos, days, vix, n);
    PendingUncounted(Pass(Close002(RowsAt(days, n - 1), days[n], n), b2, b2.positions), Run002(syms, total, slot, maxPos, days, vix, n + 1));
  }

  lemma MorningCounted002(syms: seq<Sym>, total: real, slot: real, maxPos: nat, days: seq<DayRows>, vix: seq<Option<real>>, n: nat)
    requires n < |days| && Counted(Run002(syms, total, slot, maxPos, days, vix, n))
    ensures Counted(Morning002(syms, total, slot, maxPos, days, vix, n))
  {
    hide Counted, Enter, Run002;
    EnterCounts(total, slot, maxPos, Calm(VixAt(vix, n - 1)), days[n], n, Run002(syms, total, slot, maxPos, days, vix, n));
  }

  /** The second rule looks only at what the first left. */
  ghost predicate Then(one: (Pos, real) -> bool, two: (Pos, real) -> bool, either: (Pos, real) -> bool) {
    forall p, px :: either(p, px) <==> one(p, px) || (two(p, px) && !Fits(one, p))
  }

  lemma ThenFits(one: (Pos, real) -> bool, two: (Pos, real) -> bool, either: (Pos, real) -> bool, p: Pos)
    requires Then(one, two, either)
    ensures Fits(either, p) <==> Fits(one, p) || Fits(two, p)
  {
    if px :| one(p, px) { assert either(p, px); }
    if px :| two(p, px) && !Fits(one, p) { assert either(p, px); }
  }

  lemma KeptByBoth(one: (Pos, real) -> bool, two: (Pos, real) -> bool, either: (Pos, real) -> bool, ps: seq<Pos>, mid: seq<Pos>, z: seq<Pos>)
    requires Then(one, two, either) && KeptBy(one, ps, mid) && KeptBy(two, mid, z)
    ensures KeptBy(either, ps, z)
  {
    hide Fits, Then, Distinct;
    forall p ensures Fits(either, p) <==> Fits(one, p) || Fits(two, p) { ThenFits(one, two, either, p); }
  }

  lemma ClosedByBoth(one: (Pos, real) -> bool, two: (Pos, real) -> bool, either: (Pos, real) -> bool,
                     ps: seq<Pos>, mid: seq<Pos>, first: seq<Closed>, second: seq<Closed>)
    requires Distinct(ps) && Then(one, two, either) && KeptBy(one, ps, mid)
    requires ClosedBy(one, ps, first) && ClosedBy(two, mid, second)
    ensures ClosedBy(either, ps, first + second)
  {
    hide Distinct, Once;
    forall c ensures c in first + second <==> c.pos in ps && either(c.pos, c.exitPrice) {
    }
    forall i, j | 0 <= i < |first| && 0 <= j < |second| ensures first[i].pos.sym != second[j].pos.sym {
      assert first[i] in first && second[j] in second;
      DifferentSyms(ps, first[i].pos, second[j].pos);
    }
    OnceBoth(first, second);
  }

  lemma DifferentSyms(ps: seq<Pos>, p: Pos, q: Pos)
    requires Distinct(ps) && p in ps && q in ps && p != q
    ensures p.sym != q.sym
  {
  }

  lemma OnceBoth(first: seq<Closed>, second: seq<Closed>)
    requires Once(first) && Once(second)
    requires forall i, j :: 0 <= i < |first| && 0 <= j < |second| ==> first[i].pos.sym != second[j].pos.sym
    ensures Once(first + second)
  {
  }

  /** Two passes, the second over what the first kept. */
  lemma TwoPasses(one: (Pos, real) -> bool, two: (Pos, real) -> bool, either: (Pos, real) -> bool, ps: seq<Pos>, was: seq<Closed>, mid: Book, z: Book)
    requires Distinct(ps) && Then(one, two, either)
    requires SettledBy(one, ps, was, mid) && SettledBy(two, mid.positions, mid.log, z)
    ensures SettledBy(either, ps, was, z)
  {
    hide KeptBy, ClosedBy, Distinct, Then;
    KeptByBoth(one, two, either, ps, mid.positions, z.positions);
    ClosedByBoth(one, two, either, ps, mid.positions, mid.log[|was|..], z.log[|mid.log|..]);
    assert z.log[|was|..] == mid.log[|was|..] + z.log[|mid.log|..];
  }

  lemma StopsThenEnds(days: seq<DayRows>, n: nat)
    requires n < |days|
    ensures Then(Stops002(days[n]), Ends002(days, n), Closes002(days, n))
  {
    hide Crossed;
    var one := Stops002(days[n]);
    forall p ensures Fits(one, p) <==> p.sym in days[n] && days[n][p.sym].low <= 0.92 * p.p0 {
      if p.sym in days[n] && days[n][p.sym].low <= 0.92 * p.p0 { assert one(p, 0.92 * p.p0); }
    }
    hide Fits;
  }

  /**
   Every position of strategy 002 open after a day's entries, on every run:
   a low at or under 0.92 of entry closes it at 0.92; otherwise the twentieth
   session, or a close that crossed under its mean, closes it at the close;
   otherwise, or without a bar, it is kept.
   */
  lemma ClosedExactly002(syms: seq<Sym>, total: real, slot: real, maxPos: nat, days: seq<DayRows>, vix: seq<Option<real>>, n: nat)
    requires n < |days|
    ensures var b1 := Morning002(syms, total, slot, maxPos, days, vix, n);
            SettledBy(Closes002(days, n), b1.positions, b1.log, Run002(syms, total, slot, maxPos, days, vix, n + 1))
  {
    hide Distinct, Pass, Run002, Morning002, Stop002, Close002, Stops002, Ends002, Closes002, Gives, Then, SettledBy;
    var b1, b2 := Morning002(syms, total, slot, maxPos, days, vix, n), Afternoon002(syms, total, slot, maxPos, days, vix, n);
    Distinct002(syms, total, slot, maxPos, days, vix, n);
    MorningCounted002(syms, total, slot, maxPos, days, vix, n);
    Gives002(days, n);
    PassSettles(Stop002(days[n]), Stops002(days[n]), b1);
    PassKeeps(Stop002(days[n]), b1, b1.positions);
    PassSettles(Close002(RowsAt(days, n - 1), days[n], n), Ends002(days, n), b2);
    Next002(syms, total, slot, maxPos, days, vix, n);
    var z := Pass(Close002(RowsAt(days, n - 1), days[n], n), b2, b2.positions);
    StopsThenEnds(days, n);
    TwoPasses(Stops002(days[n]), Ends002(days, n), Closes002(days, n), b1.positions, b1.log, b2, z);
    PendingAside(Closes002(days, n), b1.positions, b1.log, z, Run002(syms, total, slot, maxPos, days, vix, n + 1));
  }

  lemma PendingAside(closes: (Pos, real) -> bool, ps: seq<Pos>, was: seq<Closed>, a: Book, b: Book)
    requires SettledBy(closes, ps, was, a) && b == a.(pending := b.pending)
    ensures SettledBy(closes, ps, was, b)
  {
  }

  // ----- Entries -----

  /** What an open position is worth at the day's open; without a bar, nothing. */
  function OpenValue(rows: DayRows): Pos -> real {
    (p: Pos) => if p.sym in rows then Value(p.shares, rows[p.sym].open) else 0.0
  }

  lemma {:induction false} UsedIsSum(rows: DayRows, ps: seq<Pos>)
    ensures Used(rows, ps) == SeqSum(ps, OpenValue(rows))
    decreases |ps|
  {
    hide Value;
    if ps != [] { UsedIsSum(rows, ps[..|ps| - 1]); }
  }

  /** `n` shares at `open` fit the slot and what the open positions leave of the capital. */
  ghost predicate FitsRoom(total: real, slot: real, rows: DayRows, ps: seq<Pos>, n: int, open: real) {
    Value(n, open) <= slot && Value(n, open) <= total - SeqSum(ps, OpenValue(rows))
  }

  /** All that an entry of `s` needs at its turn, with `n` the most whole shares that fit. */
  ghost predicate MayEnter(total: real, slot: real, maxPos: nat, rows: DayRows, b: Book, s: Sym, n: int) {
    && |b.positions| < maxPos && (forall i :: 0 <= i < |b.positions| ==> b.positions[i].sym != s)
    && s in rows && rows[s].open > 0.0 && n >= 1
    && FitsRoom(total, slot, rows, b.positions, n, rows[s].open) && !FitsRoom(total, slot, rows, b.positions, n + 1, rows[s].open)
    && Value(n, rows[s].open) <= b.cash + 0.000001
  }

  /** The book after `n` shares of `s` were bought at `open`. */
  function Bought(b: Book, s: Sym, n: int, open: real, di: int): Book {
    b.(cash := b.cash - Value(n, open), positions := b.positions + [Pos(s, n, open, di)], trades := b.trades + 1)
  }

  lemma RoomIs(total: real, slot: real, rows: DayRows, ps: seq<Pos>, n: int, price: real)
    ensures FitsRoom(total, slot, rows, ps, n, price) <==> Value(n, price) <= Min(slot, total - Used(rows, ps))
  {
    UsedIsSum(rows, ps);
    hide Value, Used, SeqSum;
  }

  lemma NotHeld(ps: seq<Pos>, s: Sym)
    ensures !Holds(ps, s) <==> forall i :: 0 <= i < |ps| ==> ps[i].sym != s
  {
  }

  lemma EnterIf(total: real, slot: real, maxPos: nat, rows: DayRows, di: int, b: Book, s: Sym, n: int)
    requires MayEnter(total, slot, maxPos, rows, b, s, n)
    ensures EnterOne(total, slot, true, rows, di, b, s) == Bought(b, s, n, rows[s].open, di)
  {
    var open, room := rows[s].open, Min(slot, total - Used(rows, b.positions));
    RoomIs(total, slot, rows, b.positions, n, open);
    RoomIs(total, slot, rows, b.positions, n + 1, open);
    FloorIs(room, open, n);
    MoreCostMore(1, n, open);
    assert Value(1, open) > 0.0;
    NotHeld(b.positions, s);
    hide Value, Used, Holds, Min, FitsRoom;
  }

  lemma EnterOnlyIf(total: real, slot: real, maxPos: nat, rows: DayRows, di: int, b: Book, s: Sym)
    requires |b.positions| < maxPos && EnterOne(total, slot, true, rows, di, b, s) != b
    ensures exists n :: MayEnter(total, slot, maxPos, rows, b, s, n)
  {
    NotHeld(b.positions, s);
    var open, room := rows[s].open, Min(slot, total - Used(rows, b.positions));
    var n := (room / open).Floor;
    RoomIs(total, slot, rows, b.positions, n, open);
    RoomIs(total, slot, rows, b.positions, n + 1, open);
    FloorIs(room, open, n);
    hide Value, Used, Holds, Min, FitsRoom;
    assert MayEnter(total, slot, maxPos, rows, b, s, n);
  }

  /** One turn of the entry loop: from `a` to `z` at symbol `s`. */
  ghost predicate Turn(total: real, slot: real, maxPos: nat, gate: bool, rows: DayRows, di: int, a: Book, s: Sym, z: Book) {
    && (forall n :: gate && MayEnter(total, slot, maxPos, rows, a, s, n) ==> z == Bought(a, s, n, rows[s].open, di))
    && ((forall n :: !(gate && MayEnter(total, slot, maxPos, rows, a, s, n))) ==> z == a)
  }

  lemma {:induction false} EnterSnoc(total: real, slot: real, maxPos: nat, gate: bool, rows: DayRows, di: int, b: Book, ss: seq<Sym>, s: Sym)
    ensures var a := Enter(total, slot, maxPos, gate, rows, di, b, ss);
            Enter(total, slot, maxPos, gate, rows, di, b, ss + [s])
            == if |a.positions| >= maxPos then a else EnterOne(total, slot, gate, rows, di, a, s)
    decreases |ss|
  {
    hide EnterOne;
    if ss == [] {
      assert ([] + [s])[1..] == [] && (ss + [s])[0] == s;
    } else if |b.positions| < maxPos {
      assert (ss + [s])[1..] == ss[1..] + [s] && (ss + [s])[0] == ss[0];
      EnterSnoc(total, slot, maxPos, gate, rows, di, EnterOne(total, slot, gate, rows, di, b, ss[0]), ss[1..], s);
    }
  }

  lemma MayHasRow(total: real, slot: real, maxPos: nat, rows: DayRows, b: Book, s: Sym, n: int)
    requires MayEnter(total, slot, maxPos, rows, b, s, n)
    ensures s in rows && |b.positions| < maxPos
  {
    hide FitsRoom, Value;
  }

  lemma OneTurn(total: real, slot: real, maxPos: nat, gate: bool, rows: DayRows, di: int, a: Book, s: Sym)
    ensures Turn(total, slot, maxPos, gate, rows, di, a, s,
                 if |a.positions| >= maxPos then a else EnterOne(total, slot, gate, rows, di, a, s))
  {
    if gate {
      hide EnterOne, MayEnter;
      forall n | MayEnter(total, slot, maxPos, rows, a, s, n)
        ensures s in rows && |a.positions| < maxPos && EnterOne(total, slot, gate, rows, di, a, s) == Bought(a, s, n, rows[s].open, di)
      {
        MayHasRow(total, slot, maxPos, rows, a, s, n);
        EnterIf(total, slot, maxPos, rows, di, a, s, n);
      }
      if |a.positions| < maxPos && EnterOne(total, slot, gate, rows, di, a, s) != a { EnterOnlyIf(total, slot, maxPos, rows, di, a, s); }
    } else {
      hide MayEnter;
    }
  }

  lemma EntersInTurn(total: real, slot: real, maxPos: nat, gate: bool, rows: DayRows, di: int, b: Book, ss: seq<Sym>, j: nat)
    requires j < |ss|
    ensures Turn(total, slot, maxPos, gate, rows, di, Enter(total, slot, maxPos, gate, rows, di, b, ss[..j]), ss[j],
                 Enter(total, slot, maxPos, gate, rows, di, b, ss[..j + 1]))
  {
    hide Turn, EnterOne, Enter;
    assert ss[..j + 1] == ss[..j] + [ss[j]];
    EnterSnoc(total, slot, maxPos, gate, rows, di, b, ss[..j], ss[j]);
    OneTurn(total, slot, maxPos, gate, rows, di, Enter(total, slot, maxPos, gate, rows, di, b, ss[..j]), ss[j]);
  }

  /** Yesterday's volatility close is known and at most 28. */
  ghost predicate QuietBefore(vix: seq<Option<real>>, n: int) {
    1 <= n <= |vix| && vix[n - 1].Some? && vix[n - 1].value <= 28.0
  }

  /**
   The entries of a day of strategy 002, symbol by symbol in the pending
   order: one fills if and only if yesterday was quiet, a place is free, the
   symbol is flat and has a bar with a positive open, at least one whole
   share fits the slot and the capital not in use, and cash covers the most
   that fit; it then buys that many.
   */
  lemma EntriesExactly002(syms: seq<Sym>, total: real, slot: real, maxPos: nat, days: seq<DayRows>, vix: seq<Option<real>>, n: nat, j: nat)
    requires n < |days| && j < |Run002(syms, total, slot, maxPos, days, vix, n).pending|
    ensures var b := Run002(syms, total, slot, maxPos, days, vix, n);
            var quiet, b0 := QuietBefore(vix, n), b.(pending := []);
            && Turn(total, slot, maxPos, quiet, days[n], n, Enter(total, slot, maxPos, quiet, days[n], n, b0, b.pending[..j]), b.pending[j],
                    Enter(total, slot, maxPos, quiet, days[n], n, b0, b.pending[..j + 1]))
            && Morning002(syms, total, slot, maxPos, days, vix, n) == Enter(total, slot, maxPos, quiet, days[n], n, b0, b.pending)
  {
    hide Turn, Enter, Run002;
    var b := Run002(syms, total, slot, maxPos, days, vix, n);
    assert Calm(VixAt(vix, n - 1)) == QuietBefore(vix, n);
    EntersInTurn(total, slot, maxPos, QuietBefore(vix, n), days[n], n, b.(pending := []), b.pending, j);
  }

  /** The same for strategy 004, which has no gate. */
  lemma EntriesExactly004(syms: seq<Sym>, total: real, slot: real, maxPos: nat, days: seq<DayRows>, n: nat, j: nat)
    requires n < |days| && j < |Run004(syms, total, slot, maxPos, days, n).pending|
    ensures var b := Run004(syms, total, slot, maxPos, days, n);
            var b0 := b.(pending := []);
            && Turn(total, slot, maxPos, true, days[n], n, Enter(total, slot, maxPos, true, days[n], n, b0, b.pending[..j]), b.pending[j],
                    Enter(total, slot, maxPos, true, days[n], n, b0, b.pending[..j + 1]))
            && Morning004(syms, total, slot, maxPos, days, n) == Enter(total, slot, maxPos, true, days[n], n, b0, b.pending)
  {
    hide Turn, Enter, Run004;
    var b := Run004(syms, total, slot, maxPos, days, n);
    EntersInTurn(total, slot, maxPos, true, days[n], n, b.(pending := []), b.pending, j);
  }

  // ----- Signals -----

  /** The symbols for which the rule holds and that are not held, in order. */
  ghost function Picked(ss: seq<Sym>, rule: Sym -> bool, ps: seq<Pos>): seq<Sym> {
    if ss == [] then []
    else
      var s := ss[|ss| - 1];
      Picked(ss[..|ss| - 1], rule, ps) + if rule(s) && forall i :: 0 <= i < |ps| ==> ps[i].sym != s then [s] else []
  }

  lemma {:induction false} PickedIsPending(ss: seq<Sym>, signal: Sym -> bool, rule: Sym -> bool, ps: seq<Pos>)
    requires forall s :: signal(s) <==> rule(s)
    ensures NextPending(ss, signal, ps) == Picked(ss, rule, ps)
    decreases |ss|
  {
    if ss != [] {
      PickedIsPending(ss[..|ss| - 1], signal, rule, ps);
      NotHeld(ps, ss[|ss| - 1]);
      hide Holds;
    }
  }

  /** The symbol signals on a day whose volatility close is at most 28. */
  ghost function Signals002(days: seq<DayRows>, vix: seq<Option<real>>, n: nat): Sym -> bool
    requires n < |days|
  {
    (s: Sym) => s in days[n] && days[n][s].signal && n < |vix| && vix[n].Some? && vix[n].value <= 28.0
  }

  /** On day `k` the low was at or under the ten-day mean, by at most one percent of it. */
  ghost predicate PulledBack(days: seq<DayRows>, k: int, s: Sym) {
    && 0 <= k < |days| && s in days[k] && days[k][s].sma10.Some? && days[k][s].sma10.value > 0.0
    && 0.99 * days[k][s].sma10.value <= days[k][s].low <= days[k][s].sma10.value
  }

  /** In an uptrend the symbol closes above its ten-day mean on volume, one or two days after a pullback. */
  ghost function Signals004(days: seq<DayRows>, n: nat): Sym -> bool
    requires n < |days|
  {
    (s: Sym) =>
      && n >= 2 && s in days[n] && days[n][s].sma50.Some? && days[n][s].sma10.Some? && days[n][s].volMean20.Some?
      && days[n][s].close > days[n][s].sma50.value && days[n][s].close > days[n][s].sma10.value
      && days[n][s].volume > 1.2 * days[n][s].volMean20.value
      && (PulledBack(days, n - 1, s) || PulledBack(days, n - 2, s))
  }

  /** What strategy 002 leaves pending at the end of a day: the flat symbols that signal, in order, and nothing after the last day. */
  lemma PendingExactly002(syms: seq<Sym>, total: real, slot: real, maxPos: nat, days: seq<DayRows>, vix: seq<Option<real>>, n: nat)
    requires n < |days|
    ensures var z := Run002(syms, total, slot, maxPos, days, vix, n + 1);
            z.pending == if n + 1 < |days| then Picked(syms, Signals002(days, vix, n), z.positions) else []
  {
    hide Enter, Pass, NextPending, Picked, Stop002, Close002;
    var b2 := Afternoon002(syms, total, slot, maxPos, days, vix, n);
    PendingStays002(syms, total, slot, maxPos, days, vix, n);
    var z := Run002(syms, total, slot, maxPos, days, vix, n + 1);
    PickedIsPending(syms, s => Signal002(days[n], VixAt(vix, n), s), Signals002(days, vix, n), z.positions);
  }

  lemma PendingStays002(syms: seq<Sym>, total: real, slot: real, maxPos: nat, days: seq<DayRows>, vix: seq<Option<real>>, n: nat)
    requires n < |days|
    ensures var b2 := Afternoon002(syms, total, slot, maxPos, days, vix, n);
            Pass(Close002(RowsAt(days, n - 1), days[n], n), b2, b2.positions).pending == []
  {
    hide Enter, Pass, Stop002, Close002, Distinct, SoldBy, Run002;
    var b := Run002(syms, total, slot, maxPos, days, vix, n);
    EnterPends(total, slot, maxPos, Calm(VixAt(vix, n - 1)), days[n], n, b.(pending := []), b.pending);
    var b1, b2 := Morning002(syms, total, slot, maxPos, days, vix, n), Afternoon002(syms, total, slot, maxPos, days, vix, n);
    PassSells(Stop002(days[n]), b1, b1.positions);
    PassSells(Close002(RowsAt(days, n - 1), days[n], n), b2, b2.positions);
  }

  lemma {:induction false} EnterPends(total: real, slot: real, maxPos: nat, gate: bool, rows: DayRows, di: int, b: Book, ss: seq<Sym>)
    ensures Enter(total, slot, maxPos, gate, rows, di, b, ss).pending == b.pending
    decreases |ss|
  {
    if ss != [] && |b.positions| < maxPos {
      hide Used, Min, Value, Holds;
      EnterPends(total, slot, maxPos, gate, rows, di, EnterOne(total, slot, gate, rows, di, b, ss[0]), ss[1..]);
    }
  }

  /** The same for strategy 004. */
  lemma PendingExactly004(syms: seq<Sym>, total: real, slot: real, maxPos: nat, days: seq<DayRows>, n: nat)
    requires n < |days|
    ensures var z := Run004(syms, total, slot, maxPos, days, n + 1);
            z.pending == if n + 1 < |days| then Picked(syms, Signals004(days, n), z.positions) else []
  {
    hide Enter, Pass, NextPending, Picked, Exit004, SoldBy;
    var b, b1 := Run004(syms, total, slot, maxPos, days, n), Morning004(syms, total, slot, maxPos, days, n);
    EnterPends(total, slot, maxPos, true, days[n], n, b.(pending := []), b.pending);
    PassSells(Exit004(days[n], n), b1, b1.positions);
    var z := Run004(syms, total, slot, maxPos, days, n + 1);
    if n < 2 {
      NonePicked(syms, Signals004(days, n), z.positions);
    } else {
      SignalsAre004(days, n);
      PickedIsPending(syms, s => Signal004(days[n - 1], days[n - 2], days[n], s), Signals004(days, n), z.positions);
    }
  }

  lemma PulledIs(days: seq<DayRows>, k: int, s: Sym)
    requires 0 <= k < |days|
    ensures Pulled(days[k], s) <==> PulledBack(days, k, s)
  {
  }

  lemma SignalsAre004(days: seq<DayRows>, n: nat)
    requires 2 <= n < |days|
    ensures forall s :: Signal004(days[n - 1], days[n - 2], days[n], s) <==> Signals004(days, n)(s)
  {
    forall s ensures Signal004(days[n - 1], days[n - 2], days[n], s) <==> Signals004(days, n)(s) {
      PulledIs(days, n - 1, s);
      PulledIs(days, n - 2, s);
      hide Pulled, PulledBack;
    }
  }

  lemma {:induction false} NonePicked(ss: seq<Sym>, rule: Sym -> bool, ps: seq<Pos>)
    requires forall s :: !rule(s)
    ensures Picked(ss, rule, ps) == []
    decreases |ss|
  {
    if ss != [] { NonePicked(ss[..|ss| - 1], rule, ps); }
  }
}
