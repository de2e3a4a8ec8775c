/**
 What the fill ledger leaves in the tracker: after a run whose errors miss
 the fills in flight, the lots of a strategy in an account are those of the
 account's recorded fills, settled in table order.
 */
module LedgerBooks {
  import opened Sums
  import opened Tracker
  import opened Ledger
  import opened LedgerSafety
  import opened LedgerAccounts
  import opened CashFlow
  import opened TrackerCost

  /** The account's events all come from its own stream, `home`; orders are stored before their fills arrive; the process does not restart. */
  predicate Orderly(s: State, step: Step, acct: Account, home: nat) {
    match step
    case Deliver(t, e) => e.acct == acct ==> t == home
    case PlaceOrder(oid, _) => !HasFill(s.fills, oid)
    case Restart => false
    case _ => !Drops(s, step)
  }

  ghost predicate OrderlyRun(cfg: Config, s: State, steps: seq<Step>, acct: Account, home: nat) {
    forall i :: 0 <= i < |steps| ==> Orderly(Ledger.Run(cfg, s, steps[..i]), steps[i], acct, home)
  }

  /** The strategy's books once the fill in a task's hand has settled too. */
  ghost function Carry(cfg: Config, orders: map<OrderId, OrderRow>, acct: Account, strategy: Strategy, st: KeyState, pc: Pc): KeyState {
    if InFlight(pc).Some? && Reaches(cfg, orders, acct, strategy, InFlight(pc).value) then Settled(cfg, st, InFlight(pc).value) else st
  }

  function At(s: State, t: nat): Pc {
    if t < |s.tasks| then s.tasks[t] else Idle
  }

  /** Only the account's own stream has its fills in hand. */
  ghost predicate AtHome(s: State, acct: Account, home: nat) {
    forall t :: 0 <= t < |s.tasks| && t != home && !s.tasks[t].Idle? ==> s.tasks[t].e.acct != acct
  }

  /** The recorded fills are what the tracker holds, and what the account's stream has in hand. */
  ghost predicate BooksInv(cfg: Config, s: State, acct: Account, strategy: Strategy, home: nat) {
    && AtHome(s, acct, home)
    && TrackedBooks(cfg, s.orders, acct, strategy, s.fills)
         == Carry(cfg, s.orders, acct, strategy, TrackerFor(s.tracker, (acct, strategy), cfg.today), At(s, home))
  }

  // ----- What the orders table tells the books does not change -----

  ghost predicate SameStrategies(a: map<OrderId, OrderRow>, b: map<OrderId, OrderRow>) {
    a.Keys == b.Keys && forall oid :: oid in a ==> a[oid].strategy == b[oid].strategy
  }

  lemma PatchKeepsStrategies(orders: map<OrderId, OrderRow>, oid: OrderId, status: string)
    ensures SameStrategies(orders, Patch(orders, oid, status))
  {
  }

  lemma SameTracked(cfg: Config, a: map<OrderId, OrderRow>, b: map<OrderId, OrderRow>, acct: Account, strategy: Strategy, row: FillRow)
    requires (row.oid in a <==> row.oid in b) && (row.oid in a ==> a[row.oid].strategy == b[row.oid].strategy)
    ensures Reaches(cfg, a, acct, strategy, row) <==> Reaches(cfg, b, acct, strategy, row)
  {
  }

  /** Order rows that agree on the fills' orders give the same books. */
  lemma {:induction false} SameBooks(cfg: Config, a: map<OrderId, OrderRow>, b: map<OrderId, OrderRow>, acct: Account, strategy: Strategy, rows: seq<FillRow>)
    requires forall i :: 0 <= i < |rows| ==>
      (rows[i].oid in a <==> rows[i].oid in b) && (rows[i].oid in a ==> a[rows[i].oid].strategy == b[rows[i].oid].strategy)
    ensures TrackedBooks(cfg, a, acct, strategy, rows) == TrackedBooks(cfg, b, acct, strategy, rows)
    decreases |rows|
  {
    hide Reaches, Settled;
    if rows != [] {
      var l := |rows| - 1;
      assert forall i :: 0 <= i < l ==> rows[..l][i] == rows[i];
      SameBooks(cfg, a, b, acct, strategy, rows[..l]);
      SameTracked(cfg, a, b, acct, strategy, rows[l]);
    }
  }

  lemma CarrySame(cfg: Config, a: map<OrderId, OrderRow>, b: map<OrderId, OrderRow>, acct: Account, strategy: Strategy, st: KeyState, pc: Pc)
    requires InFlight(pc).Some? ==> var oid := InFlight(pc).value.oid; (oid in a <==> oid in b) && (oid in a ==> a[oid].strategy == b[oid].strategy)
    ensures Carry(cfg, a, acct, strategy, st, pc) == Carry(cfg, b, acct, strategy, st, pc)
  {
    hide Reaches, Settled, InFlight;
    if InFlight(pc).Some? { SameTracked(cfg, a, b, acct, strategy, InFlight(pc).value); }
  }

  /** The stream's hand holds the same fill as before, or has let go of one that reaches no lot of the strategy. */
  ghost predicate SameHand(cfg: Config, orders: map<OrderId, OrderRow>, acct: Account, strategy: Strategy, before: Pc, after: Pc) {
    || InFlight(after) == InFlight(before)
    || (InFlight(before).Some? && InFlight(after).None? && !Reaches(cfg, orders, acct, strategy, InFlight(before).value))
  }

  /** A step that changes neither fills nor tracker nor what the stream has in hand, and no order's strategy, keeps the books. */
  lemma QuietBooks(cfg: Config, s: State, s': State, acct: Account, strategy: Strategy, home: nat)
    requires BooksInv(cfg, s, acct, strategy, home) && AtHome(s', acct, home)
    requires s'.fills == s.fills && s'.tracker == s.tracker && SameStrategies(s.orders, s'.orders)
    requires SameHand(cfg, s.orders, acct, strategy, At(s, home), At(s', home))
    ensures BooksInv(cfg, s', acct, strategy, home)
  {
    hide TrackedBooks, InFlight, At, TrackerFor, Reaches, Settled, AtHome;
    SameBooks(cfg, s.orders, s'.orders, acct, strategy, s.fills);
    CarrySame(cfg, s.orders, s'.orders, acct, strategy, TrackerFor(s.tracker, (acct, strategy), cfg.today), At(s', home));
  }

  lemma GotoHome(s: State, s': State, t: nat, pc: Pc, acct: Account, home: nat)
    requires AtHome(s, acct, home) && t < |s.tasks| && s'.tasks == s.tasks[t := pc]
    requires pc.Idle? || t == home || pc.e.acct != acct
    ensures AtHome(s', acct, home)
  {
  }

  /** A task that goes on with its own event, or drops it, stays where it belongs. */
  lemma GoOnHome(s: State, s': State, t: nat, pc: Pc, acct: Account, home: nat)
    requires AtHome(s, acct, home) && t < |s.tasks| && s'.tasks == s.tasks[t := pc]
    requires pc.Idle? || (!s.tasks[t].Idle? && pc.e == s.tasks[t].e)
    ensures AtHome(s', acct, home)
  {
  }

  /** A task moves on and nothing else does. */
  lemma GotoBooks(cfg: Config, s: State, s': State, t: nat, pc: Pc, acct: Account, strategy: Strategy, home: nat)
    requires BooksInv(cfg, s, acct, strategy, home) && AtHome(s', acct, home) && t < |s.tasks| && s'.tasks == s.tasks[t := pc]
    requires s'.fills == s.fills && s'.tracker == s.tracker && SameStrategies(s.orders, s'.orders)
    requires t == home ==> SameHand(cfg, s.orders, acct, strategy, s.tasks[t], pc)
    ensures BooksInv(cfg, s', acct, strategy, home)
  {
    assert SameHand(cfg, s.orders, acct, strategy, At(s, home), At(s', home)) by {
      hide Reaches, InFlight;
    }
    hide BooksInv, AtHome, SameStrategies, SameHand;
    QuietBooks(cfg, s, s', acct, strategy, home);
  }

  // ----- One step -----

  lemma TakeLeaves(s: State, t: nat, e: Event)
    requires t < |s.tasks|
    ensures var z := Take(s, t, e);
            && z.fills == s.fills && z.tracker == s.tracker && SameStrategies(s.orders, z.orders)
            && (z.tasks == s.tasks || z.tasks == s.tasks[t := SnapCheck(e)] || z.tasks == s.tasks[t := LiveCheck(e)])
  {
    hide Patch, SameStrategies;
    PatchKeepsStrategies(s.orders, e.oid, "rejected");
    PatchKeepsStrategies(s.orders, e.oid, e.status);
    assert SameStrategies(s.orders, s.orders) by { SameAsItself(s.orders); }
  }

  lemma SameAsItself(orders: map<OrderId, OrderRow>)
    ensures SameStrategies(orders, orders)
  {
  }

  lemma TakeBooks(cfg: Config, s: State, t: nat, e: Event, acct: Account, strategy: Strategy, home: nat)
    requires BooksInv(cfg, s, acct, strategy, home) && t < |s.tasks| && s.tasks[t].Idle? && (e.acct == acct ==> t == home)
    ensures BooksInv(cfg, Take(s, t, e), acct, strategy, home)
  {
    TakeLeaves(s, t, e);
    hide Take, TrackedBooks, Carry, TrackerFor, SameStrategies;
    var s' := Take(s, t, e);
    var pc := s'.tasks[t];
    assert s'.tasks == s.tasks[t := pc];
    GotoHome(s, s', t, pc, acct, home);
    hide AtHome, BooksInv;
    GotoBooks(cfg, s, s', t, pc, acct, strategy, home);
  }

  lemma NotTracked(cfg: Config, orders: map<OrderId, OrderRow>, acct: Account, strategy: Strategy, row: FillRow)
    requires row.isSnapshot || row.acct != acct
    ensures !Reaches(cfg, orders, acct, strategy, row)
  {
  }

  lemma MoreRows(cfg: Config, orders: map<OrderId, OrderRow>, acct: Account, strategy: Strategy, rows: seq<FillRow>, row: FillRow)
    ensures TrackedBooks(cfg, orders, acct, strategy, rows + [row])
         == var st := TrackedBooks(cfg, orders, acct, strategy, rows);
            if Reaches(cfg, orders, acct, strategy, row) then Settled(cfg, st, row) else st
  {
    hide Reaches, Settled;
    assert (rows + [row])[..|rows|] == rows;
  }

  /** A row is inserted: the stream that inserted a live one has it in hand, and others insert nothing of the account's. */
  lemma InsertBooks(cfg: Config, s: State, s': State, t: nat, row: FillRow, pc: Pc, acct: Account, strategy: Strategy, home: nat)
    requires BooksInv(cfg, s, acct, strategy, home) && AtHome(s', acct, home) && t < |s.tasks|
    requires s'.fills == s.fills + [row] && s'.tasks == s.tasks[t := pc] && s'.tracker == s.tracker
    requires s'.orders == s.orders && InFlight(s.tasks[t]).None?
    requires InFlight(pc) == if row.isSnapshot then None else Some(row)
    requires t == home || row.acct != acct
    ensures BooksInv(cfg, s', acct, strategy, home)
  {
    hide TrackedBooks, InFlight, TrackerFor, Reaches, Settled, AtHome;
    MoreRows(cfg, s.orders, acct, strategy, s.fills, row);
    if row.isSnapshot || t != home {
      NotTracked(cfg, s.orders, acct, strategy, row);
    }
  }

  lemma RecordBooks(cfg: Config, s: State, t: nat, isSnapshot: bool, acct: Account, strategy: Strategy, home: nat)
    requires BooksInv(cfg, s, acct, strategy, home) && t < |s.tasks|
    requires if isSnapshot then s.tasks[t].SnapRecord? else s.tasks[t].Record?
    ensures BooksInv(cfg, RecordStep(s, t, s.tasks[t].e, isSnapshot), acct, strategy, home)
  {
    hide HasFill, Patch, BooksInv;
    var e := s.tasks[t].e;
    if e.price.None? || e.qty.None? || HasFill(s.fills, e.oid) {
      PassBooks(cfg, s, Goto(s, t, Idle), t, Idle, acct, strategy, home);
    } else {
      InsertedBooks(cfg, s, t, isSnapshot, acct, strategy, home);
    }
  }

  lemma InsertedBooks(cfg: Config, s: State, t: nat, isSnapshot: bool, acct: Account, strategy: Strategy, home: nat)
    requires BooksInv(cfg, s, acct, strategy, home) && t < |s.tasks|
    requires if isSnapshot then s.tasks[t].SnapRecord? else s.tasks[t].Record?
    requires var e := s.tasks[t].e; e.price.Some? && e.qty.Some? && !HasFill(s.fills, e.oid)
    ensures BooksInv(cfg, RecordStep(s, t, s.tasks[t].e, isSnapshot), acct, strategy, home)
  {
    hide HasFill, Patch, TrackedBooks, Carry, SameStrategies;
    var e := s.tasks[t].e;
    var row, pc := RowOf(e, isSnapshot), if isSnapshot then Idle else Count(e);
    var s1 := Goto(s.(fills := s.fills + [row]), t, pc);
    GoOnHome(s, s1, t, pc, acct, home);
    assert t == home || row.acct != acct;
    hide AtHome, BooksInv, SameHand;
    InsertBooks(cfg, s, s1, t, row, pc, acct, strategy, home);
    PatchKeepsStrategies(s.orders, e.oid, e.status);
    hide RowOf, InFlight;
    PatchedBooks(cfg, s1, RecordStep(s, t, e, isSnapshot), acct, strategy, home);
  }

  lemma PatchedBooks(cfg: Config, s: State, s': State, acct: Account, strategy: Strategy, home: nat)
    requires BooksInv(cfg, s, acct, strategy, home) && s' == s.(orders := s'.orders) && SameStrategies(s.orders, s'.orders)
    ensures BooksInv(cfg, s', acct, strategy, home)
  {
    hide TrackedBooks, Carry, SameStrategies;
    QuietBooks(cfg, s, s', acct, strategy, home);
  }

  /** Settling moves the strategy's lots exactly when the row is one that reaches them. */
  lemma SettleTracker(cfg: Config, s: State, e: Event, total: real, acct: Account, strategy: Strategy)
    requires e.price.Some? && e.qty.Some? && total == e.qty.value && e.side.Some?
    requires e.acct != "" && e.sym != "" && e.acct in cfg.accounts && strategy != ""
    ensures var k := (acct, strategy);
            var st, row := TrackerFor(s.tracker, k, cfg.today), RowOf(e, false);
            TrackerFor(Track(cfg, s, e, total), k, cfg.today)
              == if Reaches(cfg, s.orders, acct, strategy, row) then Settled(cfg, st, row) else st
  {
    hide ApplyFill;
  }

  lemma SettleBooks(cfg: Config, s: State, t: nat, acct: Account, strategy: Strategy, home: nat)
    requires Inv(cfg, s) && BooksInv(cfg, s, acct, strategy, home) && strategy != "" && t < |s.tasks| && s.tasks[t].Settle?
    ensures var pc := s.tasks[t]; BooksInv(cfg, SettleStep(cfg, s, t, pc.e, pc.total, pc.uuid), acct, strategy, home)
  {
    var pc := s.tasks[t];
    assert Shaped(cfg, pc);
    hide Inv, Track, ApplyDbFill, StrategyOf, TrackedBooks, Reaches, Settled, TrackerFor, RowOf, Carry;
    SettleTracker(cfg, s, pc.e, pc.total, acct, strategy);
    var s' := SettleStep(cfg, s, t, pc.e, pc.total, pc.uuid);
    GoOnHome(s, s', t, Own(pc.e), acct, home);
    var st, st' := TrackerFor(s.tracker, (acct, strategy), cfg.today), TrackerFor(s'.tracker, (acct, strategy), cfg.today);
    if t == home {
      CarriedHome(cfg, s.orders, acct, strategy, st, st', pc, RowOf(pc.e, false));
    } else {
      ElsewhereNotTracked(cfg, s, t, acct, strategy, home);
    }
  }

  lemma CarriedHome(cfg: Config, orders: map<OrderId, OrderRow>, acct: Account, strategy: Strategy, st: KeyState, st': KeyState, pc: Pc, row: FillRow)
    requires pc.Settle? && InFlight(pc) == Some(row)
    requires st' == if Reaches(cfg, orders, acct, strategy, row) then Settled(cfg, st, row) else st
    ensures Carry(cfg, orders, acct, strategy, st, pc) == Carry(cfg, orders, acct, strategy, st', Own(pc.e))
  {
    hide Reaches, Settled;
  }

  lemma ElsewhereNotTracked(cfg: Config, s: State, t: nat, acct: Account, strategy: Strategy, home: nat)
    requires AtHome(s, acct, home) && t < |s.tasks| && t != home && s.tasks[t].Settle?
    requires s.tasks[t].e.price.Some? && s.tasks[t].e.qty.Some?
    ensures !Reaches(cfg, s.orders, acct, strategy, RowOf(s.tasks[t].e, false))
  {
  }

  /** Reading on keeps the fill in hand, unless it cannot be resolved to a position; then it reaches no lot either. */
  lemma ReadOnHand(cfg: Config, s: State, pc: Pc, orders: map<OrderId, OrderRow>, acct: Account, strategy: Strategy)
    requires !Writes(pc)
    ensures SameHand(cfg, orders, acct, strategy, pc, ReadOn(cfg, s, pc))
  {
    hide HasFill, IsFutures, Joined;
  }

  lemma ReadBooks(cfg: Config, s: State, t: nat, acct: Account, strategy: Strategy, home: nat)
    requires BooksInv(cfg, s, acct, strategy, home) && t < |s.tasks| && !Writes(s.tasks[t])
    ensures BooksInv(cfg, Goto(s, t, ReadOn(cfg, s, s.tasks[t])), acct, strategy, home)
  {
    var pc := ReadOn(cfg, s, s.tasks[t]);
    hide ReadOn, Writes, TrackedBooks, Carry, SameHand, SameStrategies;
    ReadOnEvent(cfg, s, s.tasks[t]);
    ReadOnHand(cfg, s, s.tasks[t], s.orders, acct, strategy);
    SameAsItself(s.orders);
    GoOnHome(s, Goto(s, t, pc), t, pc, acct, home);
    hide AtHome, BooksInv;
    GotoBooks(cfg, s, Goto(s, t, pc), t, pc, acct, strategy, home);
  }

  /** A step that lets its task go on with the same fill in hand, or none, and touches neither fills nor tracker nor orders. */
  lemma PassBooks(cfg: Config, s: State, s': State, t: nat, pc: Pc, acct: Account, strategy: Strategy, home: nat)
    requires BooksInv(cfg, s, acct, strategy, home) && t < |s.tasks| && s'.tasks == s.tasks[t := pc]
    requires s'.fills == s.fills && s'.tracker == s.tracker && s'.orders == s.orders
    requires pc.Idle? || (!s.tasks[t].Idle? && pc.e == s.tasks[t].e)
    requires InFlight(pc) == InFlight(s.tasks[t])
    ensures BooksInv(cfg, s', acct, strategy, home)
  {
    hide TrackedBooks, Carry, SameStrategies, InFlight;
    SameAsItself(s.orders);
    GoOnHome(s, s', t, pc, acct, home);
    hide AtHome, BooksInv;
    GotoBooks(cfg, s, s', t, pc, acct, strategy, home);
  }

  lemma CountBooks(cfg: Config, s: State, t: nat, acct: Account, strategy: Strategy, home: nat)
    requires Inv(cfg, s) && BooksInv(cfg, s, acct, strategy, home) && t < |s.tasks| && s.tasks[t].Count?
    ensures BooksInv(cfg, CountStep(s, t, s.tasks[t].e), acct, strategy, home)
  {
    var e := s.tasks[t].e;
    assert Shaped(cfg, s.tasks[t]);
    hide Inv, BooksInv, CountUp;
    PassBooks(cfg, s, CountStep(s, t, e), t, Resolve(e, CountUp(s.cum, e.acct, e.oid, e.qty.value).1), acct, strategy, home);
  }

  lemma MoveBooks(cfg: Config, s: State, t: nat, acct: Account, strategy: Strategy, home: nat)
    requires Inv(cfg, s) && BooksInv(cfg, s, acct, strategy, home) && strategy != "" && t < |s.tasks|
    ensures BooksInv(cfg, Move(cfg, s, t), acct, strategy, home)
  {
    hide Inv, BooksInv, RecordStep, CountStep, SettleStep, ReadOn, Goto, SendStep;
    match s.tasks[t]
    case Record(_) => RecordBooks(cfg, s, t, false, acct, strategy, home);
    case SnapRecord(_) => RecordBooks(cfg, s, t, true, acct, strategy, home);
    case Count(_) => CountBooks(cfg, s, t, acct, strategy, home);
    case Settle(_, _, _) => SettleBooks(cfg, s, t, acct, strategy, home);
    case Bearer(e) => SendBooks(cfg, s, t, acct, strategy, home);
    case _ => ReadBooks(cfg, s, t, acct, strategy, home);
  }

  lemma SendBooks(cfg: Config, s: State, t: nat, acct: Account, strategy: Strategy, home: nat)
    requires BooksInv(cfg, s, acct, strategy, home) && t < |s.tasks| && s.tasks[t].Bearer?
    ensures BooksInv(cfg, SendStep(s, t, s.tasks[t].e), acct, strategy, home)
  {
    hide BooksInv;
    PassBooks(cfg, s, SendStep(s, t, s.tasks[t].e), t, Post(s.tasks[t].e), acct, strategy, home);
  }

  lemma PlaceBooks(cfg: Config, s: State, oid: OrderId, row: OrderRow, acct: Account, strategy: Strategy, home: nat)
    requires Inv(cfg, s) && BooksInv(cfg, s, acct, strategy, home) && !HasFill(s.fills, oid) && oid !in s.orders
    ensures BooksInv(cfg, s.(orders := s.orders[oid := row]), acct, strategy, home)
  {
    var orders := s.orders[oid := row];
    HandInTable(cfg, s, home);
    assert forall i :: 0 <= i < |s.fills| ==> s.fills[i].oid != oid;
    hide Inv, TrackedBooks, Settled, Reaches, InFlight, TrackerFor;
    SameBooks(cfg, s.orders, orders, acct, strategy, s.fills);
    CarrySame(cfg, s.orders, orders, acct, strategy, TrackerFor(s.tracker, (acct, strategy), cfg.today), At(s, home));
  }

  lemma HandInTable(cfg: Config, s: State, home: nat)
    requires Inv(cfg, s)
    ensures InFlight(At(s, home)).Some? ==> HasFill(s.fills, InFlight(At(s, home)).value.oid)
  {
    hide HasFill, Rows, Posted, Losses, Bracketed, Counters, LedgerSafety.Tracked, Shapes;
  }

  lemma StepBooks(cfg: Config, s: State, step: Step, acct: Account, strategy: Strategy, home: nat)
    requires Inv(cfg, s) && BooksInv(cfg, s, acct, strategy, home) && strategy != "" && Orderly(s, step, acct, home)
    ensures BooksInv(cfg, Next(cfg, s, step), acct, strategy, home)
  {
    hide Inv, BooksInv, Take, Move, HasFill, CanFailWrite, DbErrorStep, InFlight;
    match step
    case Deliver(t, e) => if t < |s.tasks| && s.tasks[t].Idle? { TakeBooks(cfg, s, t, e, acct, strategy, home); }
    case Advance(t) => if t < |s.tasks| { MoveBooks(cfg, s, t, acct, strategy, home); }
    case PostDone(t, accepted, children) =>
      if t < |s.tasks| && s.tasks[t].Post? {
        NothingAtPost(s.tasks[t]);
        EndBooks(cfg, s, AnswerStep(s, t, accepted, children), t, acct, strategy, home);
      }
    case Fail(t) => if t < |s.tasks| { EndBooks(cfg, s, DropStep(s, t), t, acct, strategy, home); }
    case PlaceOrder(oid, row) => if oid !in s.orders { PlaceBooks(cfg, s, oid, row, acct, strategy, home); }
    case _ =>
  }

  lemma NothingAtPost(pc: Pc)
    requires pc.Post?
    ensures InFlight(pc).None?
  {
  }

  /** A task without a fill in hand ends. */
  lemma EndBooks(cfg: Config, s: State, s': State, t: nat, acct: Account, strategy: Strategy, home: nat)
    requires BooksInv(cfg, s, acct, strategy, home) && t < |s.tasks| && InFlight(s.tasks[t]).None?
    requires s'.tasks == s.tasks[t := Idle] && s'.fills == s.fills && s'.tracker == s.tracker && s'.orders == s.orders
    ensures BooksInv(cfg, s', acct, strategy, home)
  {
    hide BooksInv;
    PassBooks(cfg, s, s', t, Idle, acct, strategy, home);
  }

  // ----- Whole runs -----

  lemma OrderlyPrefix(cfg: Config, s: State, steps: seq<Step>, acct: Account, home: nat)
    requires steps != [] && OrderlyRun(cfg, s, steps, acct, home)
    ensures var l := |steps| - 1; OrderlyRun(cfg, s, steps[..l], acct, home) && Orderly(Ledger.Run(cfg, s, steps[..l]), steps[l], acct, home)
  {
    hide Orderly, Ledger.Run;
    var l := |steps| - 1;
    var init := steps[..l];
    forall i | 0 <= i < l ensures Orderly(Ledger.Run(cfg, s, init[..i]), init[i], acct, home) {
      assert init[..i] == steps[..i] && init[i] == steps[i];
    }
  }

  lemma {:induction false} RunBooks(cfg: Config, s: State, steps: seq<Step>, acct: Account, strategy: Strategy, home: nat)
    requires Fresh(s) && s.fills == [] && strategy != "" && OrderlyRun(cfg, s, steps, acct, home)
    ensures BooksInv(cfg, Ledger.Run(cfg, s, steps), acct, strategy, home)
    decreases |steps|
  {
    if steps == [] {
      FreshBooks(cfg, s, acct, strategy, home);
    } else {
      FreshInv(cfg, s);
      OrderlyPrefix(cfg, s, steps, acct, home);
      hide Inv, BooksInv, OrderlyRun, Orderly, Next, Fresh;
      var init := steps[..|steps| - 1];
      RunBooks(cfg, s, init, acct, strategy, home);
      RunKeeps(cfg, s, init);
      StepBooks(cfg, Ledger.Run(cfg, s, init), steps[|steps| - 1], acct, strategy, home);
    }
  }

  lemma FreshBooks(cfg: Config, s: State, acct: Account, strategy: Strategy, home: nat)
    requires Fresh(s) && s.fills == []
    ensures BooksInv(cfg, s, acct, strategy, home)
  {
  }

  /**
   At rest after an orderly run, the tracker holds for the account and the
   strategy exactly the state that settling the account's recorded fills in
   table order gives: every lot, its average cost included.
   */
  lemma TrackerIsBooks(cfg: Config, s: State, steps: seq<Step>, acct: Account, strategy: Strategy, home: nat)
    requires Fresh(s) && s.fills == [] && strategy != "" && OrderlyRun(cfg, s, steps, acct, home) && AtRest(Ledger.Run(cfg, s, steps))
    ensures var z := Ledger.Run(cfg, s, steps);
            TrackerFor(z.tracker, (acct, strategy), cfg.today) == TrackedBooks(cfg, z.orders, acct, strategy, z.fills)
  {
    RunBooks(cfg, s, steps, acct, strategy, home);
    hide Ledger.Run, TrackedBooks, OrderlyRun, Fresh, TrackerFor, Reaches, Settled;
  }

  /**
   So after such a run each lot the tracker holds has the quantity of the
   account's average-cost holding, and its average differs exactly when the
   lot is stale.
   */
  lemma RunWrongExactlyWhenStale(cfg: Config, s: State, steps: seq<Step>, acct: Account, strategy: Strategy, home: nat, sym: Symbol)
    requires Fresh(s) && s.fills == [] && strategy != "" && OrderlyRun(cfg, s, steps, acct, home) && AtRest(Ledger.Run(cfg, s, steps))
    requires var z := Ledger.Run(cfg, s, steps); SidesAgree(cfg, z.orders, acct, strategy, z.fills)
    ensures var z := Ledger.Run(cfg, s, steps);
            Matches(LotOf(TrackerFor(z.tracker, (acct, strategy), cfg.today), sym), HoldingOf(BooksOf(z.orders, strategy, z.fills), (acct, sym)),
                    Stale(cfg, z.orders, acct, strategy, sym, z.fills))
  {
    TrackerIsBooks(cfg, s, steps, acct, strategy, home);
    FreshInv(cfg, s);
    RunKeeps(cfg, s, steps);
    hide Ledger.Run, OrderlyRun, Fresh, Orderly, TrackerFor, TrackedBooks, BooksOf, Stale, SidesAgree, Matches, LotOf, HoldingOf, AtRest;
    var z := Ledger.Run(cfg, s, steps);
    assert DistinctOrders(z.fills) by { assert Rows(z); }
    WrongExactlyWhenStale(cfg, z.orders, acct, strategy, sym, z.fills);
  }
}
