/**
 What becomes of one event that nothing interrupts: which events are stored,
 what a stored fill moves, and for which fills a bracket goes out.
 */
module LedgerPath {
  import opened Sums
  import opened Tracker
  import opened Ledger
  import opened LedgerSafety
  import opened LedgerAccounts

  // ----- Futures -----

  function Ats(n: nat): string {
    if n == 0 then "" else "@" + Ats(n - 1)
  }

  const ROOTS: set<string> := {"MES", "MNQ", "ES", "NQ"}

  /** A symbol after any number of `@` is a futures symbol exactly when one of the four roots starts it. */
  lemma {:induction false} FuturesExactly(n: nat, sym: Symbol)
    requires sym == "" || sym[0] != '@'
    ensures IsFutures(Ats(n) + sym) <==> exists root :: root in ROOTS && root <= sym
    decreases n
  {
    if n > 0 {
      FuturesExactly(n - 1, sym);
      assert Ats(n) + sym == "@" + (Ats(n - 1) + sym);
      assert (Ats(n) + sym)[1..] == Ats(n - 1) + sym;
    } else {
      assert Ats(0) + sym == sym;
      assert "MNQ" in ROOTS && "MES" in ROOTS && "NQ" in ROOTS && "ES" in ROOTS;
    }
  }

  // ----- Events that are no fills -----

  /** The orders table with the status of one existing row set. */
  predicate OnlyStatusSet(before: map<OrderId, OrderRow>, after: map<OrderId, OrderRow>, oid: OrderId, status: string) {
    && after.Keys == before.Keys
    && (forall o :: o in before && o != oid ==> after[o] == before[o])
    && (oid in before ==> after[oid].strategy == before[oid].strategy && after[oid].side == before[oid].side && after[oid].status == status)
  }

  lemma PatchSetsStatus(orders: map<OrderId, OrderRow>, oid: OrderId, status: string)
    ensures OnlyStatusSet(orders, Patch(orders, oid, status), oid, status)
  {
  }

  /** What an event that is not to be stored does: it sets its order's status, or nothing. */
  lemma OnlyAStatus(cfg: Config, s: State, t: nat, e: Event)
    requires t < |s.tasks| && s.tasks[t].Idle? && (e.oid == "" || !e.isFill || (!e.snapshot && e.isReject))
    ensures var z := Next(cfg, s, Deliver(t, e));
            && z == s.(orders := z.orders)
            && (e.oid == "" ==> z.orders == s.orders)
            && (e.oid != "" ==> OnlyStatusSet(s.orders, z.orders, e.oid, if e.isReject then "rejected" else e.status))
  {
    PatchSetsStatus(s.orders, e.oid, "rejected");
    PatchSetsStatus(s.orders, e.oid, e.status);
    hide Patch, OnlyStatusSet, Move;
  }

  // ----- A task left to itself -----

  /** `n` steps of one task. */
  ghost function Advanced(cfg: Config, s: State, t: nat, n: nat): (z: State)
    requires t < |s.tasks|
    ensures |z.tasks| == |s.tasks|
    decreases n
  {
    if n == 0 then s
    else
      SameEvent(cfg, s, t);
      Advanced(cfg, Move(cfg, s, t), t, n - 1)
  }

  lemma Again(s: State, t: nat, a: Pc, b: Pc)
    requires t < |s.tasks|
    ensures Goto(Goto(s, t, a), t, b) == Goto(s, t, b)
  {
    assert s.tasks[t := a][t := b] == s.tasks[t := b];
  }

  lemma {:induction false} Stays(cfg: Config, s: State, t: nat, n: nat)
    requires t < |s.tasks| && (s.tasks[t].Idle? || s.tasks[t].Post?)
    ensures Advanced(cfg, s, t, n) == s
    decreases n
  {
    if n > 0 {
      assert Goto(s, t, s.tasks[t]) == s;
      assert Move(cfg, s, t) == s by { hide RecordStep, CountStep, SettleStep; }
      hide Move;
      Stays(cfg, s, t, n - 1);
    }
  }

  predicate Resolves(cfg: Config, e: Event) {
    e.acct != "" && e.sym != "" && e.side.Some? && e.acct in cfg.accounts
  }

  /** A filled futures order of strategy 006, with an account, that is not itself a bracket leg. */
  predicate GetsBracket(s: State, e: Event) {
    && e.oid in s.orders && s.orders[e.oid].strategy == "strategy_006"
    && e.status == "filled" && e.acct != "" && IsFutures(e.sym) && e.oid !in s.legs
  }

  /** From the ownership check on: at most the bracket request. */
  lemma FromOwn(cfg: Config, s: State, t: nat, e: Event, n: nat)
    requires t < |s.tasks| && s.tasks[t] == Own(e) && n >= 3
    ensures Advanced(cfg, s, t, n)
         == if GetsBracket(s, e) then Goto(s.(brackets := s.brackets + [e.oid]), t, Post(e)) else Goto(s, t, Idle)
  {
    hide Move, IsFutures, Advanced;
    OneMove(cfg, s, t, n);
    if e.oid in s.orders {
      var s1 := Goto(s, t, Guard(e));
      OwnMoves(cfg, s, t, e);
      OneMove(cfg, s1, t, n - 1);
      GuardMoves(cfg, s1, t, e);
      if GetsBracket(s, e) {
        var s2 := Goto(s, t, Bearer(e));
        Again(s, t, Guard(e), Bearer(e));
        OneMove(cfg, s2, t, n - 2);
        BearerMoves(cfg, s2, t, e);
        var z := Goto(s.(brackets := s.brackets + [e.oid]), t, Post(e));
        assert z.tasks == s2.tasks[t := Post(e)];
        Stays(cfg, z, t, n - 3);
      } else {
        Again(s, t, Guard(e), Idle);
        Stays(cfg, Goto(s, t, Idle), t, n - 2);
      }
    } else {
      OwnMoves(cfg, s, t, e);
      Stays(cfg, Goto(s, t, Idle), t, n - 1);
    }
  }

  lemma OneMove(cfg: Config, s: State, t: nat, n: nat)
    requires t < |s.tasks| && n > 0
    ensures |Move(cfg, s, t).tasks| == |s.tasks| && Advanced(cfg, s, t, n) == Advanced(cfg, Move(cfg, s, t), t, n - 1)
  {
    hide Move;
    SameEvent(cfg, s, t);
  }

  lemma OwnMoves(cfg: Config, s: State, t: nat, e: Event)
    requires t < |s.tasks| && s.tasks[t] == Own(e)
    ensures Move(cfg, s, t) == Goto(s, t, if e.oid in s.orders then Guard(e) else Idle)
  {
    hide RecordStep, CountStep, SettleStep;
  }

  lemma GuardMoves(cfg: Config, s: State, t: nat, e: Event)
    requires t < |s.tasks| && s.tasks[t] == Guard(e) && e.oid in s.orders
    ensures Move(cfg, s, t) == Goto(s, t, if GetsBracket(s, e) then Bearer(e) else Idle)
  {
    hide RecordStep, CountStep, SettleStep, IsFutures;
  }

  lemma BearerMoves(cfg: Config, s: State, t: nat, e: Event)
    requires t < |s.tasks| && s.tasks[t] == Bearer(e)
    ensures Move(cfg, s, t) == Goto(s.(brackets := s.brackets + [e.oid]), t, Post(e))
  {
    hide RecordStep, CountStep, SettleStep;
  }

  // ----- A live fill from its delivery on -----

  /** The state once the row is in the table and the counters have it. */
  ghost function Recorded(s: State, e: Event): State
    requires e.price.Some? && e.qty.Some?
  {
    s.(fills := s.fills + [RowOf(e, false)], orders := Patch(s.orders, e.oid, e.status), cum := CountUp(s.cum, e.acct, e.oid, e.qty.value).0)
  }

  lemma ToResolve(cfg: Config, s: State, t: nat, e: Event, total: real, n: nat)
    requires t < |s.tasks| && s.tasks[t].Idle? && CompleteLiveFill(e) && !HasFill(s.fills, e.oid) && n >= 4
    requires total == CountUp(s.cum, e.acct, e.oid, e.qty.value).1
    ensures var s1 := Next(cfg, s, Deliver(t, e));
            && |s1.tasks| == |s.tasks|
            && Advanced(cfg, s1, t, n) == Advanced(cfg, Goto(Recorded(s, e), t, Resolve(e, total)), t, n - 4)
  {
    hide Move, Advanced, CountUp, Patch;
    var s1 := Next(cfg, s, Deliver(t, e));
    assert s1 == Goto(s, t, LiveCheck(e));
    OneMove(cfg, s1, t, n);
    LiveMoves(cfg, s, t, e);
    OneMove(cfg, Goto(s, t, Sibling(e)), t, n - 1);
    OneMove(cfg, Goto(s, t, Record(e)), t, n - 2);
    RecordMoves(cfg, s, t, e);
    var s4 := Goto(s.(fills := s.fills + [RowOf(e, false)], orders := Patch(s.orders, e.oid, e.status)), t, Count(e));
    OneMove(cfg, s4, t, n - 3);
    CountMoves(cfg, s4, t, e);
    assert s4.tasks[t := Resolve(e, total)] == s.tasks[t := Resolve(e, total)];
  }

  lemma LiveMoves(cfg: Config, s: State, t: nat, e: Event)
    requires t < |s.tasks| && CompleteLiveFill(e) && !HasFill(s.fills, e.oid)
    ensures Move(cfg, Goto(s, t, LiveCheck(e)), t) == Goto(s, t, Sibling(e))
    ensures Move(cfg, Goto(s, t, Sibling(e)), t) == Goto(s, t, Record(e))
  {
    hide RecordStep, CountStep, SettleStep, HasFill;
    Again(s, t, LiveCheck(e), Sibling(e));
    Again(s, t, Sibling(e), Record(e));
  }

  lemma RecordMoves(cfg: Config, s: State, t: nat, e: Event)
    requires t < |s.tasks| && CompleteLiveFill(e) && !HasFill(s.fills, e.oid)
    ensures Move(cfg, Goto(s, t, Record(e)), t)
         == Goto(s.(fills := s.fills + [RowOf(e, false)], orders := Patch(s.orders, e.oid, e.status)), t, Count(e))
  {
    hide CountStep, SettleStep, HasFill, Patch;
    assert s.tasks[t := Record(e)][t := Count(e)] == s.tasks[t := Count(e)];
  }

  lemma CountMoves(cfg: Config, s: State, t: nat, e: Event)
    requires t < |s.tasks| && s.tasks[t] == Count(e) && e.qty.Some?
    ensures var (cum, total) := CountUp(s.cum, e.acct, e.oid, e.qty.value);
            Move(cfg, s, t) == Goto(s.(cum := cum), t, Resolve(e, total))
  {
    hide RecordStep, SettleStep, CountUp;
  }

  lemma ResolveMoves(cfg: Config, s: State, t: nat, e: Event, total: real)
    requires t < |s.tasks| && s.tasks[t] == Resolve(e, total)
    ensures Move(cfg, s, t) == Goto(s, t, if Resolves(cfg, e) then Settle(e, total, cfg.accounts[e.acct]) else Own(e))
  {
    hide RecordStep, CountStep, SettleStep;
  }

  /** The state once the fill has settled, if it resolves to a position. */
  ghost function AfterSettle(cfg: Config, s: State, t: nat, e: Event, total: real): State
    requires t < |s.tasks|
  {
    if Resolves(cfg, e) then SettleStep(cfg, s, t, e, total, cfg.accounts[e.acct]) else Goto(s, t, Own(e))
  }

  lemma FromResolve(cfg: Config, s: State, t: nat, e: Event, total: real, n: nat)
    requires t < |s.tasks| && s.tasks[t] == Resolve(e, total) && n >= 5 && e.price.Some? && e.qty.Some?
    ensures var z := AfterSettle(cfg, s, t, e, total);
            && |z.tasks| == |s.tasks| && z.tasks[t] == Own(e) && z.orders == s.orders && z.legs == s.legs && z.brackets == s.brackets && z.fills == s.fills
            && z.tasks == s.tasks[t := Own(e)]
            && Advanced(cfg, s, t, n) == if GetsBracket(s, e) then Goto(z.(brackets := z.brackets + [e.oid]), t, Post(e)) else Goto(z, t, Idle)
  {
    hide Move, Advanced, IsFutures;
    var z := AfterSettle(cfg, s, t, e, total);
    OneMove(cfg, s, t, n);
    ResolveMoves(cfg, s, t, e, total);
    SettleFrame(cfg, s, t, e, total);
    if Resolves(cfg, e) {
      var s1 := Goto(s, t, Settle(e, total, cfg.accounts[e.acct]));
      OneMove(cfg, s1, t, n - 1);
      SettleMoves(cfg, s, t, e, total);
      FromOwn(cfg, z, t, e, n - 2);
    } else {
      FromOwn(cfg, z, t, e, n - 1);
    }
  }

  lemma SettleFrame(cfg: Config, s: State, t: nat, e: Event, total: real)
    requires t < |s.tasks| && e.price.Some? && e.qty.Some?
    ensures var z := AfterSettle(cfg, s, t, e, total);
            z.tasks == s.tasks[t := Own(e)] && z.orders == s.orders && z.legs == s.legs && z.brackets == s.brackets && z.fills == s.fills && z.lost == s.lost
  {
    hide Track, ApplyDbFill, StrategyOf, RowOf;
  }

  lemma SettleMoves(cfg: Config, s: State, t: nat, e: Event, total: real)
    requires t < |s.tasks| && Resolves(cfg, e) && e.price.Some? && e.qty.Some?
    ensures var uuid := cfg.accounts[e.acct];
            Move(cfg, Goto(s, t, Settle(e, total, uuid)), t) == SettleStep(cfg, s, t, e, total, uuid)
  {
    hide RecordStep, CountStep, ApplyDbFill, RowOf;
    var uuid := cfg.accounts[e.acct];
    var s1 := Goto(s, t, Settle(e, total, uuid));
    assert s1.tasks[t := Own(e)] == s.tasks[t := Own(e)];
    assert Track(cfg, s1, e, total) == Track(cfg, s, e, total);
  }

  /**
   A complete live fill of ours that is not in the table yet, left to itself:
   its row is stored, its order's status set, its position moved by its signed
   quantity where it resolves to one, the tracker likewise where its order
   names a strategy; and one bracket request goes out exactly if it is a
   filled futures order of strategy 006 with an account that is not a bracket
   leg itself.
   */
  lemma LiveFill(cfg: Config, s: State, t: nat, e: Event)
    requires Inv(cfg, s) && t < |s.tasks| && s.tasks[t].Idle? && CompleteLiveFill(e) && !HasFill(s.fills, e.oid)
    ensures var z := Advanced(cfg, Next(cfg, s, Deliver(t, e)), t, 9);
            var bracket := GetsBracket(s, e);
            && z.fills == s.fills + [RowOf(e, false)] && OnlyStatusSet(s.orders, z.orders, e.oid, e.status) && z.lost == s.lost
            && (forall p :: PositionQty(z.positions, p) == PositionQty(s.positions, p) + Effect(cfg, RowOf(e, false), p))
            && (forall acct, sym :: LotsQty(z.tracker, acct, sym) == LotsQty(s.tracker, acct, sym)
                  + if Resolves(cfg, e) && StrategyOf(s, e.oid) != "" && e.acct == acct && e.sym == sym then Signed(e.side.value, e.qty.value) else 0.0)
            && z.brackets == s.brackets + (if bracket then [e.oid] else [])
            && z.tasks == s.tasks[t := if bracket then Post(e) else Idle]
  {
    FirstTotal(cfg, s, e);
    PatchSetsStatus(s.orders, e.oid, e.status);
    LivePath(cfg, s, t, e);
    hide Advanced, Next, AfterSettle, GetsBracket, LotsQty, PositionQty, Effect, RowOf, CountUp, Patch, OnlyStatusSet, Inv, Resolves, StrategyOf, CompleteLiveFill;
    var total := CountUp(s.cum, e.acct, e.oid, e.qty.value).1;
    var s1 := Goto(Recorded(s, e), t, Resolve(e, total));
    var z1 := AfterSettle(cfg, s1, t, e, total);
    LiveFacts(cfg, s, s1, t, e, total);
    assert s.brackets + [] == s.brackets;
  }

  /** Where the task ends, over the state its settling leaves. */
  lemma LivePath(cfg: Config, s: State, t: nat, e: Event)
    requires t < |s.tasks| && s.tasks[t].Idle? && CompleteLiveFill(e) && !HasFill(s.fills, e.oid)
    ensures var total := CountUp(s.cum, e.acct, e.oid, e.qty.value).1;
            var s1 := Goto(Recorded(s, e), t, Resolve(e, total));
            var z1 := AfterSettle(cfg, s1, t, e, total);
            && z1.fills == s.fills + [RowOf(e, false)] && z1.orders == Patch(s.orders, e.oid, e.status) && z1.lost == s.lost && z1.brackets == s.brackets
            && Advanced(cfg, Next(cfg, s, Deliver(t, e)), t, 9)
                 == if GetsBracket(s, e) then z1.(brackets := s.brackets + [e.oid], tasks := s.tasks[t := Post(e)])
                    else z1.(tasks := s.tasks[t := Idle])
  {
    hide Advanced, Next, GetsBracket, RowOf, CountUp, Patch, OnlyStatusSet, AfterSettle, Resolves, StrategyOf;
    var total := CountUp(s.cum, e.acct, e.oid, e.qty.value).1;
    var s1 := Goto(Recorded(s, e), t, Resolve(e, total));
    ToResolve(cfg, s, t, e, total, 9);
    FromResolve(cfg, s1, t, e, total, 5);
    SettleFrame(cfg, s1, t, e, total);
    PatchSetsStatus(s.orders, e.oid, e.status);
    SameGuard(s, s1, e);
    assert s.tasks[t := Resolve(e, total)][t := Own(e)][t := Post(e)] == s.tasks[t := Post(e)];
    assert s.tasks[t := Resolve(e, total)][t := Own(e)][t := Idle] == s.tasks[t := Idle];
  }

  lemma LiveFacts(cfg: Config, s: State, s1: State, t: nat, e: Event, total: real)
    requires t < |s1.tasks| && e.price.Some? && e.qty.Some? && total == e.qty.value
    requires s1.positions == s.positions && s1.tracker == s.tracker && OnlyStatusSet(s.orders, s1.orders, e.oid, e.status)
    requires forall k :: k in s.tracker ==> e.oid !in s.tracker[k].orderFilled
    ensures var z1 := AfterSettle(cfg, s1, t, e, total);
            && (forall p :: PositionQty(z1.positions, p) == PositionQty(s.positions, p) + Effect(cfg, RowOf(e, false), p))
            && (forall acct, sym :: LotsQty(z1.tracker, acct, sym) == LotsQty(s.tracker, acct, sym)
                  + if Resolves(cfg, e) && StrategyOf(s, e.oid) != "" && e.acct == acct && e.sym == sym then Signed(e.side.value, e.qty.value) else 0.0)
  {
    hide AfterSettle, LotsQty, PositionQty, Effect, RowOf, OnlyStatusSet, StrategyOf, Signed;
    var z1 := AfterSettle(cfg, s1, t, e, total);
    forall p ensures PositionQty(z1.positions, p) == PositionQty(s.positions, p) + Effect(cfg, RowOf(e, false), p) {
      PositionMoves(cfg, s, s1, t, e, total, p);
    }
    forall acct, sym
      ensures LotsQty(z1.tracker, acct, sym) == LotsQty(s.tracker, acct, sym)
                + if Resolves(cfg, e) && StrategyOf(s, e.oid) != "" && e.acct == acct && e.sym == sym then Signed(e.side.value, e.qty.value) else 0.0
    {
      LotsMove(cfg, s, s1, t, e, total, acct, sym);
    }
  }

  lemma FirstTotal(cfg: Config, s: State, e: Event)
    requires Inv(cfg, s) && !HasFill(s.fills, e.oid) && e.qty.Some?
    ensures CountUp(s.cum, e.acct, e.oid, e.qty.value).1 == e.qty.value
    ensures forall k :: k in s.tracker ==> e.oid !in s.tracker[k].orderFilled
  {
    NewIsUnmet(cfg, s, e.oid);
    hide Inv, HasFill;
    var k := (e.acct, e.oid);
    assert k in s.cum ==> k.1 != e.oid;
  }

  lemma SameGuard(s: State, s1: State, e: Event)
    requires s1.legs == s.legs && OnlyStatusSet(s.orders, s1.orders, e.oid, e.status)
    ensures GetsBracket(s1, e) <==> GetsBracket(s, e)
  {
    hide IsFutures;
  }

  lemma PositionMoves(cfg: Config, s: State, s1: State, t: nat, e: Event, total: real, p: Place)
    requires t < |s1.tasks| && e.price.Some? && e.qty.Some? && s1.positions == s.positions
    ensures PositionQty(AfterSettle(cfg, s1, t, e, total).positions, p) == PositionQty(s.positions, p) + Effect(cfg, RowOf(e, false), p)
  {
    hide ApplyDbFill, Track, StrategyOf, PositionQty;
    if Resolves(cfg, e) {
      DbFillEffect(s.positions, (cfg.accounts[e.acct], e.sym), e.price.value, e.qty.value, e.side.value, p);
    }
  }

  lemma LotsMove(cfg: Config, s: State, s1: State, t: nat, e: Event, total: real, acct: Account, sym: Symbol)
    requires t < |s1.tasks| && e.price.Some? && e.qty.Some? && s1.tracker == s.tracker && total == e.qty.value
    requires OnlyStatusSet(s.orders, s1.orders, e.oid, e.status)
    requires forall k :: k in s.tracker ==> e.oid !in s.tracker[k].orderFilled
    ensures LotsQty(AfterSettle(cfg, s1, t, e, total).tracker, acct, sym) == LotsQty(s.tracker, acct, sym)
              + if Resolves(cfg, e) && StrategyOf(s, e.oid) != "" && e.acct == acct && e.sym == sym then Signed(e.side.value, e.qty.value) else 0.0
  {
    hide ApplyDbFill, Track, LotsQty, RowOf;
    assert StrategyOf(s1, e.oid) == StrategyOf(s, e.oid);
    if Resolves(cfg, e) { TrackEffect(cfg, s1, e, total, acct, sym); }
  }

  /** A replayed fill of ours that is not in the table yet is stored as such, its order's status is set, and nothing else moves. */
  lemma ReplayedFill(cfg: Config, s: State, t: nat, e: Event)
    requires t < |s.tasks| && s.tasks[t].Idle? && e.oid != "" && e.snapshot && e.isFill && e.ours && e.price.Some? && e.qty.Some?
    requires !HasFill(s.fills, e.oid)
    ensures var z := Advanced(cfg, Next(cfg, s, Deliver(t, e)), t, 2);
            && z == s.(fills := s.fills + [RowOf(e, true)], orders := z.orders) && OnlyStatusSet(s.orders, z.orders, e.oid, e.status)
  {
    PatchSetsStatus(s.orders, e.oid, e.status);
    hide Move, Advanced, HasFill, Patch, OnlyStatusSet;
    var s1 := Next(cfg, s, Deliver(t, e));
    assert s1 == Goto(s, t, SnapCheck(e));
    OneMove(cfg, s1, t, 2);
    OneMove(cfg, Goto(s, t, SnapRecord(e)), t, 1);
    SnapMoves(cfg, s, t, e);
    var z := Goto(s.(fills := s.fills + [RowOf(e, true)], orders := Patch(s.orders, e.oid, e.status)), t, Idle);
    assert s.tasks[t := Idle] == s.tasks;
    Stays(cfg, z, t, 0);
  }

  lemma SnapMoves(cfg: Config, s: State, t: nat, e: Event)
    requires t < |s.tasks| && e.price.Some? && e.qty.Some? && !HasFill(s.fills, e.oid)
    ensures Move(cfg, Goto(s, t, SnapCheck(e)), t) == Goto(s, t, SnapRecord(e))
    ensures Move(cfg, Goto(s, t, SnapRecord(e)), t)
         == Goto(s.(fills := s.fills + [RowOf(e, true)], orders := Patch(s.orders, e.oid, e.status)), t, Idle)
  {
    hide CountStep, SettleStep, HasFill, Patch;
    Again(s, t, SnapCheck(e), SnapRecord(e));
    assert s.tasks[t := SnapRecord(e)][t := Idle] == s.tasks[t := Idle];
  }

  /** A fill that is not ours, is known already, or lacks its price or quantity leaves everything as it was. */
  lemma FillIgnored(cfg: Config, s: State, t: nat, e: Event)
    requires t < |s.tasks| && s.tasks[t].Idle? && e.oid != "" && e.isFill && (e.snapshot || !e.isReject)
    requires !e.ours || HasFill(s.fills, e.oid) || e.price.None? || e.qty.None?
    ensures Advanced(cfg, Next(cfg, s, Deliver(t, e)), t, 2) == s
  {
    hide Move, Advanced, HasFill, Patch;
    assert s.tasks[t := Idle] == s.tasks;
    var s1 := Next(cfg, s, Deliver(t, e));
    if s1 == s {
      Stays(cfg, s, t, 2);
    } else {
      OneMove(cfg, s1, t, 2);
      CheckMoves(cfg, s, t, e);
      if !e.snapshot && !HasFill(s.fills, e.oid) { OneMove(cfg, Goto(s, t, Sibling(e)), t, 1); } else { Stays(cfg, s, t, 1); }
      Stays(cfg, s, t, 0);
    }
  }

  lemma CheckMoves(cfg: Config, s: State, t: nat, e: Event)
    requires t < |s.tasks| && s.tasks[t].Idle?
    ensures HasFill(s.fills, e.oid) ==> Move(cfg, Goto(s, t, SnapCheck(e)), t) == s && Move(cfg, Goto(s, t, LiveCheck(e)), t) == s
    ensures !HasFill(s.fills, e.oid) ==> Move(cfg, Goto(s, t, LiveCheck(e)), t) == Goto(s, t, Sibling(e))
    ensures e.price.None? || e.qty.None? ==> Move(cfg, Goto(s, t, Sibling(e)), t) == s
  {
    hide RecordStep, CountStep, SettleStep, HasFill;
    assert s.tasks[t := Idle] == s.tasks;
    Again(s, t, SnapCheck(e), Idle);
    Again(s, t, LiveCheck(e), Idle);
    Again(s, t, LiveCheck(e), Sibling(e));
    Again(s, t, Sibling(e), Idle);
  }

  // ----- Answers and restarts -----

  /** An accepted bracket's legs are remembered, so that no fill of theirs gets a bracket; a refused one's are not. */
  lemma LegsAreRemembered(cfg: Config, s: State, t: nat, accepted: bool, children: set<OrderId>, e: Event)
    requires t < |s.tasks| && s.tasks[t].Post?
    ensures var z := Next(cfg, s, PostDone(t, accepted, children));
            && z == s.(legs := z.legs, tasks := s.tasks[t := Idle])
            && (forall oid :: oid in z.legs <==> oid in s.legs || (accepted && oid in children))
            && (accepted && e.oid in children ==> !GetsBracket(z, e))
  {
    hide Move, IsFutures;
  }

  /** A restart keeps the three tables and forgets everything in memory. */
  lemma RestartForgets(cfg: Config, s: State)
    ensures var z := Next(cfg, s, Restart);
            && z.fills == s.fills && z.orders == s.orders && z.positions == s.positions
            && z.cum == map[] && z.tracker == map[] && z.legs == {}
            && |z.tasks| == |s.tasks| && forall t :: 0 <= t < |z.tasks| ==> z.tasks[t] == Idle
  {
    hide Move, DropAll;
  }

  // ----- Counting -----

  /** One leg of an order: the account and order it is of, and its quantity. */
  datatype Leg = Leg(key: (Account, OrderId), qty: real)

  /** The counters after a list of legs. */
  function CountAll(legs: seq<Leg>): map<(Account, OrderId), real> {
    if legs == [] then map[]
    else
      var l := legs[|legs| - 1];
      CountUp(CountAll(legs[..|legs| - 1]), l.key.0, l.key.1, l.qty).0
  }

  function LegsOf(key: (Account, OrderId)): Leg -> real {
    (l: Leg) => if l.key == key then l.qty else 0.0
  }

  /** Whatever legs came before, in whatever order, a leg's total is the sum of the legs of its account and order so far. */
  lemma {:induction false} TotalsAreSums(legs: seq<Leg>, key: (Account, OrderId), qty: real)
    requires key.0 != "" && key.1 != ""
    ensures CountUp(CountAll(legs), key.0, key.1, qty).1 == SeqSum(legs, LegsOf(key)) + qty
    decreases |legs|
  {
    if legs != [] {
      var l := legs[|legs| - 1];
      TotalsAreSums(legs[..|legs| - 1], key, qty);
    }
  }
}
