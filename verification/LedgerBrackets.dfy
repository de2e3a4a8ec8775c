/**
 Which orders get a bracket, in any interleaving of the ledger's steps: what
 a task has passed on its way stays true until its request goes out.
 */
module LedgerBrackets {
  import opened Tracker
  import opened Ledger
  import opened LedgerSafety
  import opened LedgerPath

  /** The task's event is stored as a live fill. */
  ghost predicate Stored(s: State, e: Event) {
    e.price.Some? && e.qty.Some? && RowOf(e, false) in s.fills
  }

  /** What a task past a check knows to have passed. */
  ghost predicate Passed(s: State, pc: Pc) {
    && (PastRecord(pc) ==> Stored(s, pc.e))
    && (pc.Guard? || pc.Bearer? || pc.Post? ==> pc.e.oid in s.orders)
    && (pc.Bearer? || pc.Post? ==> s.orders[pc.e.oid].strategy == "strategy_006" && pc.e.acct != "" && IsFutures(pc.e.sym))
  }

  /** A stored order of strategy 006 with a live futures fill on a known account. */
  ghost predicate Owed(s: State, oid: OrderId) {
    && oid in s.orders && s.orders[oid].strategy == "strategy_006"
    && exists row :: row in s.fills && row.oid == oid && !row.isSnapshot && row.acct != "" && IsFutures(row.sym)
  }

  ghost predicate AllPassed(s: State) {
    && (forall t :: 0 <= t < |s.tasks| ==> Passed(s, s.tasks[t]))
    && (forall oid :: oid in s.brackets ==> Owed(s, oid))
  }

  /** Fill rows stay, and orders keep their strategies. */
  ghost predicate Extends(s: State, z: State) {
    && (forall row :: row in s.fills ==> row in z.fills)
    && (forall oid :: oid in s.orders ==> oid in z.orders && z.orders[oid].strategy == s.orders[oid].strategy)
  }

  lemma StillPassed(s: State, z: State, pc: Pc)
    requires Extends(s, z) && Passed(s, pc)
    ensures Passed(z, pc)
  {
    hide IsFutures;
  }

  lemma StillOwed(s: State, z: State, oid: OrderId)
    requires Extends(s, z) && Owed(s, oid)
    ensures Owed(z, oid)
  {
    hide IsFutures;
  }

  /** One task goes on to `pc`, and no bracket is sent. */
  lemma GoesOn(s: State, z: State, t: nat, pc: Pc)
    requires AllPassed(s) && Extends(s, z) && t < |s.tasks| && z.tasks == s.tasks[t := pc] && z.brackets == s.brackets && Passed(z, pc)
    ensures AllPassed(z)
  {
    hide Passed, Owed, Extends;
    forall u | 0 <= u < |z.tasks| ensures Passed(z, z.tasks[u]) {
      if u != t { StillPassed(s, z, s.tasks[u]); }
    }
    forall oid | oid in z.brackets ensures Owed(z, oid) { StillOwed(s, z, oid); }
  }

  lemma SendPasses(s: State, t: nat, e: Event)
    requires AllPassed(s) && t < |s.tasks| && s.tasks[t] == Bearer(e)
    ensures AllPassed(SendStep(s, t, e))
  {
    var z := SendStep(s, t, e);
    assert Passed(s, s.tasks[t]);
    hide IsFutures;
    assert RowOf(e, false) in s.fills && Owed(s, e.oid);
    hide Passed, Owed, Extends;
    forall u | 0 <= u < |z.tasks| ensures Passed(z, z.tasks[u]) { PostPasses(s, z, t, e, u); }
    forall oid | oid in z.brackets ensures Owed(z, oid) { SameOwed(s, z, oid); }
  }

  lemma PostPasses(s: State, z: State, t: nat, e: Event, u: nat)
    requires AllPassed(s) && t < |s.tasks| && s.tasks[t] == Bearer(e) && z == SendStep(s, t, e) && u < |s.tasks|
    ensures Passed(z, z.tasks[u])
  {
    hide IsFutures, Owed;
    assert Passed(s, s.tasks[u]);
  }

  lemma SameOwed(s: State, z: State, oid: OrderId)
    requires Owed(s, oid) && z.fills == s.fills && z.orders == s.orders
    ensures Owed(z, oid)
  {
    hide IsFutures;
  }

  /** A status set on an order, and rows added. */
  lemma TablesPass(s: State, z: State)
    requires AllPassed(s) && Extends(s, z) && z.tasks == s.tasks && z.brackets == s.brackets
    ensures AllPassed(z)
  {
    hide Passed, Owed, Extends;
    forall t | 0 <= t < |z.tasks| ensures Passed(z, z.tasks[t]) { StillPassed(s, z, s.tasks[t]); }
    forall oid | oid in z.brackets ensures Owed(z, oid) { StillOwed(s, z, oid); }
  }

  lemma PatchExtends(s: State, oid: OrderId, status: string)
    ensures Extends(s, s.(orders := Patch(s.orders, oid, status)))
  {
  }

  lemma GoesFree(s: State, t: nat, pc: Pc)
    requires AllPassed(s) && t < |s.tasks| && !PastRecord(pc)
    ensures AllPassed(Goto(s, t, pc))
  {
    hide AllPassed, IsFutures, Owed;
    GoesOn(s, Goto(s, t, pc), t, pc);
  }

  lemma RecordPasses(s: State, t: nat, e: Event, isSnapshot: bool)
    requires AllPassed(s) && t < |s.tasks|
    ensures AllPassed(RecordStep(s, t, e, isSnapshot))
  {
    hide AllPassed, HasFill, IsFutures, Owed, Patch;
    GoesFree(s, t, Idle);
    if e.price.Some? && e.qty.Some? && !HasFill(s.fills, e.oid) { StorePasses(s, t, e, isSnapshot); }
    hide Goto;
  }

  lemma StorePasses(s: State, t: nat, e: Event, isSnapshot: bool)
    requires AllPassed(s) && t < |s.tasks| && e.price.Some? && e.qty.Some?
    ensures AllPassed(Goto(s.(fills := s.fills + [RowOf(e, isSnapshot)], orders := Patch(s.orders, e.oid, e.status)), t,
                           if isSnapshot then Idle else Count(e)))
  {
    hide AllPassed, IsFutures, Owed, Patch;
    var s1 := s.(orders := Patch(s.orders, e.oid, e.status));
    PatchExtends(s, e.oid, e.status);
    TablesPass(s, s1);
    var z := Goto(s1.(fills := s1.fills + [RowOf(e, isSnapshot)]), t, if isSnapshot then Idle else Count(e));
    GoesOn(s1, z, t, if isSnapshot then Idle else Count(e));
  }

  lemma CountPasses(s: State, t: nat, e: Event)
    requires AllPassed(s) && t < |s.tasks| && s.tasks[t] == Count(e)
    ensures AllPassed(CountStep(s, t, e))
  {
    assert Passed(s, s.tasks[t]);
    hide AllPassed, IsFutures, Owed, CountUp;
    var z := CountStep(s, t, e);
    GoesOn(s, z, t, z.tasks[t]);
  }

  lemma SettlePasses(cfg: Config, s: State, t: nat, e: Event, total: real, uuid: Uuid)
    requires AllPassed(s) && t < |s.tasks| && s.tasks[t] == Settle(e, total, uuid)
    ensures AllPassed(SettleStep(cfg, s, t, e, total, uuid))
  {
    assert Passed(s, s.tasks[t]);
    hide AllPassed, IsFutures, Owed, Track, ApplyDbFill;
    var z := SettleStep(cfg, s, t, e, total, uuid);
    GoesOn(s, z, t, z.tasks[t]);
  }

  lemma ReadPasses(cfg: Config, s: State, t: nat)
    requires AllPassed(s) && t < |s.tasks|
    ensures AllPassed(Goto(s, t, ReadOn(cfg, s, s.tasks[t])))
  {
    assert Passed(s, s.tasks[t]);
    hide AllPassed, IsFutures, Owed, HasFill;
    var z := Goto(s, t, ReadOn(cfg, s, s.tasks[t]));
    GoesOn(s, z, t, ReadOn(cfg, s, s.tasks[t]));
  }

  lemma MovePasses(cfg: Config, s: State, t: nat)
    requires AllPassed(s) && t < |s.tasks|
    ensures AllPassed(Move(cfg, s, t))
  {
    hide AllPassed, RecordStep, CountStep, SettleStep, SendStep, ReadOn, Goto;
    match s.tasks[t]
    case SnapRecord(e) => RecordPasses(s, t, e, true);
    case Record(e) => RecordPasses(s, t, e, false);
    case Count(e) => CountPasses(s, t, e);
    case Settle(e, total, uuid) => SettlePasses(cfg, s, t, e, total, uuid);
    case Bearer(e) => SendPasses(s, t, e);
    case _ => ReadPasses(cfg, s, t);
  }

  lemma TakePasses(s: State, t: nat, e: Event)
    requires AllPassed(s) && t < |s.tasks| && s.tasks[t].Idle?
    ensures AllPassed(Take(s, t, e))
  {
    hide AllPassed, IsFutures, Owed, Patch, Extends;
    GoesFree(s, t, SnapCheck(e));
    GoesFree(s, t, LiveCheck(e));
    PatchExtends(s, e.oid, "rejected");
    PatchExtends(s, e.oid, e.status);
    TablesPass(s, s.(orders := Patch(s.orders, e.oid, "rejected")));
    TablesPass(s, s.(orders := Patch(s.orders, e.oid, e.status)));
    hide Goto;
  }

  /** A step that leaves the fills and orders alone and idles some tasks. */
  lemma IdlesPass(s: State, z: State)
    requires AllPassed(s) && z.fills == s.fills && z.orders == s.orders && z.brackets == s.brackets && |z.tasks| == |s.tasks|
    requires forall t :: 0 <= t < |z.tasks| ==> z.tasks[t] == s.tasks[t] || z.tasks[t] == Idle
    ensures AllPassed(z)
  {
    hide IsFutures, Owed;
    forall t | 0 <= t < |z.tasks| ensures Passed(z, z.tasks[t]) { assert Passed(s, s.tasks[t]); }
    forall oid | oid in z.brackets ensures Owed(z, oid) { SameOwed(s, z, oid); }
  }

  lemma EndPasses(cfg: Config, s: State, step: Step)
    requires AllPassed(s) && (step.PostDone? || step.Fail? || step.DbError?)
    ensures AllPassed(Next(cfg, s, step))
  {
    hide AllPassed, Move, Dropped, Track, InFlight;
    var z := Next(cfg, s, step);
    if z != s { IdlesPass(s, z); }
  }

  lemma RestartPasses(s: State)
    requires AllPassed(s)
    ensures AllPassed(RestartStep(s))
  {
    hide AllPassed, DropAll;
    IdlesPass(s, RestartStep(s));
  }

  lemma StepPasses(cfg: Config, s: State, step: Step)
    requires AllPassed(s)
    ensures AllPassed(Next(cfg, s, step))
  {
    match step
    case Deliver(t, e) => {
      hide AllPassed, Take;
      if t < |s.tasks| && s.tasks[t].Idle? { TakePasses(s, t, e); }
    }
    case Advance(t) => {
      hide AllPassed, Move;
      if t < |s.tasks| { MovePasses(cfg, s, t); }
    }
    case PlaceOrder(oid, row) => {
      hide AllPassed;
      OrderPasses(s, oid, row);
    }
    case Restart => {
      hide AllPassed, RestartStep;
      RestartPasses(s);
    }
    case _ => {
      hide AllPassed, Next;
      EndPasses(cfg, s, step);
    }
  }

  lemma OrderPasses(s: State, oid: OrderId, row: OrderRow)
    requires AllPassed(s)
    ensures oid !in s.orders ==> AllPassed(s.(orders := s.orders[oid := row]))
  {
    if oid !in s.orders {
      hide AllPassed;
      TablesPass(s, s.(orders := s.orders[oid := row]));
    }
  }

  /**
   In any interleaving, with errors and restarts, a bracket request goes out
   only for a stored order of strategy 006 that has a live futures fill with
   an account in the fills table.
   */
  lemma {:induction false} BracketsBelong(cfg: Config, s: State, steps: seq<Step>, oid: OrderId)
    requires Fresh(s)
    ensures AllPassed(Ledger.Run(cfg, s, steps))
    ensures oid in Ledger.Run(cfg, s, steps).brackets ==> Owed(Ledger.Run(cfg, s, steps), oid)
    decreases |steps|
  {
    if steps == [] {
      hide IsFutures;
    } else {
      hide AllPassed, Next;
      BracketsBelong(cfg, s, steps[..|steps| - 1], oid);
      StepPasses(cfg, Ledger.Run(cfg, s, steps[..|steps| - 1]), steps[|steps| - 1]);
      AllOwed(Ledger.Run(cfg, s, steps), oid);
    }
  }

  lemma AllOwed(s: State, oid: OrderId)
    requires AllPassed(s)
    ensures oid in s.brackets ==> Owed(s, oid)
  {
  }
}
