/**
 The accounts of the fill ledger: conservation of quantity between the fills
 table, the tasks in flight and the positions table, and the exact distance
 between the positions table and the in-memory tracker.
 */
module LedgerAccounts {
  import opened Sums
  import opened Tracker
  import opened Ledger
  import opened LedgerSafety

  // ----- Conservation -----

  /** What a live fill row adds to the position at `p`; snapshot rows and rows that resolve nowhere add nothing. */
  function Effect(cfg: Config, row: FillRow, p: Place): real {
    if row.isSnapshot || row.acct == "" || row.sym == "" || row.side.None? || row.acct !in cfg.accounts then 0.0
    else if (cfg.accounts[row.acct], row.sym) != p || row.qty <= 0.0 then 0.0
    else Signed(row.side.value, row.qty)
  }

  function RowSum(cfg: Config, rows: seq<FillRow>, p: Place): real {
    if rows == [] then 0.0 else RowSum(cfg, rows[..|rows| - 1], p) + Effect(cfg, rows[|rows| - 1], p)
  }

  function FlightEffect(cfg: Config, pc: Pc, p: Place): real {
    if InFlight(pc).Some? then Effect(cfg, InFlight(pc).value, p) else 0.0
  }

  function FlightSum(cfg: Config, tasks: seq<Pc>, p: Place): real {
    if tasks == [] then 0.0 else FlightSum(cfg, tasks[..|tasks| - 1], p) + FlightEffect(cfg, tasks[|tasks| - 1], p)
  }

  /** The positions row, plus what is in flight, plus what errors dropped, less the recorded fills. */
  ghost function Balance(cfg: Config, s: State, p: Place): real {
    PositionQty(s.positions, p) + FlightSum(cfg, s.tasks, p) + RowSum(cfg, s.lost, p) - RowSum(cfg, s.fills, p)
  }

  lemma RowAdded(cfg: Config, rows: seq<FillRow>, row: FillRow, p: Place)
    ensures RowSum(cfg, rows + [row], p) == RowSum(cfg, rows, p) + Effect(cfg, row, p)
  {
    assert (rows + [row])[..|rows|] == rows;
  }

  lemma {:induction false} TaskChanged(cfg: Config, tasks: seq<Pc>, t: nat, pc: Pc, p: Place)
    requires t < |tasks|
    ensures FlightSum(cfg, tasks[t := pc], p) == FlightSum(cfg, tasks, p) - FlightEffect(cfg, tasks[t], p) + FlightEffect(cfg, pc, p)
    decreases |tasks|
  {
    var l := |tasks| - 1;
    if t < l {
      TaskChanged(cfg, tasks[..l], t, pc, p);
      assert tasks[t := pc][..l] == tasks[..l][t := pc];
    } else {
      assert tasks[t := pc][..l] == tasks[..l];
    }
  }

  lemma {:induction false} AllDropped(cfg: Config, lost: seq<FillRow>, tasks: seq<Pc>, p: Place)
    ensures RowSum(cfg, DropAll(lost, tasks), p) == RowSum(cfg, lost, p) + FlightSum(cfg, tasks, p)
    decreases |tasks|
  {
    if tasks != [] {
      var l := |tasks| - 1;
      AllDropped(cfg, lost, tasks[..l], p);
      if InFlight(tasks[l]).Some? { RowAdded(cfg, DropAll(lost, tasks[..l]), InFlight(tasks[l]).value, p); }
    }
  }

  lemma {:induction false} IdleFlight(cfg: Config, n: nat, p: Place)
    ensures FlightSum(cfg, seq(n, _ => Idle), p) == 0.0
  {
    if n > 0 {
      IdleFlight(cfg, n - 1, p);
      assert seq(n, _ => Idle)[..n - 1] == seq(n - 1, _ => Idle);
    }
  }

  lemma DbFillEffect(positions: map<Place, PositionRow>, at: Place, price: real, qty: real, side: Side, p: Place)
    ensures PositionQty(ApplyDbFill(positions, at, price, qty, side), p)
         == PositionQty(positions, p) + if p == at && qty > 0.0 then Signed(side, qty) else 0.0
  {
    hide AvgAfter;
  }

  lemma DropBalance(cfg: Config, s: State, s': State, t: nat, p: Place)
    requires t < |s.tasks| && s'.tasks == s.tasks[t := Idle] && s'.lost == Dropped(s.lost, s.tasks[t])
    requires s'.positions == s.positions && s'.fills == s.fills
    ensures Balance(cfg, s', p) == Balance(cfg, s, p)
  {
    TaskChanged(cfg, s.tasks, t, Idle, p);
    if InFlight(s.tasks[t]).Some? { RowAdded(cfg, s.lost, InFlight(s.tasks[t]).value, p); }
  }

  lemma StoreBalance(cfg: Config, s: State, t: nat, row: FillRow, status: string, pc: Pc, p: Place)
    requires t < |s.tasks| && InFlight(s.tasks[t]).None?
    requires FlightEffect(cfg, pc, p) == Effect(cfg, row, p)
    ensures Balance(cfg, StoreFill(s, t, row, status, pc), p) == Balance(cfg, s, p)
  {
    hide HasFill, Effect, Patch, FlightSum, RowSum, FlightEffect;
    if HasFill(s.fills, row.oid) {
      IdleInFlight(cfg, s.tasks[t], p);
      TaskChanged(cfg, s.tasks, t, Idle, p);
    } else {
      IdleInFlight(cfg, s.tasks[t], p);
      TaskChanged(cfg, s.tasks, t, pc, p);
      RowAdded(cfg, s.fills, row, p);
    }
  }

  lemma IdleInFlight(cfg: Config, pc: Pc, p: Place)
    requires InFlight(pc).None?
    ensures FlightEffect(cfg, pc, p) == FlightEffect(cfg, Idle, p) == 0.0
  {
  }

  /** A recorded fill that stops being in flight without settling resolves to no position. */
  lemma ReadOnEffect(cfg: Config, s: State, pc: Pc, p: Place)
    requires Shaped(cfg, pc) && !Writes(pc)
    ensures FlightEffect(cfg, ReadOn(cfg, s, pc), p) == FlightEffect(cfg, pc, p)
  {
    hide HasFill, IsFutures;
  }

  lemma RecordBalance(cfg: Config, s: State, t: nat, e: Event, isSnapshot: bool, p: Place)
    requires t < |s.tasks| && InFlight(s.tasks[t]).None?
    ensures Balance(cfg, RecordStep(s, t, e, isSnapshot), p) == Balance(cfg, s, p)
  {
    hide FlightSum, RowSum, Balance, StoreFill;
    if e.price.None? || e.qty.None? {
      NoMoveBalance(cfg, s, Goto(s, t, Idle), t, Idle, p);
    } else {
      StoreBalance(cfg, s, t, RowOf(e, isSnapshot), e.status, if isSnapshot then Idle else Count(e), p);
    }
  }

  /** A task that goes on with the same fill in hand, or with none before and after, changes no balance. */
  lemma NoMoveBalance(cfg: Config, s: State, s': State, t: nat, pc: Pc, p: Place)
    requires t < |s.tasks| && s'.tasks == s.tasks[t := pc] && FlightEffect(cfg, pc, p) == FlightEffect(cfg, s.tasks[t], p)
    requires s'.positions == s.positions && s'.lost == s.lost && s'.fills == s.fills
    ensures Balance(cfg, s', p) == Balance(cfg, s, p)
  {
    hide FlightSum, RowSum, FlightEffect;
    TaskChanged(cfg, s.tasks, t, pc, p);
  }

  lemma SettleBalance(cfg: Config, s: State, t: nat, p: Place)
    requires t < |s.tasks| && s.tasks[t].Settle? && Shaped(cfg, s.tasks[t])
    ensures var pc := s.tasks[t]; Balance(cfg, SettleStep(cfg, s, t, pc.e, pc.total, pc.uuid), p) == Balance(cfg, s, p)
  {
    hide FlightSum, RowSum, Track, ApplyDbFill, StrategyOf;
    var pc := s.tasks[t];
    TaskChanged(cfg, s.tasks, t, Own(pc.e), p);
    DbFillEffect(s.positions, (pc.uuid, pc.e.sym), pc.e.price.value, pc.e.qty.value, pc.e.side.value, p);
  }

  lemma MoveBalance(cfg: Config, s: State, t: nat, p: Place)
    requires t < |s.tasks| && Shaped(cfg, s.tasks[t])
    ensures Balance(cfg, Move(cfg, s, t), p) == Balance(cfg, s, p)
  {
    hide Balance, RecordStep, SettleStep, CountStep, SendStep, ReadOn, Goto;
    match s.tasks[t]
    case Record(e) => RecordBalance(cfg, s, t, e, false, p);
    case SnapRecord(e) => RecordBalance(cfg, s, t, e, true, p);
    case Settle(_, _, _) => SettleBalance(cfg, s, t, p);
    case Count(e) => CountBalance(cfg, s, t, e, p);
    case Bearer(e) => SendBalance(cfg, s, t, e, p);
    case _ => ReadBalance(cfg, s, t, p);
  }

  lemma CountBalance(cfg: Config, s: State, t: nat, e: Event, p: Place)
    requires t < |s.tasks| && s.tasks[t] == Count(e) && Shaped(cfg, s.tasks[t])
    ensures Balance(cfg, CountStep(s, t, e), p) == Balance(cfg, s, p)
  {
    hide Balance, CountUp, FlightEffect;
    var pc := Resolve(e, CountUp(s.cum, e.acct, e.oid, e.qty.value).1);
    SameFlight(cfg, s.tasks[t], pc, p);
    NoMoveBalance(cfg, s, CountStep(s, t, e), t, pc, p);
  }

  lemma SendBalance(cfg: Config, s: State, t: nat, e: Event, p: Place)
    requires t < |s.tasks| && s.tasks[t] == Bearer(e)
    ensures Balance(cfg, SendStep(s, t, e), p) == Balance(cfg, s, p)
  {
    hide Balance, FlightEffect;
    SameFlight(cfg, s.tasks[t], Post(e), p);
    NoMoveBalance(cfg, s, SendStep(s, t, e), t, Post(e), p);
  }

  lemma ReadBalance(cfg: Config, s: State, t: nat, p: Place)
    requires t < |s.tasks| && Shaped(cfg, s.tasks[t]) && !Writes(s.tasks[t])
    ensures Balance(cfg, Goto(s, t, ReadOn(cfg, s, s.tasks[t])), p) == Balance(cfg, s, p)
  {
    hide Balance, FlightEffect, ReadOn, Shaped, Writes;
    ReadOnEffect(cfg, s, s.tasks[t], p);
    NoMoveBalance(cfg, s, Goto(s, t, ReadOn(cfg, s, s.tasks[t])), t, ReadOn(cfg, s, s.tasks[t]), p);
  }

  lemma SameFlight(cfg: Config, pc: Pc, next: Pc, p: Place)
    requires InFlight(pc) == InFlight(next)
    ensures FlightEffect(cfg, pc, p) == FlightEffect(cfg, next, p)
  {
  }

  lemma TakeBalance(cfg: Config, s: State, t: nat, e: Event, p: Place)
    requires t < |s.tasks| && s.tasks[t].Idle?
    ensures Balance(cfg, Take(s, t, e), p) == Balance(cfg, s, p)
  {
    hide FlightSum, RowSum, Patch, Effect;
    TaskChanged(cfg, s.tasks, t, SnapCheck(e), p);
    TaskChanged(cfg, s.tasks, t, LiveCheck(e), p);
  }

  lemma RestartBalance(cfg: Config, s: State, p: Place)
    ensures Balance(cfg, RestartStep(s), p) == Balance(cfg, s, p)
  {
    hide FlightSum, RowSum, DropAll;
    AllDropped(cfg, s.lost, s.tasks, p);
    IdleFlight(cfg, |s.tasks|, p);
  }

  lemma AnswerBalance(cfg: Config, s: State, t: nat, accepted: bool, children: set<OrderId>, p: Place)
    requires t < |s.tasks| && s.tasks[t].Post?
    ensures Balance(cfg, AnswerStep(s, t, accepted, children), p) == Balance(cfg, s, p)
  {
    hide FlightSum, RowSum;
    TaskChanged(cfg, s.tasks, t, Idle, p);
  }

  /** No step of any kind changes the balance of any position. */
  lemma StepBalance(cfg: Config, s: State, step: Step, p: Place)
    requires Inv(cfg, s)
    ensures Balance(cfg, Next(cfg, s, step), p) == Balance(cfg, s, p)
  {
    assert Shapes(cfg, s);
    hide Inv, Move, Take, DropStep, DbErrorStep, AnswerStep, RestartStep, Balance, CanFailWrite;
    match step
    case Deliver(t, e) => if t < |s.tasks| && s.tasks[t].Idle? { TakeBalance(cfg, s, t, e, p); }
    case Advance(t) => if t < |s.tasks| { MoveBalance(cfg, s, t, p); }
    case PostDone(t, accepted, children) => if t < |s.tasks| && s.tasks[t].Post? { AnswerBalance(cfg, s, t, accepted, children, p); }
    case Fail(t) => if t < |s.tasks| { FailBalance(cfg, s, t, p); }
    case DbError(t) => if CanFailWrite(s, t) { DbErrorBalance(cfg, s, t, p); }
    case PlaceOrder(_, _) => SameBalance(cfg, s, Next(cfg, s, step), p);
    case Restart => RestartBalance(cfg, s, p);
  }

  lemma FailBalance(cfg: Config, s: State, t: nat, p: Place)
    requires t < |s.tasks|
    ensures Balance(cfg, DropStep(s, t), p) == Balance(cfg, s, p)
  {
    hide Balance, Dropped;
    DropBalance(cfg, s, DropStep(s, t), t, p);
  }

  lemma DbErrorBalance(cfg: Config, s: State, t: nat, p: Place)
    requires CanFailWrite(s, t)
    ensures Balance(cfg, DbErrorStep(cfg, s, t), p) == Balance(cfg, s, p)
  {
    hide Balance, Track, StrategyOf;
    DropBalance(cfg, s, DbErrorStep(cfg, s, t), t, p);
  }

  lemma SameBalance(cfg: Config, s: State, s': State, p: Place)
    requires s'.positions == s.positions && s'.tasks == s.tasks && s'.lost == s.lost && s'.fills == s.fills
    ensures Balance(cfg, s', p) == Balance(cfg, s, p)
  {
  }

  lemma {:induction false} RunBalance(cfg: Config, s: State, steps: seq<Step>, p: Place)
    requires Inv(cfg, s)
    ensures Balance(cfg, Ledger.Run(cfg, s, steps), p) == Balance(cfg, s, p)
    decreases |steps|
  {
    if steps != [] {
      var init := steps[..|steps| - 1];
      RunBalance(cfg, s, init, p);
      RunKeeps(cfg, s, init);
      StepBalance(cfg, Ledger.Run(cfg, s, init), steps[|steps| - 1], p);
    }
  }

  lemma {:induction false} IdleTasks(cfg: Config, tasks: seq<Pc>, p: Place)
    requires forall t :: 0 <= t < |tasks| ==> tasks[t] == Idle
    ensures FlightSum(cfg, tasks, p) == 0.0
    decreases |tasks|
  {
    if tasks != [] { IdleTasks(cfg, tasks[..|tasks| - 1], p); }
  }

  /**
   Conservation over every run from empty tables: the positions row, plus the
   recorded fills in flight, plus the recorded fills that errors dropped, is
   the signed sum of the live fill rows; and a row exists exactly for a
   non-zero quantity.
   */
  lemma LedgerConservation(cfg: Config, s: State, steps: seq<Step>, p: Place)
    requires Fresh(s) && s.fills == [] && s.positions == map[]
    ensures var z := Ledger.Run(cfg, s, steps);
            && PositionQty(z.positions, p) + FlightSum(cfg, z.tasks, p) + RowSum(cfg, z.lost, p) == RowSum(cfg, z.fills, p)
            && (p in z.positions <==> PositionQty(z.positions, p) != 0.0)
  {
    FreshInv(cfg, s);
    RunKeeps(cfg, s, steps);
    RunBalance(cfg, s, steps, p);
    IdleTasks(cfg, s.tasks, p);
  }

  // ----- What the errors of a run dropped -----

  /** The step hits a fill between its record and its settle: an error, a failed positions write, or a restart. */
  predicate Drops(s: State, step: Step) {
    match step
    case Fail(t) => t < |s.tasks| && InFlight(s.tasks[t]).Some?
    case DbError(t) => CanFailWrite(s, t)
    case Restart => exists t :: 0 <= t < |s.tasks| && InFlight(s.tasks[t]).Some?
    case _ => false
  }

  /** The fills the step hits, in the order of their tasks. */
  function DroppedBy(s: State, step: Step): seq<FillRow> {
    match step
    case Fail(t) => if t < |s.tasks| then Dropped([], s.tasks[t]) else []
    case DbError(t) => if CanFailWrite(s, t) then [InFlight(s.tasks[t]).value] else []
    case Restart => DropAll([], s.tasks)
    case _ => []
  }

  /** What the steps of a run add to one of its histories, in order. */
  ghost function Collected(cfg: Config, s: State, steps: seq<Step>, added: (State, Step) -> seq<FillRow>): seq<FillRow> {
    if steps == [] then []
    else
      var init := steps[..|steps| - 1];
      Collected(cfg, s, init, added) + added(Ledger.Run(cfg, s, init), steps[|steps| - 1])
  }

  /** No step of the run adds anything. */
  ghost predicate NoneAdded(cfg: Config, s: State, steps: seq<Step>, added: (State, Step) -> seq<FillRow>) {
    forall i :: 0 <= i < |steps| ==> added(Ledger.Run(cfg, s, steps[..i]), steps[i]) == []
  }

  lemma NoneAddedStep(cfg: Config, s: State, steps: seq<Step>, added: (State, Step) -> seq<FillRow>)
    requires steps != []
    ensures var l := |steps| - 1;
            NoneAdded(cfg, s, steps, added) <==> NoneAdded(cfg, s, steps[..l], added) && added(Ledger.Run(cfg, s, steps[..l]), steps[l]) == []
  {
    hide Ledger.Run;
    var l := |steps| - 1;
    var init := steps[..l];
    assert forall i :: 0 <= i < l ==> init[..i] == steps[..i] && init[i] == steps[i];
    if NoneAdded(cfg, s, init, added) && added(Ledger.Run(cfg, s, init), steps[l]) == [] {
      forall i | 0 <= i < |steps| ensures added(Ledger.Run(cfg, s, steps[..i]), steps[i]) == [] {
        if i < l { assert added(Ledger.Run(cfg, s, init[..i]), init[i]) == []; }
      }
    }
    if NoneAdded(cfg, s, steps, added) {
      forall i | 0 <= i < l ensures added(Ledger.Run(cfg, s, init[..i]), init[i]) == [] {
        assert added(Ledger.Run(cfg, s, steps[..i]), steps[i]) == [];
      }
    }
  }

  /** A history that every step lengthens by what it adds holds what the run collected, and nothing exactly when no step adds anything. */
  lemma {:induction false} HistoryIsCollected(cfg: Config, s: State, steps: seq<Step>, added: (State, Step) -> seq<FillRow>, history: State -> seq<FillRow>)
    requires forall st, step :: history(Next(cfg, st, step)) == history(st) + added(st, step)
    ensures history(Ledger.Run(cfg, s, steps)) == history(s) + Collected(cfg, s, steps, added)
    ensures Collected(cfg, s, steps, added) == [] <==> NoneAdded(cfg, s, steps, added)
    decreases |steps|
  {
    if steps != [] {
      hide Next, NoneAdded;
      var l := |steps| - 1;
      var init := steps[..l];
      HistoryIsCollected(cfg, s, init, added, history);
      NoneAddedStep(cfg, s, steps, added);
      var z := Ledger.Run(cfg, s, init);
      assert history(Next(cfg, z, steps[l])) == history(z) + added(z, steps[l]);
      Assoc(history(s), Collected(cfg, s, init, added), added(z, steps[l]));
    }
  }

  /** The fills hit by the steps of a run. */
  ghost function DroppedIn(cfg: Config, s: State, steps: seq<Step>): seq<FillRow> {
    Collected(cfg, s, steps, DroppedBy)
  }

  ghost predicate NoDrops(cfg: Config, s: State, steps: seq<Step>) {
    forall i :: 0 <= i < |steps| ==> !Drops(Ledger.Run(cfg, s, steps[..i]), steps[i])
  }

  lemma {:induction false} DropAllSplits(lost: seq<FillRow>, tasks: seq<Pc>)
    ensures DropAll(lost, tasks) == lost + DropAll([], tasks)
    ensures DropAll([], tasks) == [] <==> forall t :: 0 <= t < |tasks| ==> InFlight(tasks[t]).None?
    decreases |tasks|
  {
    hide InFlight;
    if tasks != [] {
      var l := |tasks| - 1;
      DropAllSplits(lost, tasks[..l]);
      assert forall t :: 0 <= t < l ==> tasks[..l][t] == tasks[t];
      if InFlight(tasks[l]).Some? {
        Assoc(lost, DropAll([], tasks[..l]), [InFlight(tasks[l]).value]);
      }
    }
  }

  lemma MoveDropsNothing(cfg: Config, s: State, t: nat)
    requires t < |s.tasks|
    ensures Move(cfg, s, t).lost == s.lost
  {
    hide RecordStep, CountStep, SettleStep, ReadOn;
    match s.tasks[t]
    case Record(e) => RecordDropsNothing(s, t, e, false);
    case SnapRecord(e) => RecordDropsNothing(s, t, e, true);
    case Count(e) => CountDropsNothing(s, t, e);
    case Settle(e, total, uuid) => SettleDropsNothing(cfg, s, t, e, total, uuid);
    case _ =>
  }

  lemma RecordDropsNothing(s: State, t: nat, e: Event, isSnapshot: bool)
    requires t < |s.tasks|
    ensures RecordStep(s, t, e, isSnapshot).lost == s.lost
  {
    hide LogFill, RowOf, Patch;
  }

  lemma CountDropsNothing(s: State, t: nat, e: Event)
    requires t < |s.tasks|
    ensures CountStep(s, t, e).lost == s.lost
  {
    hide CountUp;
  }

  lemma SettleDropsNothing(cfg: Config, s: State, t: nat, e: Event, total: real, uuid: Uuid)
    requires t < |s.tasks|
    ensures SettleStep(cfg, s, t, e, total, uuid).lost == s.lost
  {
    hide Track, ApplyDbFill, StrategyOf, RowOf;
  }

  /** A step adds to the dropped fills exactly those it hits, and it drops something exactly when it hits one. */
  lemma StepDrops(cfg: Config, s: State, step: Step)
    ensures Next(cfg, s, step).lost == s.lost + DroppedBy(s, step)
    ensures DroppedBy(s, step) == [] <==> !Drops(s, step)
  {
    hide Move, InFlight, Take, DbErrorStep, DropAll, CanFailWrite;
    match step
    case Deliver(t, e) => if t < |s.tasks| { TakeDropsNothing(s, t, e); }
    case Advance(t) => if t < |s.tasks| { MoveDropsNothing(cfg, s, t); }
    case DbError(t) => if CanFailWrite(s, t) { DbErrorDrops(cfg, s, t); }
    case Restart => DropAllSplits(s.lost, s.tasks);
    case _ =>
  }

  lemma TakeDropsNothing(s: State, t: nat, e: Event)
    requires t < |s.tasks|
    ensures Take(s, t, e).lost == s.lost
  {
    hide Patch;
  }

  lemma DbErrorDrops(cfg: Config, s: State, t: nat)
    requires CanFailWrite(s, t)
    ensures DbErrorStep(cfg, s, t).lost == s.lost + [InFlight(s.tasks[t]).value]
  {
    hide Track, StrategyOf, InFlight;
  }

  /** The dropped fills of a run are those its steps hit, and there are none exactly when no step hits one. */
  lemma LostIsDropped(cfg: Config, s: State, steps: seq<Step>)
    ensures Ledger.Run(cfg, s, steps).lost == s.lost + DroppedIn(cfg, s, steps)
    ensures DroppedIn(cfg, s, steps) == [] <==> NoDrops(cfg, s, steps)
  {
    hide Next, Drops, DroppedBy, Ledger.Run, Collected;
    forall st, step ensures Next(cfg, st, step).lost == st.lost + DroppedBy(st, step) && (DroppedBy(st, step) == [] <==> !Drops(st, step)) {
      StepDrops(cfg, st, step);
    }
    HistoryIsCollected(cfg, s, steps, DroppedBy, (st: State) => st.lost);
  }

  ghost predicate AtRest(s: State) {
    forall t :: 0 <= t < |s.tasks| ==> s.tasks[t] == Idle
  }

  /** At rest a position is off by exactly what the failing steps of the run hit. */
  lemma ExactAtRest(cfg: Config, s: State, steps: seq<Step>, p: Place)
    requires Fresh(s) && s.fills == [] && s.positions == map[] && AtRest(Ledger.Run(cfg, s, steps))
    ensures var z := Ledger.Run(cfg, s, steps);
            && RowSum(cfg, z.fills, p) - PositionQty(z.positions, p) == RowSum(cfg, DroppedIn(cfg, s, steps), p)
            && (PositionQty(z.positions, p) == RowSum(cfg, z.fills, p) <==> RowSum(cfg, DroppedIn(cfg, s, steps), p) == 0.0)
  {
    hide Fresh, Ledger.Run, DroppedIn;
    LedgerConservation(cfg, s, steps, p);
    LostIsDropped(cfg, s, steps);
    NothingLostYet(s);
    assert [] + DroppedIn(cfg, s, steps) == DroppedIn(cfg, s, steps);
    IdleTasks(cfg, Ledger.Run(cfg, s, steps).tasks, p);
  }

  lemma NothingLostYet(s: State)
    requires Fresh(s)
    ensures s.lost == []
  {
  }

  /** A run whose errors, failed writes and restarts all miss the fills in flight is exact at rest, for every account and symbol. */
  lemma ExactWithoutDrops(cfg: Config, s: State, steps: seq<Step>)
    requires Fresh(s) && s.fills == [] && s.positions == map[] && AtRest(Ledger.Run(cfg, s, steps))
    requires NoDrops(cfg, s, steps)
    ensures var z := Ledger.Run(cfg, s, steps); forall p :: PositionQty(z.positions, p) == RowSum(cfg, z.fills, p)
  {
    hide Fresh, Ledger.Run, DroppedIn, NoDrops, AtRest;
    LostIsDropped(cfg, s, steps);
    var z := Ledger.Run(cfg, s, steps);
    forall p ensures PositionQty(z.positions, p) == RowSum(cfg, z.fills, p) {
      ExactAtRest(cfg, s, steps, p);
    }
  }

  /** Every one of the rows moves the position up, or every one moves it down. */
  ghost predicate OneSided(cfg: Config, rows: seq<FillRow>, p: Place, side: Side) {
    forall i :: 0 <= i < |rows| ==> Signed(side, Effect(cfg, rows[i], p)) >= 0.0
  }

  lemma {:induction false} OneSidedSum(cfg: Config, rows: seq<FillRow>, p: Place, side: Side)
    requires OneSided(cfg, rows, p, side)
    ensures Signed(side, RowSum(cfg, rows, p)) >= 0.0
    ensures RowSum(cfg, rows, p) == 0.0 <==> forall i :: 0 <= i < |rows| ==> Effect(cfg, rows[i], p) == 0.0
    decreases |rows|
  {
    hide Effect;
    if rows != [] {
      var init := rows[..|rows| - 1];
      assert forall i :: 0 <= i < |init| ==> init[i] == rows[i];
      OneSidedSum(cfg, init, p, side);
    }
  }

  /** Dropped fills of one side cannot cancel: then the position is exact at rest only if none of them was a quantity of that place. */
  lemma InexactAfterDrop(cfg: Config, s: State, steps: seq<Step>, p: Place, side: Side)
    requires Fresh(s) && s.fills == [] && s.positions == map[] && AtRest(Ledger.Run(cfg, s, steps))
    requires OneSided(cfg, DroppedIn(cfg, s, steps), p, side)
    ensures var z, rows := Ledger.Run(cfg, s, steps), DroppedIn(cfg, s, steps);
            PositionQty(z.positions, p) == RowSum(cfg, z.fills, p) <==> forall i :: 0 <= i < |rows| ==> Effect(cfg, rows[i], p) == 0.0
  {
    hide Fresh, Ledger.Run, DroppedIn, AtRest, Effect, OneSided;
    ExactAtRest(cfg, s, steps, p);
    OneSidedSum(cfg, DroppedIn(cfg, s, steps), p, side);
  }

  // ----- At most once -----

  /** Only a settling task touches the positions, the tracker and the histories of what settled. */
  predicate Settles(s: State, step: Step) {
    (step.Advance? || step.DbError?) && step.t < |s.tasks| && s.tasks[step.t].Settle?
  }

  ghost predicate SameLedgers(s: State, s': State) {
    && s'.positions == s.positions && s'.tracker == s.tracker && s'.changed == s.changed
    && s'.unowned == s.unowned && s'.trackerOnly == s.trackerOnly
  }

  lemma OthersLeaveLedgers(cfg: Config, s: State, step: Step)
    requires !Settles(s, step) && !step.Restart?
    ensures SameLedgers(s, Next(cfg, s, step))
  {
    hide Move, Take, Track, Dropped, CanFailWrite, DbErrorStep;
    match step
    case DbError(t) => assert !CanFailWrite(s, t) by { CannotFailWrite(s, t); }
    case Deliver(t, e) => if t < |s.tasks| { TakeLeavesLedgers(s, t, e); }
    case Advance(t) =>
      if t < |s.tasks| { MoveLeavesLedgers(cfg, s, t); }
    case _ =>
  }

  lemma CannotFailWrite(s: State, t: nat)
    ensures CanFailWrite(s, t) ==> Settles(s, DbError(t))
  {
  }

  lemma TakeLeavesLedgers(s: State, t: nat, e: Event)
    requires t < |s.tasks|
    ensures SameLedgers(s, Take(s, t, e))
  {
    hide Patch;
  }

  lemma MoveLeavesLedgers(cfg: Config, s: State, t: nat)
    requires t < |s.tasks| && !s.tasks[t].Settle?
    ensures SameLedgers(s, Move(cfg, s, t))
  {
    hide RecordStep, CountStep, ReadOn, SettleStep, SendStep, Goto, SameLedgers;
    match s.tasks[t]
    case Record(e) => RecordLeavesLedgers(s, t, e, false);
    case SnapRecord(e) => RecordLeavesLedgers(s, t, e, true);
    case Count(e) => CountLeavesLedgers(s, t, e);
    case Bearer(e) => SendLeavesLedgers(s, t, e);
    case Settle(_, _, _) =>
    case _ => GotoLeavesLedgers(s, t, ReadOn(cfg, s, s.tasks[t]));
  }

  lemma GotoLeavesLedgers(s: State, t: nat, pc: Pc)
    requires t < |s.tasks|
    ensures SameLedgers(s, Goto(s, t, pc))
  {
  }

  lemma SendLeavesLedgers(s: State, t: nat, e: Event)
    requires t < |s.tasks|
    ensures SameLedgers(s, SendStep(s, t, e))
  {
  }

  lemma CountLeavesLedgers(s: State, t: nat, e: Event)
    requires t < |s.tasks|
    ensures SameLedgers(s, CountStep(s, t, e))
  {
    hide CountUp;
  }

  lemma RecordLeavesLedgers(s: State, t: nat, e: Event, isSnapshot: bool)
    requires t < |s.tasks|
    ensures SameLedgers(s, RecordStep(s, t, e, isSnapshot))
  {
    hide LogFill, RowOf, Patch;
  }

  /** Whatever touches the positions table is logged in `changed`, under one order id. */
  lemma ChangesAreLogged(cfg: Config, s: State, step: Step)
    ensures var s' := Next(cfg, s, step);
            s'.positions != s.positions ==> exists oid :: s'.changed == s.changed + [oid]
  {
    hide Track, HasFill, CountUp, ReadOn, DropAll, AvgAfter;
    if !Settles(s, step) && !step.Restart? {
      hide Next;
      OthersLeaveLedgers(cfg, s, step);
    } else if step.Advance? {
      hide StoreFill;
    }
  }

  /**
   In every run, each order id changes the positions table at most once and is
   sent at most one bracket; and a fill that an error dropped after it was
   recorded never reaches the positions table, in any continuation.
   */
  lemma AtMostOnce(cfg: Config, s: State, steps: seq<Step>)
    requires Fresh(s)
    ensures var z := Ledger.Run(cfg, s, steps);
            && NoDup(z.changed) && NoDup(z.brackets)
            && forall i :: 0 <= i < |z.lost| ==> z.lost[i].oid !in z.changed
  {
    FreshInv(cfg, s);
    RunKeeps(cfg, s, steps);
  }

  // ----- The tracker -----

  function LotIn(tracker: map<(Account, Strategy), KeyState>, acct: Account, sym: Symbol): ((Account, Strategy)) -> real {
    k => if k in tracker && k.0 == acct then LotOf(tracker[k], sym).qty else 0.0
  }

  /** The quantity of a symbol the tracker holds for an account, over all strategies. */
  ghost function LotsQty(tracker: map<(Account, Strategy), KeyState>, acct: Account, sym: Symbol): real {
    SumOver(tracker.Keys, LotIn(tracker, acct, sym))
  }

  lemma LotsChanged(tracker: map<(Account, Strategy), KeyState>, k: (Account, Strategy), st: KeyState, acct: Account, sym: Symbol, today: int)
    ensures LotsQty(tracker[k := st], acct, sym) == LotsQty(tracker, acct, sym)
              + if k.0 == acct then LotOf(st, sym).qty - LotOf(TrackerFor(tracker, k, today), sym).qty else 0.0
  {
    var tracker' := tracker[k := st];
    var f, g := LotIn(tracker, acct, sym), LotIn(tracker', acct, sym);
    if k in tracker {
      assert tracker'.Keys == tracker.Keys;
      Changed(tracker.Keys, k, f, g);
    } else {
      assert tracker'.Keys == tracker.Keys + {k};
      Added(tracker.Keys, k, g);
      Congruent(tracker.Keys, f, g);
    }
  }

  /** A first fill of an order moves the tracker by its own signed quantity, once, and only where it belongs. */
  lemma TrackEffect(cfg: Config, s: State, e: Event, total: real, acct: Account, sym: Symbol)
    requires e.side.Some?
    requires forall k :: k in s.tracker ==> e.oid !in s.tracker[k].orderFilled
    ensures LotsQty(Track(cfg, s, e, total), acct, sym) == LotsQty(s.tracker, acct, sym)
              + if StrategyOf(s, e.oid) != "" && e.acct == acct && e.sym == sym then Signed(e.side.value, total) else 0.0
  {
    var strategy := StrategyOf(s, e.oid);
    if strategy != "" {
      var k := (e.acct, strategy);
      var st := TrackerFor(s.tracker, k, cfg.today);
      FillMoves(st, e.oid, e.sym, e.side.value, Some(total), e.price, cfg.today, sym);
      hide ApplyFill, LotsQty;
      LotsChanged(s.tracker, k, ApplyFill(st, e.oid, e.sym, e.side.value, Some(total), e.price, cfg.today), acct, sym, cfg.today);
    }
  }

  ghost predicate OneAccountPerUuid(cfg: Config) {
    forall a, b :: a in cfg.accounts && b in cfg.accounts && cfg.accounts[a] == cfg.accounts[b] ==> a == b
  }

  ghost predicate NonNegative(s: State) {
    forall t :: 0 <= t < |s.tasks| && !s.tasks[t].Idle? && s.tasks[t].e.qty.Some? ==> s.tasks[t].e.qty.value >= 0.0
  }

  /** The distance between the two ledgers, corrected for the fills that only one of them saw. */
  ghost function Gap(cfg: Config, s: State, acct: Account, sym: Symbol): real
    requires acct in cfg.accounts
  {
    var p := (cfg.accounts[acct], sym);
    PositionQty(s.positions, p) - LotsQty(s.tracker, acct, sym) - RowSum(cfg, s.unowned, p) + RowSum(cfg, s.trackerOnly, p)
  }

  /** What the tracker and the positions table have not met yet. */
  lemma AheadIsNew(cfg: Config, s: State, t: nat)
    requires Inv(cfg, s) && t < |s.tasks| && BeforeLedger(s.tasks[t])
    ensures Shaped(cfg, s.tasks[t]) && forall k :: k in s.tracker ==> s.tasks[t].e.oid !in s.tracker[k].orderFilled
  {
    hide Rows, Claims, Posted, Losses, Bracketed, Counters, HasFill, Shaped;
  }

  lemma SettleParts(cfg: Config, s: State, t: nat, e: Event, total: real, uuid: Uuid)
    requires t < |s.tasks| && e.price.Some? && e.qty.Some? && e.side.Some?
    ensures var z := SettleStep(cfg, s, t, e, total, uuid);
            && z.tracker == Track(cfg, s, e, total) && z.trackerOnly == s.trackerOnly
            && z.positions == ApplyDbFill(s.positions, (uuid, e.sym), e.price.value, e.qty.value, e.side.value)
            && z.unowned == if StrategyOf(s, e.oid) == "" then s.unowned + [RowOf(e, false)] else s.unowned
  {
    hide Track, ApplyDbFill, StrategyOf, RowOf;
  }

  /** What a settling fill of the account and symbol moves. */
  function Moved(e: Event, acct: Account, sym: Symbol): real {
    if e.acct == acct && e.sym == sym && e.side.Some? && e.qty.Some? then Signed(e.side.value, e.qty.value) else 0.0
  }

  lemma SettlePosition(cfg: Config, s: State, pc: Pc, acct: Account, sym: Symbol)
    requires Shaped(cfg, pc) && pc.Settle? && pc.e.qty.value >= 0.0 && OneAccountPerUuid(cfg) && acct in cfg.accounts
    ensures var p := (cfg.accounts[acct], sym);
            PositionQty(ApplyDbFill(s.positions, (pc.uuid, pc.e.sym), pc.e.price.value, pc.e.qty.value, pc.e.side.value), p)
              == PositionQty(s.positions, p) + Moved(pc.e, acct, sym)
    ensures Effect(cfg, RowOf(pc.e, false), (cfg.accounts[acct], sym)) == Moved(pc.e, acct, sym)
  {
    hide PositionQty, ApplyDbFill;
    DbFillEffect(s.positions, (pc.uuid, pc.e.sym), pc.e.price.value, pc.e.qty.value, pc.e.side.value, (cfg.accounts[acct], sym));
  }

  lemma SettleGap(cfg: Config, s: State, t: nat, acct: Account, sym: Symbol)
    requires Inv(cfg, s) && OneAccountPerUuid(cfg) && acct in cfg.accounts
    requires t < |s.tasks| && s.tasks[t].Settle? && s.tasks[t].e.qty.Some? && s.tasks[t].e.qty.value >= 0.0
    ensures var pc := s.tasks[t]; Gap(cfg, SettleStep(cfg, s, t, pc.e, pc.total, pc.uuid), acct, sym) == Gap(cfg, s, acct, sym)
  {
    hide Inv, Track, ApplyDbFill, LotsQty, RowSum, PositionQty, StrategyOf, SettleStep, Effect, RowOf;
    var pc, p := s.tasks[t], (cfg.accounts[acct], sym);
    AheadIsNew(cfg, s, t);
    SettleParts(cfg, s, t, pc.e, pc.total, pc.uuid);
    SettlePosition(cfg, s, pc, acct, sym);
    TrackEffect(cfg, s, pc.e, pc.total, acct, sym);
    hide Signed;
    RowAdded(cfg, s.unowned, RowOf(pc.e, false), p);
  }

  lemma DbErrorGap(cfg: Config, s: State, t: nat, acct: Account, sym: Symbol)
    requires Inv(cfg, s) && OneAccountPerUuid(cfg) && acct in cfg.accounts
    requires CanFailWrite(s, t) && s.tasks[t].e.qty.value >= 0.0
    ensures Gap(cfg, DbErrorStep(cfg, s, t), acct, sym) == Gap(cfg, s, acct, sym)
  {
    hide Inv, Track, ApplyDbFill, LotsQty, RowSum, PositionQty, StrategyOf, Effect;
    var pc := s.tasks[t];
    AheadIsNew(cfg, s, t);
    SettlePosition(cfg, s, pc, acct, sym);
    TrackEffect(cfg, s, pc.e, pc.total, acct, sym);
    hide Signed;
    RowAdded(cfg, s.trackerOnly, RowOf(pc.e, false), (cfg.accounts[acct], sym));
  }

  lemma StepGap(cfg: Config, s: State, step: Step, acct: Account, sym: Symbol)
    requires Inv(cfg, s) && NonNegative(s) && OneAccountPerUuid(cfg) && acct in cfg.accounts && !step.Restart?
    ensures Gap(cfg, Next(cfg, s, step), acct, sym) == Gap(cfg, s, acct, sym)
  {
    hide Inv, Gap, SettleStep, DbErrorStep, Shaped;
    if step.Advance? && step.t < |s.tasks| && s.tasks[step.t].Settle? {
      AheadIsNew(cfg, s, step.t);
      SettleQty(cfg, s.tasks[step.t]);
      SettleGap(cfg, s, step.t, acct, sym);
    } else if step.DbError? && CanFailWrite(s, step.t) {
      AheadIsNew(cfg, s, step.t);
      SettleQty(cfg, s.tasks[step.t]);
      DbErrorGap(cfg, s, step.t, acct, sym);
    } else if !step.DbError? {
      OthersLeaveLedgers(cfg, s, step);
      hide Next;
      SameGap(cfg, s, Next(cfg, s, step), acct, sym);
    }
  }

  lemma SettleQty(cfg: Config, pc: Pc)
    requires Shaped(cfg, pc) && pc.Settle?
    ensures pc.e.qty.Some?
  {
  }

  lemma SameGap(cfg: Config, s: State, s': State, acct: Account, sym: Symbol)
    requires SameLedgers(s, s') && acct in cfg.accounts
    ensures Gap(cfg, s', acct, sym) == Gap(cfg, s, acct, sym)
  {
  }

  predicate Sane(step: Step) {
    && !step.Restart?
    && (step.Deliver? && step.e.qty.Some? ==> step.e.qty.value >= 0.0)
  }

  lemma NonNegativeKept(cfg: Config, s: State, step: Step)
    requires NonNegative(s) && Sane(step)
    ensures NonNegative(Next(cfg, s, step))
  {
    hide Move, Take, Track, StrategyOf, Dropped;
    match step
    case Advance(t) => if t < |s.tasks| { SameEvent(cfg, s, t); }
    case Deliver(t, e) => if t < |s.tasks| { TakesEvent(s, t, e); }
    case _ =>
  }

  lemma TakesEvent(s: State, t: nat, e: Event)
    requires t < |s.tasks|
    ensures var z := Take(s, t, e).tasks; z == s.tasks || (z == s.tasks[t := z[t]] && !z[t].Idle? && z[t].e == e)
  {
    hide Patch;
  }

  lemma ReadOnEvent(cfg: Config, s: State, pc: Pc)
    ensures var next := ReadOn(cfg, s, pc); next.Idle? || (!pc.Idle? && next.e == pc.e)
  {
    hide HasFill, IsFutures;
  }

  /** A task only ever goes on with the event it has, or drops it. */
  lemma SameEvent(cfg: Config, s: State, t: nat)
    requires t < |s.tasks|
    ensures var z := Move(cfg, s, t).tasks;
            && |z| == |s.tasks| && z == s.tasks[t := z[t]] && (z[t].Idle? || (!s.tasks[t].Idle? && z[t].e == s.tasks[t].e))
  {
    hide RecordStep, CountStep, SettleStep, ReadOn;
    match s.tasks[t]
    case Record(e) => RecordEvent(s, t, e, false);
    case SnapRecord(e) => RecordEvent(s, t, e, true);
    case Count(e) => CountEvent(s, t, e);
    case Settle(e, total, uuid) => SettleEvent(cfg, s, t, e, total, uuid);
    case _ => ReadOnEvent(cfg, s, s.tasks[t]);
  }

  lemma CountEvent(s: State, t: nat, e: Event)
    requires t < |s.tasks|
    ensures var z := CountStep(s, t, e).tasks; z == s.tasks[t := z[t]] && (z[t].Idle? || (z[t].Resolve? && z[t].e == e))
  {
    hide CountUp;
  }

  lemma SettleEvent(cfg: Config, s: State, t: nat, e: Event, total: real, uuid: Uuid)
    requires t < |s.tasks|
    ensures var z := SettleStep(cfg, s, t, e, total, uuid).tasks; z == s.tasks[t := Idle] || z == s.tasks[t := Own(e)]
  {
    hide Track, ApplyDbFill, StrategyOf, RowOf;
  }

  lemma RecordEvent(s: State, t: nat, e: Event, isSnapshot: bool)
    requires t < |s.tasks|
    ensures var z := RecordStep(s, t, e, isSnapshot).tasks; z == s.tasks[t := Idle] || z == s.tasks[t := Count(e)]
  {
    hide LogFill, RowOf, Patch;
  }

  /**
   The two ledgers never drift: for non-negative quantities, over any run
   within one process, the positions row less the tracker's lots changes only
   by the fills whose order had no orders row when they settled, and by those
   whose positions write failed after the tracker had moved.
   */
  lemma {:induction false} NoDrift(cfg: Config, s: State, steps: seq<Step>, acct: Account, sym: Symbol)
    requires Fresh(s) && OneAccountPerUuid(cfg) && acct in cfg.accounts
    requires forall i :: 0 <= i < |steps| ==> Sane(steps[i])
    ensures var z := Ledger.Run(cfg, s, steps); Gap(cfg, z, acct, sym) == Gap(cfg, s, acct, sym) && NonNegative(z)
    ensures var z := Ledger.Run(cfg, s, steps);
            var p := (cfg.accounts[acct], sym);
            PositionQty(z.positions, p) - LotsQty(z.tracker, acct, sym)
              == PositionQty(s.positions, p) + RowSum(cfg, z.unowned, p) - RowSum(cfg, z.trackerOnly, p)
    decreases |steps|
  {
    FreshInv(cfg, s);
    assert s.tracker.Keys == {};
    assert LotsQty(s.tracker, acct, sym) == 0.0;
    if steps != [] {
      var init := steps[..|steps| - 1];
      NoDrift(cfg, s, init, acct, sym);
      RunKeeps(cfg, s, init);
      hide LotsQty;
      StepGap(cfg, Ledger.Run(cfg, s, init), steps[|steps| - 1], acct, sym);
      NonNegativeKept(cfg, Ledger.Run(cfg, s, init), steps[|steps| - 1]);
    }
  }

  /** The step settles a fill whose order has no orders row naming a strategy, so that only the positions table moves. */
  predicate SettlesUnowned(s: State, step: Step) {
    && step.Advance? && step.t < |s.tasks| && s.tasks[step.t].Settle?
    && s.tasks[step.t].e.price.Some? && s.tasks[step.t].e.qty.Some? && s.tasks[step.t].e.side.Some?
    && StrategyOf(s, s.tasks[step.t].e.oid) == ""
  }

  /** The step's positions write fails after the tracker has moved. */
  predicate MovesTrackerAlone(s: State, step: Step) {
    step.DbError? && CanFailWrite(s, step.t) && StrategyOf(s, s.tasks[step.t].e.oid) != ""
  }

  function UnownedBy(s: State, step: Step): seq<FillRow> {
    if SettlesUnowned(s, step) then [RowOf(s.tasks[step.t].e, false)] else []
  }

  function TrackerOnlyBy(s: State, step: Step): seq<FillRow> {
    if MovesTrackerAlone(s, step) then [InFlight(s.tasks[step.t]).value] else []
  }

  /** A step adds to the two histories exactly what it settles for one ledger alone. */
  lemma StepSides(cfg: Config, s: State, step: Step)
    ensures Next(cfg, s, step).unowned == s.unowned + UnownedBy(s, step)
    ensures Next(cfg, s, step).trackerOnly == s.trackerOnly + TrackerOnlyBy(s, step)
  {
    hide SettleStep, DbErrorStep, Move, RestartStep, CanFailWrite, StrategyOf, RowOf, InFlight;
    if step.Advance? && Settles(s, step) {
      SettleSides(cfg, s, step.t);
    } else if step.DbError? {
      if CanFailWrite(s, step.t) { DbErrorSides(cfg, s, step.t); }
    } else if step.Restart? {
      RestartSides(s);
    } else {
      OthersLeaveLedgers(cfg, s, step);
      hide Next;
    }
  }

  lemma SettleSides(cfg: Config, s: State, t: nat)
    requires t < |s.tasks| && s.tasks[t].Settle?
    ensures var z := Move(cfg, s, t); z.unowned == s.unowned + UnownedBy(s, Advance(t)) && z.trackerOnly == s.trackerOnly
  {
    hide Track, ApplyDbFill, StrategyOf, RowOf;
  }

  lemma DbErrorSides(cfg: Config, s: State, t: nat)
    requires CanFailWrite(s, t)
    ensures var z := DbErrorStep(cfg, s, t); z.unowned == s.unowned && z.trackerOnly == s.trackerOnly + TrackerOnlyBy(s, DbError(t))
  {
    hide Track, StrategyOf, InFlight;
  }

  lemma RestartSides(s: State)
    ensures RestartStep(s).unowned == s.unowned && RestartStep(s).trackerOnly == s.trackerOnly
  {
    hide DropAll;
  }

  /**
   The drift by the steps of the run: over any run within one process, row
   less lots differs from the start by the fills that settled without an
   orders row, less those whose positions write failed after the tracker moved.
   */
  lemma DriftExactly(cfg: Config, s: State, steps: seq<Step>, acct: Account, sym: Symbol)
    requires Fresh(s) && OneAccountPerUuid(cfg) && acct in cfg.accounts
    requires forall i :: 0 <= i < |steps| ==> Sane(steps[i])
    ensures var z, p := Ledger.Run(cfg, s, steps), (cfg.accounts[acct], sym);
            PositionQty(z.positions, p) - LotsQty(z.tracker, acct, sym)
              == PositionQty(s.positions, p) + RowSum(cfg, Collected(cfg, s, steps, UnownedBy), p)
                 - RowSum(cfg, Collected(cfg, s, steps, TrackerOnlyBy), p)
    ensures Collected(cfg, s, steps, UnownedBy) == [] <==> NoneAdded(cfg, s, steps, UnownedBy)
    ensures Collected(cfg, s, steps, TrackerOnlyBy) == [] <==> NoneAdded(cfg, s, steps, TrackerOnlyBy)
  {
    hide Ledger.Run, Collected, Fresh, Gap, NonNegative, RowSum, LotsQty, PositionQty, NoneAdded, UnownedBy, TrackerOnlyBy, OneAccountPerUuid, Sane;
    NoDrift(cfg, s, steps, acct, sym);
    SidesAreCollected(cfg, s, steps);
  }

  lemma SidesAreCollected(cfg: Config, s: State, steps: seq<Step>)
    requires Fresh(s)
    ensures Ledger.Run(cfg, s, steps).unowned == Collected(cfg, s, steps, UnownedBy)
    ensures Ledger.Run(cfg, s, steps).trackerOnly == Collected(cfg, s, steps, TrackerOnlyBy)
    ensures Collected(cfg, s, steps, UnownedBy) == [] <==> NoneAdded(cfg, s, steps, UnownedBy)
    ensures Collected(cfg, s, steps, TrackerOnlyBy) == [] <==> NoneAdded(cfg, s, steps, TrackerOnlyBy)
  {
    NothingYet(s);
    hide Next, UnownedBy, TrackerOnlyBy, Ledger.Run, Collected, Fresh, NoneAdded;
    forall st, step
      ensures Next(cfg, st, step).unowned == st.unowned + UnownedBy(st, step) && Next(cfg, st, step).trackerOnly == st.trackerOnly + TrackerOnlyBy(st, step)
    {
      StepSides(cfg, st, step);
    }
    HistoryIsCollected(cfg, s, steps, UnownedBy, (st: State) => st.unowned);
    HistoryIsCollected(cfg, s, steps, TrackerOnlyBy, (st: State) => st.trackerOnly);
    assert [] + Collected(cfg, s, steps, UnownedBy) == Collected(cfg, s, steps, UnownedBy);
    assert [] + Collected(cfg, s, steps, TrackerOnlyBy) == Collected(cfg, s, steps, TrackerOnlyBy);
  }

  lemma NothingYet(s: State)
    requires Fresh(s)
    ensures s.unowned == [] && s.trackerOnly == []
  {
  }

  /**
   From an empty positions table, a run in which every fill that settles has
   its orders row, and no positions write fails after the tracker moved, keeps
   row and lots equal for every account and symbol.
   */
  lemma NeverDrifts(cfg: Config, s: State, steps: seq<Step>)
    requires Fresh(s) && s.positions == map[] && OneAccountPerUuid(cfg)
    requires forall i :: 0 <= i < |steps| ==> Sane(steps[i])
    requires forall i :: 0 <= i < |steps| ==>
      var st := Ledger.Run(cfg, s, steps[..i]); !SettlesUnowned(st, steps[i]) && !MovesTrackerAlone(st, steps[i])
    ensures var z := Ledger.Run(cfg, s, steps);
            forall acct, sym :: acct in cfg.accounts ==> PositionQty(z.positions, (cfg.accounts[acct], sym)) == LotsQty(z.tracker, acct, sym)
  {
    hide Ledger.Run, Collected, Fresh, LotsQty, SettlesUnowned, MovesTrackerAlone;
    var z := Ledger.Run(cfg, s, steps);
    assert NoneAdded(cfg, s, steps, UnownedBy) && NoneAdded(cfg, s, steps, TrackerOnlyBy);
    forall acct, sym | acct in cfg.accounts
      ensures PositionQty(z.positions, (cfg.accounts[acct], sym)) == LotsQty(z.tracker, acct, sym)
    {
      DriftExactly(cfg, s, steps, acct, sym);
    }
  }

  // ----- An error between recording and settling is never made good -----

  predicate CompleteLiveFill(e: Event) {
    e.oid != "" && !e.snapshot && e.isFill && !e.isReject && e.ours && e.price.Some? && e.qty.Some?
  }

  lemma ThreeSteps(cfg: Config, s: State, t: nat, e: Event)
    requires t < |s.tasks| && s.tasks[t].Idle? && CompleteLiveFill(e) && !HasFill(s.fills, e.oid)
    ensures var s3 := Next(cfg, Next(cfg, Next(cfg, s, Deliver(t, e)), Advance(t)), Advance(t));
            s3 == Goto(s, t, Record(e))
  {
    hide HasFill, Track, IsFutures;
    var s1, s2 := Goto(s, t, LiveCheck(e)), Goto(s, t, Sibling(e));
    assert Next(cfg, s, Deliver(t, e)) == s1;
    assert Next(cfg, s1, Advance(t)) == s2;
    assert Next(cfg, s2, Advance(t)) == Goto(s, t, Record(e));
  }

  lemma RecordAndFail(cfg: Config, s: State, t: nat, e: Event)
    requires t < |s.tasks| && s.tasks[t].Idle? && CompleteLiveFill(e) && !HasFill(s.fills, e.oid)
    ensures var row := RowOf(e, false);
            Next(cfg, Next(cfg, Goto(s, t, Record(e)), Advance(t)), Fail(t))
              == s.(fills := s.fills + [row], lost := s.lost + [row], orders := Patch(s.orders, e.oid, e.status))
  {
    hide HasFill, Track, IsFutures, Patch;
    var row := RowOf(e, false);
    var s4 := Goto(s.(fills := s.fills + [row], orders := Patch(s.orders, e.oid, e.status)), t, Count(e));
    assert Next(cfg, Goto(s, t, Record(e)), Advance(t)) == s4;
    assert s4.tasks[t := Idle] == s.tasks;
  }

  /**
   Any complete live fill can be recorded and then dropped by an error: the
   row stands and no position has moved.  Offered again, it is refused.
   */
  lemma DroppedForGood(cfg: Config, s: State, t: nat, e: Event)
    requires t < |s.tasks| && s.tasks[t].Idle? && CompleteLiveFill(e) && !HasFill(s.fills, e.oid)
    ensures var steps := [Deliver(t, e), Advance(t), Advance(t), Advance(t), Fail(t)];
            var z := Ledger.Run(cfg, s, steps);
            && z.fills == s.fills + [RowOf(e, false)] && z.positions == s.positions && z.tasks == s.tasks
            && Next(cfg, Next(cfg, z, Deliver(t, e)), Advance(t)) == z
  {
    hide Next, Track, Patch;
    var steps := [Deliver(t, e), Advance(t), Advance(t), Advance(t), Fail(t)];
    FiveSteps(cfg, s, Deliver(t, e), Advance(t), Advance(t), Advance(t), Fail(t));
    ThreeSteps(cfg, s, t, e);
    RecordAndFail(cfg, s, t, e);
    var z := Ledger.Run(cfg, s, steps);
    Refused(cfg, z, t, e);
  }

  lemma RunMore(cfg: Config, s: State, steps: seq<Step>, step: Step)
    ensures Ledger.Run(cfg, s, steps + [step]) == Next(cfg, Ledger.Run(cfg, s, steps), step)
  {
    hide Next;
    assert (steps + [step])[..|steps|] == steps;
  }

  lemma TwoSteps(cfg: Config, s: State, a: Step, b: Step)
    ensures Ledger.Run(cfg, s, [a, b]) == Next(cfg, Next(cfg, s, a), b)
  {
    hide Next;
    assert [a][..0] == [] && [a, b][..1] == [a];
    assert Ledger.Run(cfg, s, [a]) == Next(cfg, s, a);
  }

  lemma ThreeInARow(cfg: Config, s: State, a: Step, b: Step, c: Step)
    ensures Ledger.Run(cfg, s, [a, b, c]) == Next(cfg, Next(cfg, Next(cfg, s, a), b), c)
  {
    hide Next, Ledger.Run;
    TwoSteps(cfg, s, a, b);
    RunMore(cfg, s, [a, b], c);
    assert [a, b] + [c] == [a, b, c];
  }

  lemma FourInARow(cfg: Config, s: State, a: Step, b: Step, c: Step, d: Step)
    ensures Ledger.Run(cfg, s, [a, b, c, d]) == Next(cfg, Next(cfg, Next(cfg, Next(cfg, s, a), b), c), d)
  {
    hide Next, Ledger.Run;
    ThreeInARow(cfg, s, a, b, c);
    RunMore(cfg, s, [a, b, c], d);
    assert [a, b, c] + [d] == [a, b, c, d];
  }

  lemma FiveSteps(cfg: Config, s: State, a: Step, b: Step, c: Step, d: Step, e: Step)
    ensures Ledger.Run(cfg, s, [a, b, c, d, e]) == Next(cfg, Next(cfg, Next(cfg, Next(cfg, Next(cfg, s, a), b), c), d), e)
  {
    hide Next, Ledger.Run;
    FourInARow(cfg, s, a, b, c, d);
    RunMore(cfg, s, [a, b, c, d], e);
    assert [a, b, c, d] + [e] == [a, b, c, d, e];
  }

  lemma Refused(cfg: Config, z: State, t: nat, e: Event)
    requires t < |z.tasks| && z.tasks[t].Idle? && CompleteLiveFill(e) && |z.fills| > 0 && z.fills[|z.fills| - 1].oid == e.oid
    ensures Next(cfg, Next(cfg, z, Deliver(t, e)), Advance(t)) == z
  {
    assert HasFill(z.fills, e.oid);
    hide HasFill, Track, IsFutures;
    assert Next(cfg, z, Deliver(t, e)) == Goto(z, t, LiveCheck(e));
    assert Goto(z, t, LiveCheck(e)).tasks[t := Idle] == z.tasks;
  }
}
