/**
 The fill ledger: one task per account stream, each reconnecting and
 replaying at will, all sharing one fills table, one positions table, the
 cumulative counters and the in-memory tracker.  Every `await` of the source
 is a program counter where another task, an error or a restart may come in
 between; what runs between two awaits is one step.
 */
module Ledger {
  import opened Sums
  import opened Tracker

  type Account = string
  type Uuid = string
  type Strategy = string

  /** A row of the fills table, with what its raw payload resolves to. */
  datatype FillRow = FillRow(oid: OrderId, price: real, qty: real, isSnapshot: bool, acct: Account, sym: Symbol, side: Option<Side>, at: int)

  datatype OrderRow = OrderRow(strategy: Strategy, side: Side, status: string)

  datatype PositionRow = PositionRow(qty: real, avgCost: Option<real>)

  type Place = (Uuid, Symbol)

  /** An order update after its fields have been merged from the payload. */
  datatype Event = Event(
    oid: OrderId, acct: Account, sym: Symbol, ours: bool,
    isFill: bool, isReject: bool, snapshot: bool, status: string,
    price: Option<real>, qty: Option<real>, side: Option<Side>, at: int)

  datatype Pc =
    | Idle
    | SnapCheck(e: Event)
    | SnapRecord(e: Event)
    | LiveCheck(e: Event)
    | Sibling(e: Event)
    | Record(e: Event)
    | Count(e: Event)
    | Resolve(e: Event, total: real)
    | Settle(e: Event, total: real, uuid: Uuid)
    | Own(e: Event)
    | Guard(e: Event)
    | Bearer(e: Event)
    | Post(e: Event)

  datatype State = State(
    fills: seq<FillRow>,
    orders: map<OrderId, OrderRow>,
    positions: map<Place, PositionRow>,
    cum: map<(Account, OrderId), real>,
    tracker: map<(Account, Strategy), KeyState>,
    legs: set<OrderId>,
    tasks: seq<Pc>,
    // What happened, kept for the statements below and read by no step.
    changed: seq<OrderId>,
    brackets: seq<OrderId>,
    lost: seq<FillRow>,
    unowned: seq<FillRow>,
    trackerOnly: seq<FillRow>)

  // ----- The atomic pieces -----

  predicate HasFill(fills: seq<FillRow>, oid: OrderId) {
    exists i :: 0 <= i < |fills| && fills[i].oid == oid
  }

  /** Insert-if-absent: the answer says whether a row was inserted. */
  function LogFill(fills: seq<FillRow>, row: FillRow): (seq<FillRow>, bool) {
    if HasFill(fills, row.oid) then (fills, false) else (fills + [row], true)
  }

  function Patch(orders: map<OrderId, OrderRow>, oid: OrderId, status: string): map<OrderId, OrderRow> {
    if oid in orders then orders[oid := orders[oid].(status := status)] else orders
  }

  function RowOf(e: Event, isSnapshot: bool): FillRow
    requires e.price.Some? && e.qty.Some?
  {
    FillRow(e.oid, e.price.value, e.qty.value, isSnapshot, e.acct, e.sym, e.side, e.at)
  }

  function PositionQty(positions: map<Place, PositionRow>, p: Place): real {
    if p in positions then positions[p].qty else 0.0
  }

  function AvgAfter(row: PositionRow, price: real, qty: real, side: Side): Option<real>
    requires qty > 0.0
  {
    if side == Buy then
      if row.qty <= 0.0 then Some(price)
      else
        var ca := if row.avgCost.Some? then row.avgCost.value else price;
        Some(Vwap(ca, row.qty, price, qty))
    else if row.avgCost.None? && row.qty - qty != 0.0 then Some(price)
    else row.avgCost
  }

  /** `_apply_realtime_db_fill`: a closed position loses its row. */
  function ApplyDbFill(positions: map<Place, PositionRow>, p: Place, price: real, qty: real, side: Side): map<Place, PositionRow> {
    if qty <= 0.0 then positions
    else
      var row := if p in positions then positions[p] else PositionRow(0.0, None);
      var newQty := row.qty + Signed(side, qty);
      if newQty == 0.0 then positions - {p}
      else positions[p := PositionRow(newQty, AvgAfter(row, price, qty, side))]
  }

  /** The execution logger: the fills table and its two writers. */
  class ExecutionLogger {
    var fills: seq<FillRow>

    constructor (rows: seq<FillRow>)
      ensures fills == rows
    {
      fills := rows;
    }

    method Log(row: FillRow) returns (inserted: bool)
      modifies this
      ensures (fills, inserted) == LogFill(old(fills), row)
    {
      var i := 0;
      while i < |fills|
        invariant 0 <= i <= |fills|
        invariant forall k :: 0 <= k < i ==> fills[k].oid != row.oid
      {
        if fills[i].oid == row.oid { return false; }
        i := i + 1;
      }
      fills := fills + [row];
      return true;
    }
  }

  /** The order tracker's own counters and the positions rows it writes. */
  class OrderTracker {
    var cumFilled: map<(Account, OrderId), real>
    var positions: map<Place, PositionRow>

    constructor (rows: map<Place, PositionRow>)
      ensures cumFilled == map[] && positions == rows
    {
      cumFilled := map[];
      positions := rows;
    }

    /** `_tracker_cumulative_update`. */
    method CumulativeUpdate(acct: Account, oid: OrderId, leg: real) returns (total: real)
      modifies this`cumFilled
      ensures (cumFilled, total) == CountUp(old(cumFilled), acct, oid, leg)
    {
      if acct == "" || oid == "" { return leg; }
      var prev := if (acct, oid) in cumFilled then cumFilled[(acct, oid)] else 0.0;
      total := prev + leg;
      cumFilled := cumFilled[(acct, oid) := total];
    }

    method ApplyRealtimeDbFill(p: Place, price: real, qty: real, side: Option<Side>)
      modifies this`positions
      ensures positions == if side.None? then old(positions) else ApplyDbFill(old(positions), p, price, qty, side.value)
    {
      if qty <= 0.0 || side.None? { return; }
      var isBuy := side.value == Buy;
      var currentQty := if p in positions then positions[p].qty else 0.0;
      var currentAvg := if p in positions then positions[p].avgCost else None;
      var newQty, newAvg;
      if isBuy {
        newQty := currentQty + qty;
        if currentQty <= 0.0 {
          newAvg := Some(price);
        } else {
          var ca := if currentAvg.Some? then currentAvg.value else price;
          newAvg := if newQty != 0.0 then Some(Vwap(ca, currentQty, price, qty)) else Some(price);
        }
      } else {
        newQty := currentQty - qty;
        newAvg := currentAvg;
        if newAvg.None? && newQty != 0.0 {
          newAvg := Some(price);
        }
      }
      if newQty == 0.0 {
        positions := positions - {p};
        return;
      }
      positions := positions[p := PositionRow(newQty, newAvg)];
    }
  }

  function CountUp(cum: map<(Account, OrderId), real>, acct: Account, oid: OrderId, leg: real): (map<(Account, OrderId), real>, real) {
    if acct == "" || oid == "" then (cum, leg)
    else
      var total := (if (acct, oid) in cum then cum[(acct, oid)] else 0.0) + leg;
      (cum[(acct, oid) := total], total)
  }

  /** The symbol, less leading `@`, starts with one of the four futures roots. */
  predicate IsFutures(sym: Symbol) {
    if sym != "" && sym[0] == '@' then IsFutures(sym[1..])
    else "MNQ" <= sym || "MES" <= sym || "NQ" <= sym || "ES" <= sym
  }

  // ----- The steps -----

  /** What does not change while the tracker runs. */
  datatype Config = Config(accounts: map<Account, Uuid>, today: int)

  datatype Step =
    | Deliver(t: nat, e: Event)
    | Advance(t: nat)
    | PostDone(t: nat, accepted: bool, children: set<OrderId>)
    | Fail(t: nat)
    | DbError(t: nat)
    | PlaceOrder(oid: OrderId, row: OrderRow)
    | Restart

  function StrategyOf(s: State, oid: OrderId): Strategy {
    if oid in s.orders then s.orders[oid].strategy else ""
  }

  function Goto(s: State, t: nat, pc: Pc): State
    requires t < |s.tasks|
  {
    s.(tasks := s.tasks[t := pc])
  }

  /** A stream event is taken up by an idle task. */
  function Take(s: State, t: nat, e: Event): State
    requires t < |s.tasks|
  {
    if e.oid == "" then s
    else if e.snapshot then
      if e.isFill then
        if !e.ours || e.price.None? || e.qty.None? then s else Goto(s, t, SnapCheck(e))
      else if e.isReject then s.(orders := Patch(s.orders, e.oid, "rejected"))
      else s.(orders := Patch(s.orders, e.oid, e.status))
    else if e.isReject then s.(orders := Patch(s.orders, e.oid, "rejected"))
    else if e.isFill then if !e.ours then s else Goto(s, t, LiveCheck(e))
    else s.(orders := Patch(s.orders, e.oid, e.status))
  }

  function StoreFill(s: State, t: nat, row: FillRow, status: string, next: Pc): State
    requires t < |s.tasks|
  {
    var (fills, inserted) := LogFill(s.fills, row);
    if inserted then Goto(s.(fills := fills, orders := Patch(s.orders, row.oid, status)), t, next)
    else Goto(s, t, Idle)
  }

  function TrackerFor(tracker: map<(Account, Strategy), KeyState>, k: (Account, Strategy), today: int): KeyState {
    if k in tracker then tracker[k] else NewKey(today)
  }

  /** The tracker's share of `_update_position`. */
  ghost function Track(cfg: Config, s: State, e: Event, total: real): map<(Account, Strategy), KeyState>
    requires e.side.Some?
  {
    var strategy := StrategyOf(s, e.oid);
    if strategy == "" then s.tracker
    else
      var k := (e.acct, strategy);
      s.tracker[k := ApplyFill(TrackerFor(s.tracker, k, cfg.today), e.oid, e.sym, e.side.value, Some(total), e.price, cfg.today)]
  }

  /** Where a task goes from an await after which it only reads. */
  function ReadOn(cfg: Config, s: State, pc: Pc): Pc {
    match pc
    case SnapCheck(e) => if HasFill(s.fills, e.oid) then Idle else SnapRecord(e)
    case LiveCheck(e) => if HasFill(s.fills, e.oid) then Idle else Sibling(e)
    case Sibling(e) => if e.price.None? || e.qty.None? then Idle else Record(e)
    case Resolve(e, total) =>
      if e.acct == "" || e.sym == "" || e.side.None? || e.acct !in cfg.accounts then Own(e)
      else Settle(e, total, cfg.accounts[e.acct])
    case Own(e) => if e.oid in s.orders then Guard(e) else Idle
    case Guard(e) =>
      if e.oid in s.legs || StrategyOf(s, e.oid) != "strategy_006" || e.status != "filled" || e.acct == "" || !IsFutures(e.sym)
      then Idle else Bearer(e)
    case _ => pc
  }

  /** The row is inserted if absent; a live fill that was inserted goes on. */
  function RecordStep(s: State, t: nat, e: Event, isSnapshot: bool): State
    requires t < |s.tasks|
  {
    if e.price.None? || e.qty.None? then Goto(s, t, Idle)
    else StoreFill(s, t, RowOf(e, isSnapshot), e.status, if isSnapshot then Idle else Count(e))
  }

  function CountStep(s: State, t: nat, e: Event): State
    requires t < |s.tasks|
  {
    if e.qty.None? then Goto(s, t, Idle)
    else
      var (cum, total) := CountUp(s.cum, e.acct, e.oid, e.qty.value);
      Goto(s.(cum := cum), t, Resolve(e, total))
  }

  /** The tracker, then the positions table. */
  ghost function SettleStep(cfg: Config, s: State, t: nat, e: Event, total: real, uuid: Uuid): State
    requires t < |s.tasks|
  {
    if e.price.None? || e.qty.None? || e.side.None? then Goto(s, t, Idle)
    else
      var positions := ApplyDbFill(s.positions, (uuid, e.sym), e.price.value, e.qty.value, e.side.value);
      var changed := if e.qty.value > 0.0 then s.changed + [e.oid] else s.changed;
      var unowned := if StrategyOf(s, e.oid) == "" then s.unowned + [RowOf(e, false)] else s.unowned;
      Goto(s.(tracker := Track(cfg, s, e, total), positions := positions, changed := changed, unowned := unowned), t, Own(e))
  }

  /** The request for a bracket goes out; what becomes of it is only known later, if at all. */
  function SendStep(s: State, t: nat, e: Event): State
    requires t < |s.tasks|
  {
    Goto(s.(brackets := s.brackets + [e.oid]), t, Post(e))
  }

  /** The awaits of a fill, one step each. */
  ghost function Move(cfg: Config, s: State, t: nat): State
    requires t < |s.tasks|
  {
    match s.tasks[t]
    case SnapRecord(e) => RecordStep(s, t, e, true)
    case Record(e) => RecordStep(s, t, e, false)
    case Count(e) => CountStep(s, t, e)
    case Settle(e, total, uuid) => SettleStep(cfg, s, t, e, total, uuid)
    case Bearer(e) => SendStep(s, t, e)
    case _ => Goto(s, t, ReadOn(cfg, s, s.tasks[t]))
  }

  /** The row a task has recorded but not yet carried into the positions table. */
  function InFlight(pc: Pc): Option<FillRow> {
    match pc
    case Count(e) => Carried(e)
    case Resolve(e, _) => Carried(e)
    case Settle(e, _, _) => Carried(e)
    case _ => None
  }

  function Carried(e: Event): Option<FillRow> {
    if e.price.Some? && e.qty.Some? then Some(RowOf(e, false)) else None
  }

  function Dropped(lost: seq<FillRow>, pc: Pc): seq<FillRow> {
    if InFlight(pc).Some? then lost + [InFlight(pc).value] else lost
  }

  function DropAll(lost: seq<FillRow>, tasks: seq<Pc>): seq<FillRow> {
    if tasks == [] then lost else Dropped(DropAll(lost, tasks[..|tasks| - 1]), tasks[|tasks| - 1])
  }

  /** An exception or a cancellation: the stream reconnects and the fill in hand is forgotten. */
  function DropStep(s: State, t: nat): State
    requires t < |s.tasks|
  {
    Goto(s.(lost := Dropped(s.lost, s.tasks[t])), t, Idle)
  }

  /** The positions write can fail once the tracker has already moved. */
  predicate CanFailWrite(s: State, t: nat) {
    t < |s.tasks| && s.tasks[t].Settle? && s.tasks[t].e.side.Some? && InFlight(s.tasks[t]).Some?
  }

  ghost function DbErrorStep(cfg: Config, s: State, t: nat): State
    requires CanFailWrite(s, t)
  {
    var e := s.tasks[t].e;
    var row := InFlight(s.tasks[t]).value;
    var trackerOnly := if StrategyOf(s, e.oid) == "" then s.trackerOnly else s.trackerOnly + [row];
    Goto(s.(tracker := Track(cfg, s, e, s.tasks[t].total), lost := s.lost + [row], trackerOnly := trackerOnly), t, Idle)
  }

  function AnswerStep(s: State, t: nat, accepted: bool, children: set<OrderId>): State
    requires t < |s.tasks|
  {
    Goto(s.(legs := if accepted then s.legs + children else s.legs), t, Idle)
  }

  function RestartStep(s: State): State {
    s.(cum := map[], tracker := map[], legs := {}, lost := DropAll(s.lost, s.tasks), tasks := seq(|s.tasks|, _ => Idle))
  }

  ghost function Next(cfg: Config, s: State, step: Step): State {
    match step
    case Deliver(t, e) => if t < |s.tasks| && s.tasks[t].Idle? then Take(s, t, e) else s
    case Advance(t) => if t < |s.tasks| then Move(cfg, s, t) else s
    case PostDone(t, accepted, children) =>
      if t < |s.tasks| && s.tasks[t].Post? then AnswerStep(s, t, accepted, children) else s
    case Fail(t) => if t < |s.tasks| then DropStep(s, t) else s
    case DbError(t) => if CanFailWrite(s, t) then DbErrorStep(cfg, s, t) else s
    case PlaceOrder(oid, row) => if oid in s.orders then s else s.(orders := s.orders[oid := row])
    case Restart => RestartStep(s)
  }

  ghost function Run(cfg: Config, s: State, steps: seq<Step>): State {
    if steps == [] then s else Next(cfg, Run(cfg, s, steps[..|steps| - 1]), steps[|steps| - 1])
  }

  /** A process that comes up on whatever tables the database holds. */
  ghost predicate Fresh(s: State) {
    && (forall i, j :: 0 <= i < j < |s.fills| ==> s.fills[i].oid != s.fills[j].oid)
    && (forall p :: p in s.positions ==> s.positions[p].qty != 0.0)
    && s.cum == map[] && s.tracker == map[] && s.legs == {}
    && (forall t :: 0 <= t < |s.tasks| ==> s.tasks[t] == Idle)
    && s.changed == [] && s.brackets == [] && s.lost == [] && s.unowned == [] && s.trackerOnly == []
  }
}
