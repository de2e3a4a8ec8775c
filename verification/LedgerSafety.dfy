/**
 What every interleaving of the ledger's steps keeps: no order reaches the
 positions table or a bracket twice, nothing is counted that is not a fill
 row, and every fill row is in the positions table, in flight, or was dropped
 by an error that this module accounts for.
 */
module LedgerSafety {
  import opened Sums
  import opened Tracker
  import opened Ledger

  // ----- The invariant -----

  /** Tasks that have inserted a fill row and are still working on it. */
  predicate PastRecord(pc: Pc) {
    pc.Count? || pc.Resolve? || pc.Settle? || pc.Own? || pc.Guard? || pc.Bearer? || pc.Post?
  }

  predicate BeforeLedger(pc: Pc) {
    pc.Count? || pc.Resolve? || pc.Settle?
  }

  ghost predicate Shaped(cfg: Config, pc: Pc) {
    && (pc.Record? || PastRecord(pc) ==> pc.e.price.Some? && pc.e.qty.Some?)
    && (pc.Resolve? || pc.Settle? ==> pc.total == pc.e.qty.value)
    && (pc.Settle? ==> pc.e.acct != "" && pc.e.sym != "" && pc.e.side.Some?
                       && pc.e.acct in cfg.accounts && pc.uuid == cfg.accounts[pc.e.acct])
  }

  ghost predicate Rows(s: State) {
    && (forall i, j :: 0 <= i < j < |s.fills| ==> s.fills[i].oid != s.fills[j].oid)
    && (forall p :: p in s.positions ==> s.positions[p].qty != 0.0)
  }

  /** Each recorded fill in hand is in the table, and belongs to one task. */
  ghost predicate Claims(s: State) {
    && (forall t :: 0 <= t < |s.tasks| && PastRecord(s.tasks[t]) ==> HasFill(s.fills, s.tasks[t].e.oid))
    && (forall t, u :: 0 <= t < |s.tasks| && 0 <= u < |s.tasks| && t != u && PastRecord(s.tasks[t]) && PastRecord(s.tasks[u])
          ==> s.tasks[t].e.oid != s.tasks[u].e.oid)
  }

  ghost predicate Posted(s: State) {
    && NoDup(s.changed)
    && (forall i :: 0 <= i < |s.changed| ==> HasFill(s.fills, s.changed[i]))
    && (forall t :: 0 <= t < |s.tasks| && BeforeLedger(s.tasks[t]) ==> s.tasks[t].e.oid !in s.changed)
  }

  ghost predicate Losses(s: State) {
    && (forall i :: 0 <= i < |s.lost| ==> HasFill(s.fills, s.lost[i].oid) && s.lost[i].oid !in s.changed)
    && (forall i, t :: 0 <= i < |s.lost| && 0 <= t < |s.tasks| && BeforeLedger(s.tasks[t]) ==> s.lost[i].oid != s.tasks[t].e.oid)
  }

  ghost predicate Bracketed(s: State) {
    && NoDup(s.brackets)
    && (forall i :: 0 <= i < |s.brackets| ==> HasFill(s.fills, s.brackets[i]))
    && (forall t :: 0 <= t < |s.tasks| && PastRecord(s.tasks[t]) && !s.tasks[t].Post? ==> s.tasks[t].e.oid !in s.brackets)
  }

  ghost predicate Counters(s: State) {
    && (forall k :: k in s.cum ==> HasFill(s.fills, k.1))
    && (forall t, k :: 0 <= t < |s.tasks| && s.tasks[t].Count? && k in s.cum ==> k.1 != s.tasks[t].e.oid)
  }

  ghost predicate Tracked(s: State) {
    && (forall k, o :: k in s.tracker && o in s.tracker[k].orderFilled ==> HasFill(s.fills, o))
    && (forall t, k :: 0 <= t < |s.tasks| && BeforeLedger(s.tasks[t]) && k in s.tracker
          ==> s.tasks[t].e.oid !in s.tracker[k].orderFilled)
  }

  ghost predicate Shapes(cfg: Config, s: State) {
    forall t :: 0 <= t < |s.tasks| ==> Shaped(cfg, s.tasks[t])
  }

  ghost predicate Inv(cfg: Config, s: State) {
    Rows(s) && Claims(s) && Posted(s) && Losses(s) && Bracketed(s) && Counters(s) && Tracked(s) && Shapes(cfg, s)
  }

  // ----- Every step keeps it -----

  lemma Grown(fills: seq<FillRow>, row: FillRow)
    ensures forall o :: HasFill(fills + [row], o) <==> HasFill(fills, o) || o == row.oid
  {
    forall o ensures HasFill(fills + [row], o) <==> HasFill(fills, o) || o == row.oid {
      if HasFill(fills, o) {
        var i :| 0 <= i < |fills| && fills[i].oid == o;
        assert (fills + [row])[i].oid == o;
      }
      assert (fills + [row])[|fills|] == row;
    }
  }

  lemma SameRows(s: State, s': State)
    requires Rows(s) && s'.fills == s.fills && s'.positions == s.positions
    ensures Rows(s')
  {
  }

  /** A task goes on without touching any table but the orders'. */
  ghost predicate Quiet(s: State, s': State, t: nat, pc: Pc) {
    && t < |s.tasks| && s' == s.(tasks := s.tasks[t := pc], orders := s'.orders)
    && (PastRecord(pc) ==> PastRecord(s.tasks[t]) && pc.e == s.tasks[t].e)
    && (BeforeLedger(pc) ==> BeforeLedger(s.tasks[t]))
    && (s.tasks[t].Post? ==> !PastRecord(pc) || pc.Post?)
    && (pc.Count? ==> s.tasks[t].Count?)
  }

  lemma QuietKeeps(cfg: Config, s: State, s': State, t: nat, pc: Pc)
    requires Inv(cfg, s) && Quiet(s, s', t, pc) && Shaped(cfg, pc)
    ensures Inv(cfg, s')
  {
    hide HasFill, Shaped;
  }

  lemma InsertRows(s: State, s': State, row: FillRow)
    requires Rows(s) && !HasFill(s.fills, row.oid) && s'.fills == s.fills + [row] && s'.positions == s.positions
    ensures Rows(s')
  {
    assert forall i :: 0 <= i < |s.fills| ==> s.fills[i].oid != row.oid;
  }

  /** A new row changes no other table, and nobody has its order id in hand yet. */
  lemma TableGrows(cfg: Config, s: State, row: FillRow)
    requires Inv(cfg, s) && !HasFill(s.fills, row.oid)
    ensures Inv(cfg, s.(fills := s.fills + [row]))
  {
    Grown(s.fills, row);
    InsertRows(s, s.(fills := s.fills + [row]), row);
    hide HasFill, Shapes, Rows, BeforeLedger, NoDup;
  }

  /** Nothing anywhere has met the order id yet. */
  ghost predicate Unmet(s: State, oid: OrderId) {
    && (forall u :: 0 <= u < |s.tasks| && PastRecord(s.tasks[u]) ==> s.tasks[u].e.oid != oid)
    && oid !in s.changed && oid !in s.brackets
    && (forall i :: 0 <= i < |s.lost| ==> s.lost[i].oid != oid)
    && (forall k :: k in s.cum ==> k.1 != oid)
    && (forall k :: k in s.tracker ==> oid !in s.tracker[k].orderFilled)
  }

  lemma NewIsUnmet(cfg: Config, s: State, oid: OrderId)
    requires Inv(cfg, s) && !HasFill(s.fills, oid)
    ensures Unmet(s, oid)
  {
    hide HasFill, Shapes, Rows, BeforeLedger, NoDup, PastRecord;
  }

  /** A task takes hold of an order id that nothing has met. */
  lemma HoldKeeps(cfg: Config, s: State, t: nat, e: Event)
    requires Inv(cfg, s) && t < |s.tasks| && Unmet(s, e.oid) && HasFill(s.fills, e.oid) && Shaped(cfg, Count(e))
    ensures Inv(cfg, Goto(s, t, Count(e)))
  {
    hide HasFill, Rows, Shaped, NoDup;
    SameRows(s, Goto(s, t, Count(e)));
  }

  lemma InsertKeeps(cfg: Config, s: State, t: nat, row: FillRow, pc: Pc)
    requires Inv(cfg, s) && t < |s.tasks| && !HasFill(s.fills, row.oid)
    requires pc.Idle? || (pc.Count? && pc.e.oid == row.oid)
    requires Shaped(cfg, pc)
    ensures Inv(cfg, Goto(s.(fills := s.fills + [row]), t, pc))
  {
    var s1 := s.(fills := s.fills + [row]);
    TableGrows(cfg, s, row);
    NewIsUnmet(cfg, s, row.oid);
    Grown(s.fills, row);
    hide HasFill, Shaped, Inv;
    if pc.Idle? {
      hide Unmet;
      QuietKeeps(cfg, s1, Goto(s1, t, Idle), t, Idle);
    } else {
      HoldKeeps(cfg, s1, t, pc.e);
    }
  }

  /** No task on its way to the positions table holds the order id. */
  ghost predicate NotAhead(s: State, oid: OrderId) {
    forall u :: 0 <= u < |s.tasks| && BeforeLedger(s.tasks[u]) ==> s.tasks[u].e.oid != oid
  }

  /** What is known of an order id its holder has not settled yet, and of every other task. */
  lemma Holder(cfg: Config, s: State, t: nat, pc: Pc)
    requires Inv(cfg, s) && t < |s.tasks| && BeforeLedger(s.tasks[t]) && !BeforeLedger(pc)
    requires PastRecord(pc) ==> pc.e == s.tasks[t].e && !pc.Post?
    requires Shaped(cfg, pc)
    ensures var oid := s.tasks[t].e.oid;
            && Inv(cfg, Goto(s, t, pc)) && NotAhead(Goto(s, t, pc), oid) && HasFill(s.fills, oid)
            && oid !in s.changed && forall i :: 0 <= i < |s.lost| ==> s.lost[i].oid != oid
  {
    hide HasFill, Shaped, Rows, NoDup;
    QuietKeeps(cfg, s, Goto(s, t, pc), t, pc);
  }

  lemma CounterKeeps(cfg: Config, s: State, s': State, oid: OrderId)
    requires Inv(cfg, s) && s' == s.(cum := s'.cum) && HasFill(s.fills, oid)
    requires forall u :: 0 <= u < |s.tasks| && s.tasks[u].Count? ==> s.tasks[u].e.oid != oid
    requires forall k :: k in s'.cum ==> k.1 == oid || k in s.cum
    ensures Inv(cfg, s')
  {
    hide HasFill, Shaped, Rows, NoDup, BeforeLedger, PastRecord;
    SameRows(s, s');
  }

  lemma CountKeeps(cfg: Config, s: State, t: nat)
    requires Inv(cfg, s) && t < |s.tasks| && s.tasks[t].Count?
    ensures Inv(cfg, CountStep(s, t, s.tasks[t].e))
  {
    hide HasFill, Rows, NoDup;
    var e := s.tasks[t].e;
    var total := CountUp(s.cum, e.acct, e.oid, e.qty.value).1;
    assert (e.acct, e.oid) !in s.cum by {
      var k := (e.acct, e.oid);
      assert k.1 == e.oid;
    }
    assert total == e.qty.value;
    var s1 := Goto(s, t, Resolve(e, total));
    QuietKeeps(cfg, s, s1, t, Resolve(e, total));
    assert forall u :: 0 <= u < |s1.tasks| && s1.tasks[u].Count? ==> s1.tasks[u].e.oid != e.oid;
    hide Inv;
    CounterKeeps(cfg, s1, CountStep(s, t, e), e.oid);
  }

  lemma FilledKeys(cfg: Config, s: State, e: Event, total: real)
    requires e.side.Some?
    ensures forall k, o :: k in Track(cfg, s, e, total) && o in Track(cfg, s, e, total)[k].orderFilled
              ==> o == e.oid || (k in s.tracker && o in s.tracker[k].orderFilled)
  {
    hide NavOf, NewAvg;
  }

  lemma DbFillRows(positions: map<Place, PositionRow>, p: Place, price: real, qty: real, side: Side)
    requires forall q :: q in positions ==> positions[q].qty != 0.0
    ensures var after := ApplyDbFill(positions, p, price, qty, side); forall q :: q in after ==> after[q].qty != 0.0
  {
    hide AvgAfter;
  }

  lemma TrackerKeeps(cfg: Config, s: State, s': State, oid: OrderId)
    requires Inv(cfg, s) && s' == s.(tracker := s'.tracker) && HasFill(s.fills, oid) && NotAhead(s, oid)
    requires forall k, o :: k in s'.tracker && o in s'.tracker[k].orderFilled
               ==> o == oid || (k in s.tracker && o in s.tracker[k].orderFilled)
    ensures Inv(cfg, s')
  {
    hide HasFill, Shaped, Rows, NoDup, BeforeLedger, PastRecord;
    SameRows(s, s');
  }

  lemma PositionsKeep(cfg: Config, s: State, s': State, oid: OrderId)
    requires Inv(cfg, s) && HasFill(s.fills, oid) && NotAhead(s, oid)
    requires oid !in s.changed && forall i :: 0 <= i < |s.lost| ==> s.lost[i].oid != oid
    requires s' == s.(positions := s'.positions, changed := s'.changed) && (s'.changed == s.changed || s'.changed == s.changed + [oid])
    requires forall p :: p in s'.positions ==> s'.positions[p].qty != 0.0
    ensures Inv(cfg, s')
  {
    hide HasFill, Shaped, BeforeLedger, PastRecord;
  }

  lemma LostKeeps(cfg: Config, s: State, row: FillRow)
    requires Inv(cfg, s) && HasFill(s.fills, row.oid) && NotAhead(s, row.oid) && row.oid !in s.changed
    ensures Inv(cfg, s.(lost := s.lost + [row]))
  {
    hide HasFill, Shaped, Rows, NoDup, BeforeLedger, PastRecord;
    SameRows(s, s.(lost := s.lost + [row]));
  }

  lemma SettleKeeps(cfg: Config, s: State, t: nat)
    requires Inv(cfg, s) && t < |s.tasks| && s.tasks[t].Settle?
    ensures var pc := s.tasks[t]; Inv(cfg, SettleStep(cfg, s, t, pc.e, pc.total, pc.uuid))
  {
    assert Rows(s) && Shaped(cfg, s.tasks[t]);
    var pc := s.tasks[t];
    var e := pc.e;
    Holder(cfg, s, t, Own(e));
    FilledKeys(cfg, s, e, pc.total);
    DbFillRows(s.positions, (pc.uuid, e.sym), e.price.value, e.qty.value, e.side.value);
    hide Inv, Track, HasFill, ApplyDbFill, NotAhead;
    var s' := SettleStep(cfg, s, t, e, pc.total, pc.uuid);
    var s1 := Goto(s, t, Own(e));
    var s2 := s1.(tracker := s'.tracker);
    var s3 := s2.(positions := s'.positions, changed := s'.changed);
    TrackerKeeps(cfg, s1, s2, e.oid);
    SameAhead(s1, s2, e.oid);
    PositionsKeep(cfg, s2, s3, e.oid);
    HistoriesIrrelevant(cfg, s3, s');
  }

  lemma SameAhead(s: State, s': State, oid: OrderId)
    requires NotAhead(s, oid) && s'.tasks == s.tasks
    ensures NotAhead(s', oid)
  {
  }

  /** The request for a bracket goes out. */
  lemma SendKeeps(cfg: Config, s: State, t: nat)
    requires Inv(cfg, s) && t < |s.tasks| && s.tasks[t].Bearer?
    ensures Inv(cfg, SendStep(s, t, s.tasks[t].e))
  {
    hide HasFill, Rows;
    var s1 := Goto(s, t, Post(s.tasks[t].e));
    assert Shaped(cfg, s.tasks[t]);
    QuietKeeps(cfg, s, s1, t, Post(s.tasks[t].e));
    SameRows(s1, SendStep(s, t, s.tasks[t].e));
  }

  lemma DropKeeps(cfg: Config, s: State, t: nat)
    requires Inv(cfg, s) && t < |s.tasks|
    ensures Inv(cfg, DropStep(s, t))
  {
    var pc := s.tasks[t];
    if InFlight(pc).Some? {
      Holder(cfg, s, t, Idle);
      hide Inv, HasFill, NotAhead;
      LostKeeps(cfg, Goto(s, t, Idle), InFlight(pc).value);
    } else {
      hide Inv;
      QuietKeeps(cfg, s, Goto(s, t, Idle), t, Idle);
    }
  }

  lemma DbErrorKeeps(cfg: Config, s: State, t: nat)
    requires Inv(cfg, s) && CanFailWrite(s, t)
    ensures Inv(cfg, DbErrorStep(cfg, s, t))
  {
    var e := s.tasks[t].e;
    Holder(cfg, s, t, Idle);
    FilledKeys(cfg, s, e, s.tasks[t].total);
    hide Inv, Track, HasFill, NotAhead;
    var s' := DbErrorStep(cfg, s, t);
    var s1 := Goto(s, t, Idle);
    var s2 := s1.(tracker := s'.tracker);
    TrackerKeeps(cfg, s1, s2, e.oid);
    SameAhead(s1, s2, e.oid);
    LostKeeps(cfg, s2, RowOf(e, false));
    HistoriesIrrelevant(cfg, s2.(lost := s2.lost + [RowOf(e, false)]), s');
  }

  lemma {:induction false} DropAllMembers(lost: seq<FillRow>, tasks: seq<Pc>)
    ensures forall r :: r in DropAll(lost, tasks)
              ==> r in lost || exists t :: 0 <= t < |tasks| && BeforeLedger(tasks[t]) && r.oid == tasks[t].e.oid
    decreases |tasks|
  {
    if tasks != [] {
      var l := |tasks| - 1;
      DropAllMembers(lost, tasks[..l]);
      forall r | r in DropAll(lost, tasks) && r !in lost
        ensures exists t :: 0 <= t < |tasks| && BeforeLedger(tasks[t]) && r.oid == tasks[t].e.oid
      {
        if r in DropAll(lost, tasks[..l]) {
          var t :| 0 <= t < l && BeforeLedger(tasks[..l][t]) && r.oid == tasks[..l][t].e.oid;
          assert tasks[t] == tasks[..l][t];
        } else {
          assert BeforeLedger(tasks[l]) && r.oid == tasks[l].e.oid;
        }
      }
    }
  }

  lemma RestartKeeps(cfg: Config, s: State)
    requires Inv(cfg, s)
    ensures Inv(cfg, RestartStep(s))
  {
    DropAllMembers(s.lost, s.tasks);
    hide HasFill, Rows, DropAll, NoDup;
    var s' := RestartStep(s);
    SameRows(s, s');
    forall i | 0 <= i < |s'.lost| ensures HasFill(s'.fills, s'.lost[i].oid) && s'.lost[i].oid !in s'.changed {
      assert s'.lost[i] in DropAll(s.lost, s.tasks);
    }
  }

  predicate Writes(pc: Pc) {
    pc.SnapRecord? || pc.Record? || pc.Count? || pc.Settle? || pc.Bearer?
  }

  lemma ReadOnShape(cfg: Config, s: State, pc: Pc)
    requires Shaped(cfg, pc) && !Writes(pc)
    ensures var next := ReadOn(cfg, s, pc);
            && Shaped(cfg, next)
            && (PastRecord(next) ==> PastRecord(pc) && next.e == pc.e)
            && (BeforeLedger(next) ==> BeforeLedger(pc)) && (next.Count? ==> pc.Count?) && (pc.Post? ==> next == pc)
  {
    hide HasFill, IsFutures;
  }

  lemma RecordKeeps(cfg: Config, s: State, t: nat, isSnapshot: bool)
    requires Inv(cfg, s) && t < |s.tasks|
    requires if isSnapshot then s.tasks[t].SnapRecord? else s.tasks[t].Record?
    ensures Inv(cfg, RecordStep(s, t, s.tasks[t].e, isSnapshot))
  {
    assert Shaped(cfg, s.tasks[t]);
    hide Inv, HasFill, Patch;
    var e := s.tasks[t].e;
    if e.price.None? || e.qty.None? || HasFill(s.fills, e.oid) {
      QuietKeeps(cfg, s, Goto(s, t, Idle), t, Idle);
    } else {
      hide Shaped, RowOf;
      var row, pc := RowOf(e, isSnapshot), if isSnapshot then Idle else Count(e);
      InsertKeeps(cfg, s, t, row, pc);
      HistoriesIrrelevant(cfg, Goto(s.(fills := s.fills + [row]), t, pc), RecordStep(s, t, e, isSnapshot));
    }
  }

  lemma AdvanceKeeps(cfg: Config, s: State, t: nat)
    requires Inv(cfg, s) && t < |s.tasks|
    ensures Inv(cfg, Move(cfg, s, t))
  {
    hide Inv, RecordStep, CountStep, SettleStep, SendStep, ReadOn, Goto;
    match s.tasks[t]
    case Count(_) => CountKeeps(cfg, s, t);
    case Settle(_, _, _) => SettleKeeps(cfg, s, t);
    case Bearer(_) => SendKeeps(cfg, s, t);
    case Record(_) => RecordKeeps(cfg, s, t, false);
    case SnapRecord(_) => RecordKeeps(cfg, s, t, true);
    case _ => ReadKeeps(cfg, s, t);
  }

  lemma ReadKeeps(cfg: Config, s: State, t: nat)
    requires Inv(cfg, s) && t < |s.tasks| && !Writes(s.tasks[t])
    ensures Inv(cfg, Goto(s, t, ReadOn(cfg, s, s.tasks[t])))
  {
    var pc := s.tasks[t];
    assert Shaped(cfg, pc);
    hide Inv, Shaped, ReadOn, Writes;
    ReadOnShape(cfg, s, pc);
    QuietKeeps(cfg, s, Goto(s, t, ReadOn(cfg, s, pc)), t, ReadOn(cfg, s, pc));
  }

  lemma TakeKeeps(cfg: Config, s: State, t: nat, e: Event)
    requires Inv(cfg, s) && t < |s.tasks| && s.tasks[t].Idle?
    ensures Inv(cfg, Take(s, t, e))
  {
    var s' := Take(s, t, e);
    assert s.tasks[t := Idle] == s.tasks;
    hide Inv, Patch;
    QuietKeeps(cfg, s, s', t, s'.tasks[t]);
  }

  lemma AnswerKeeps(cfg: Config, s: State, t: nat, accepted: bool, children: set<OrderId>)
    requires Inv(cfg, s) && t < |s.tasks|
    ensures Inv(cfg, AnswerStep(s, t, accepted, children))
  {
    hide Inv;
    QuietKeeps(cfg, s, Goto(s, t, Idle), t, Idle);
    HistoriesIrrelevant(cfg, Goto(s, t, Idle), AnswerStep(s, t, accepted, children));
  }

  lemma StepKeeps(cfg: Config, s: State, step: Step)
    requires Inv(cfg, s)
    ensures Inv(cfg, Next(cfg, s, step))
  {
    hide Inv, Move, Take, DropStep, DbErrorStep, AnswerStep, RestartStep, CanFailWrite;
    match step
    case Deliver(t, e) => if t < |s.tasks| && s.tasks[t].Idle? { TakeKeeps(cfg, s, t, e); }
    case Advance(t) => if t < |s.tasks| { AdvanceKeeps(cfg, s, t); }
    case PostDone(t, accepted, children) => if t < |s.tasks| { AnswerKeeps(cfg, s, t, accepted, children); }
    case Fail(t) => if t < |s.tasks| { DropKeeps(cfg, s, t); }
    case DbError(t) => if CanFailWrite(s, t) { DbErrorKeeps(cfg, s, t); }
    case PlaceOrder(_, _) => HistoriesIrrelevant(cfg, s, Next(cfg, s, step));
    case Restart => RestartKeeps(cfg, s);
  }

  /** The orders table, the bracket legs and two of the histories are not part of the invariant. */
  lemma HistoriesIrrelevant(cfg: Config, s: State, s': State)
    requires Inv(cfg, s)
    requires s' == s.(orders := s'.orders, legs := s'.legs, unowned := s'.unowned, trackerOnly := s'.trackerOnly)
    ensures Inv(cfg, s')
  {
    hide HasFill, Shaped, NoDup, PastRecord, BeforeLedger;
  }

  lemma FreshInv(cfg: Config, s: State)
    requires Fresh(s)
    ensures Inv(cfg, s)
  {
    hide HasFill;
  }

  lemma {:induction false} RunKeeps(cfg: Config, s: State, steps: seq<Step>)
    requires Inv(cfg, s)
    ensures Inv(cfg, Ledger.Run(cfg, s, steps))
    decreases |steps|
  {
    hide Inv, Next;
    if steps != [] {
      RunKeeps(cfg, s, steps[..|steps| - 1]);
      StepKeeps(cfg, Ledger.Run(cfg, s, steps[..|steps| - 1]), steps[|steps| - 1]);
    }
  }
}
