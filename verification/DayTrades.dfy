/**
 Day-trade counting over the last five weekdays, and the safety it gives a
 caller that asks before each trade.  Dates are day numbers; day 0 is a Monday.
 */
module DayTrades {

  predicate IsWeekday(d: int) {
    d % 7 < 5
  }

  /** Weekdays in `(lo, hi]`. */
  function WeekdaysIn(lo: int, hi: int): (s: set<int>) {
    set d | lo < d <= hi && IsWeekday(d)
  }

  /** `_rolling_business_dates`: walk back from `endDay` until enough weekdays are found. */
  method RollingBusinessDates(endDay: int, periods: nat) returns (days: seq<int>)
    ensures |days| == periods
    ensures forall i, j :: 0 <= i < j < periods ==> days[i] > days[j]
    ensures exists d :: d <= endDay && (set k | k in days) == WeekdaysIn(d, endDay)
    ensures periods == 5 ==> (set k | k in days) == WeekdaysIn(endDay - 7, endDay)
  {
    hide Walked;
    days := [];
    var d := endDay;
    NotYet(endDay);
    while |days| < periods
      invariant d <= endDay && |days| <= periods
      invariant Walked(days, d, endDay)
      decreases periods - |days|, if IsWeekday(d) then 0 else d % 7
    {
      WalkOn(days, d, endDay);
      if IsWeekday(d) {
        days := days + [d];
      }
      d := d - 1;
    }
    WalkEnds(days, d, endDay);
    if periods == 5 {
      FiveInSeven(d, endDay);
    }
  }

  /** `days` holds the weekdays of `(d, endDay]`, latest first. */
  ghost predicate Walked(days: seq<int>, d: int, endDay: int) {
    && d <= endDay && |days| == WeekdayCount(d, endDay)
    && (forall k :: k in days <==> d < k <= endDay && IsWeekday(k))
    && (forall i, j :: 0 <= i < j < |days| ==> days[i] > days[j])
  }

  lemma NotYet(endDay: int)
    ensures Walked([], endDay, endDay)
  {
  }

  lemma WalkOn(days: seq<int>, d: int, endDay: int)
    requires Walked(days, d, endDay)
    ensures Walked(if IsWeekday(d) then days + [d] else days, d - 1, endDay)
  {
    assert forall i :: 0 <= i < |days| ==> days[i] in days;
    hide IsWeekday;
  }

  lemma WalkEnds(days: seq<int>, d: int, endDay: int)
    requires Walked(days, d, endDay)
    ensures (set k | k in days) == WeekdaysIn(d, endDay) && |days| == WeekdayCount(d, endDay)
    ensures forall i, j :: 0 <= i < j < |days| ==> days[i] > days[j]
  {
    hide IsWeekday;
  }

  /** How many weekdays there are in `(lo, hi]`. */
  function WeekdayCount(lo: int, hi: int): nat
    requires lo <= hi
    decreases hi - lo
  {
    if lo == hi then 0 else WeekdayCount(lo + 1, hi) + if IsWeekday(lo + 1) then 1 else 0
  }

  /** Five weekdays back from any day reach exactly the weekdays of the last seven days. */
  lemma FiveInSeven(d: int, endDay: int)
    requires d <= endDay && WeekdayCount(d, endDay) == 5
    ensures WeekdaysIn(d, endDay) == WeekdaysIn(endDay - 7, endDay)
  {
    SevenDays(endDay);
    if d < endDay - 7 {
      CountSplit(d, endDay - 7, endDay);
      NoneBetween(d, endDay - 7);
    } else {
      CountSplit(endDay - 7, d, endDay);
      NoneBetween(endDay - 7, d);
    }
  }

  lemma SevenDays(e: int)
    ensures WeekdayCount(e - 7, e) == 5
  {
    OneDay(e - 7, e);
    OneDay(e - 6, e);
    OneDay(e - 5, e);
    OneDay(e - 4, e);
    OneDay(e - 3, e);
    OneDay(e - 2, e);
    OneDay(e - 1, e);
    assert WeekdayCount(e, e) == 0;
    hide WeekdayCount, IsWeekday;
    FiveOfSeven(e);
  }

  function Mark(d: int): nat {
    if IsWeekday(d) then 1 else 0
  }

  lemma OneDay(lo: int, hi: int)
    requires lo < hi
    ensures WeekdayCount(lo, hi) == WeekdayCount(lo + 1, hi) + Mark(lo + 1)
  {
  }

  lemma FiveOfSeven(e: int)
    ensures Mark(e) + Mark(e - 1) + Mark(e - 2) + Mark(e - 3) + Mark(e - 4) + Mark(e - 5) + Mark(e - 6) == 5
  {
    hide IsWeekday;
    Back(e, e / 7, e % 7, 1);
    Back(e, e / 7, e % 7, 2);
    Back(e, e / 7, e % 7, 3);
    Back(e, e / 7, e % 7, 4);
    Back(e, e / 7, e % 7, 5);
    Back(e, e / 7, e % 7, 6);
    Back(e, e / 7, e % 7, 0);
  }

  lemma Back(e: int, w: int, r: int, k: nat)
    requires e == 7 * w + r && 0 <= r < 7 && k <= 6
    ensures IsWeekday(e - k) <==> (if k <= r then r - k else r - k + 7) < 5
  {
    if k <= r { Residue(w, r - k); } else { Residue(w - 1, r - k + 7); }
  }

  lemma Residue(w: int, r: int)
    requires 0 <= r < 7
    ensures (7 * w + r) % 7 == r
  {
  }

  lemma {:induction false} CountSplit(a: int, b: int, c: int)
    requires a <= b <= c
    ensures WeekdayCount(a, c) == WeekdayCount(a, b) + WeekdayCount(b, c)
    decreases b - a
  {
    if a < b { CountSplit(a + 1, b, c); }
  }

  lemma {:induction false} NoneBetween(a: int, b: int)
    requires a <= b && WeekdayCount(a, b) == 0
    ensures forall d :: a < d <= b ==> !IsWeekday(d)
    decreases b - a
  {
    if a < b { NoneBetween(a + 1, b); }
  }

  // ----- The log -----

  datatype Row = Row(tenant: string, mode: string, symbol: string, day: int)

  /** Rows of a tenant and mode whose day is in the window that ends at `endDay`. */
  function Count(log: seq<Row>, tenant: string, mode: string, endDay: int): nat {
    if log == [] then 0
    else
      var r := log[|log| - 1];
      Count(log[..|log| - 1], tenant, mode, endDay)
        + if r.tenant == tenant && r.mode == mode && endDay - 7 < r.day <= endDay && IsWeekday(r.day) then 1 else 0
  }

  /** The rows counted, by their places in the log. */
  ghost function Counted(log: seq<Row>, tenant: string, mode: string, endDay: int): set<int> {
    set i | 0 <= i < |log| && log[i].tenant == tenant && log[i].mode == mode
            && endDay - 7 < log[i].day <= endDay && log[i].day % 7 != 5 && log[i].day % 7 != 6
  }

  /** The count is of the tenant's rows in that mode dated on a weekday of the last seven days, each once. */
  lemma {:induction false} CountExactly(log: seq<Row>, tenant: string, mode: string, endDay: int)
    ensures Count(log, tenant, mode, endDay) == |Counted(log, tenant, mode, endDay)|
    decreases |log|
  {
    if log != [] {
      var l := |log| - 1;
      CountExactly(log[..l], tenant, mode, endDay);
      var before, after := Counted(log[..l], tenant, mode, endDay), Counted(log, tenant, mode, endDay);
      if l in after {
        assert after == before + {l};
      } else {
        assert after == before;
      }
    }
  }

  class IntradayPositionManager {
    const mode: string
    const pdtBelow25k: bool
    var log: seq<Row>

    constructor (mode: string, pdtBelow25k: bool, rows: seq<Row>)
      ensures this.mode == mode && this.pdtBelow25k == pdtBelow25k && log == rows
    {
      this.mode, this.pdtBelow25k := mode, pdtBelow25k;
      log := rows;
    }

    method RecordDayTrade(tenant: string, symbol: string, day: int)
      modifies this
      ensures log == old(log) + [Row(tenant, mode, symbol, day)]
    {
      log := log + [Row(tenant, mode, symbol, day)];
    }

    method DayTradeCount(tenant: string, today: int) returns (n: nat)
      ensures n == Count(log, tenant, mode, today)
    {
      var window := RollingBusinessDates(today, 5);
      assert forall d :: d in window <==> d in WeekdaysIn(today - 7, today) by {
        assert forall d :: d in window <==> d in (set k | k in window);
      }
      n := 0;
      for i := 0 to |log|
        invariant n == Count(log[..i], tenant, mode, today)
      {
        assert log[..i + 1][..i] == log[..i];
        if log[i].tenant == tenant && log[i].mode == mode && log[i].day in window {
          n := n + 1;
        }
      }
      assert log[..|log|] == log;
    }

    method CanDayTrade(tenant: string, today: int) returns (ok: bool)
      ensures ok <==> !pdtBelow25k || Count(log, tenant, mode, today) < 3
    {
      if !pdtBelow25k { return true; }
      var n := DayTradeCount(tenant, today);
      return n < 3;
    }

    /** What remains is three less the trades counted, and trading is allowed exactly while something remains. */
    method GetRemainingDayTrades(tenant: string, today: int) returns (left: nat)
      ensures 0 <= left <= 3
      ensures !pdtBelow25k ==> left == 3
      ensures pdtBelow25k ==> (left > 0 <==> Count(log, tenant, mode, today) < 3)
      ensures pdtBelow25k && left > 0 ==> left + Count(log, tenant, mode, today) == 3
    {
      if !pdtBelow25k { return 3; }
      var used := DayTradeCount(tenant, today);
      return if used < 3 then 3 - used else 0;
    }
  }

  // ----- Any five weekdays -----

  /** A weekday row of the tenant and mode. */
  predicate Own(r: Row, tenant: string, mode: string) {
    r.tenant == tenant && r.mode == mode && IsWeekday(r.day)
  }

  /** Every weekday trade of the tenant was logged on the day it was made, after asking. */
  ghost predicate AskedFirst(log: seq<Row>, tenant: string, mode: string) {
    forall i :: 0 <= i < |log| && Own(log[i], tenant, mode) ==> Count(log[..i], tenant, mode, log[i].day) < 3
  }

  /** `b` comes less than a week before `a`. */
  predicate StepsBack(a: int, b: int) {
    b < a < b + 7
  }

  /** No weekday row of the tenant is followed by one that is dated less than a week before it. */
  ghost predicate NoStepBack(log: seq<Row>, tenant: string, mode: string) {
    forall i, j :: 0 <= i < j < |log| && Own(log[i], tenant, mode) && Own(log[j], tenant, mode) ==> !StepsBack(log[i].day, log[j].day)
  }

  /** A window that ends later holds no more, when none of its rows steps back to the earlier end. */
  lemma {:induction false} LaterWindow(log: seq<Row>, tenant: string, mode: string, d: int, e: int)
    requires d <= e < d + 7
    requires forall i :: 0 <= i < |log| && Own(log[i], tenant, mode) ==> !StepsBack(log[i].day, d)
    ensures Count(log, tenant, mode, e) <= Count(log, tenant, mode, d)
    decreases |log|
  {
    hide IsWeekday;
    if log != [] {
      var l := |log| - 1;
      assert forall i :: 0 <= i < l ==> log[..l][i] == log[i];
      LaterWindow(log[..l], tenant, mode, d, e);
      assert Own(log[l], tenant, mode) ==> !StepsBack(log[l].day, d);
    }
  }

  lemma SoFar(log: seq<Row>, tenant: string, mode: string)
    requires log != [] && AskedFirst(log, tenant, mode) && NoStepBack(log, tenant, mode)
    ensures var l := |log| - 1;
            && AskedFirst(log[..l], tenant, mode) && NoStepBack(log[..l], tenant, mode)
            && (Own(log[l], tenant, mode) ==>
                  (Count(log[..l], tenant, mode, log[l].day) < 3
                   && forall i :: 0 <= i < l && Own(log[..l][i], tenant, mode) ==> !StepsBack(log[..l][i].day, log[l].day)))
  {
    hide Count, Own, StepsBack;
    var l := |log| - 1;
    assert forall i :: 0 <= i < l ==> log[..l][..i] == log[..i] && log[..l][i] == log[i];
  }

  /**
   If each weekday trade of the tenant is made only when allowed, and none is
   dated less than a week before an earlier one of the tenant, no five
   consecutive weekdays hold more than three.
   */
  lemma {:induction false} AtMostThree(log: seq<Row>, tenant: string, mode: string, e: int)
    requires AskedFirst(log, tenant, mode) && NoStepBack(log, tenant, mode)
    ensures Count(log, tenant, mode, e) <= 3
    decreases |log|
  {
    hide AskedFirst, NoStepBack, IsWeekday, StepsBack;
    if log != [] {
      var l := |log| - 1;
      var r := log[l];
      SoFar(log, tenant, mode);
      AtMostThree(log[..l], tenant, mode, e);
      if Own(r, tenant, mode) && e - 7 < r.day <= e {
        LaterWindow(log[..l], tenant, mode, r.day, e);
      }
    }
  }

  // ----- Exactly which clocks are safe -----

  /** The rows are dated by readings of a clock, in the order of the readings; a reading may date many rows or none. */
  ghost predicate DatedBy(log: seq<Row>, clock: seq<int>, at: seq<nat>) {
    && |at| == |log|
    && (forall k :: 0 <= k < |log| ==> at[k] < |clock| && log[k].day == clock[at[k]])
    && (forall k, l :: 0 <= k < l < |at| ==> at[k] <= at[l])
  }

  /** No weekday reading is followed by an earlier weekday reading less than seven days before it. */
  ghost predicate Steady(clock: seq<int>) {
    forall i, j :: 0 <= i < j < |clock| && IsWeekday(clock[i]) && IsWeekday(clock[j]) ==> !StepsBack(clock[i], clock[j])
  }

  /** Whatever is logged on the clock after asking, no window holds more than three of the tenant's trades. */
  ghost predicate Safe(clock: seq<int>, tenant: string, mode: string) {
    forall log: seq<Row>, at: seq<nat>, e: int ::
      AskedFirst(log, tenant, mode) && DatedBy(log, clock, at) ==> AtMost(log, tenant, mode, e, 3)
  }

  predicate AtMost(log: seq<Row>, tenant: string, mode: string, e: int, n: nat) {
    Count(log, tenant, mode, e) <= n
  }

  lemma SteadyRows(log: seq<Row>, clock: seq<int>, at: seq<nat>, tenant: string, mode: string)
    requires DatedBy(log, clock, at) && Steady(clock)
    ensures NoStepBack(log, tenant, mode)
  {
    hide IsWeekday;
    forall i, j | 0 <= i < j < |log| && Own(log[i], tenant, mode) && Own(log[j], tenant, mode)
      ensures !StepsBack(log[i].day, log[j].day)
    {
      if at[i] < at[j] { assert !StepsBack(clock[at[i]], clock[at[j]]); }
    }
  }

  /** Three trades on one day, and a fourth dated less than a week before them. */
  function ThreeAndOne(tenant: string, mode: string, late: int, early: int): seq<Row> {
    var r := Row(tenant, mode, "S", late);
    [r, r, r, Row(tenant, mode, "S", early)]
  }

  /** Each of the four was allowed when it was made, and one window holds them all. */
  lemma FourInOneWindow(tenant: string, mode: string, late: int, early: int)
    requires IsWeekday(late) && IsWeekday(early) && StepsBack(late, early)
    ensures AskedFirst(ThreeAndOne(tenant, mode, late, early), tenant, mode)
    ensures Count(ThreeAndOne(tenant, mode, late, early), tenant, mode, late) == 4
  {
    hide IsWeekday;
    var log := ThreeAndOne(tenant, mode, late, early);
    assert log[..0] == [];
    PrefixCount(log, 0, tenant, mode, late);
    PrefixCount(log, 1, tenant, mode, late);
    PrefixCount(log, 2, tenant, mode, late);
    PrefixCount(log, 3, tenant, mode, late);
    PrefixCount(log, 0, tenant, mode, early);
    PrefixCount(log, 1, tenant, mode, early);
    PrefixCount(log, 2, tenant, mode, early);
    assert log[..4] == log;
    hide Count;
  }

  lemma PrefixCount(log: seq<Row>, i: nat, tenant: string, mode: string, e: int)
    requires i < |log|
    ensures log[..0] == [] && Count([], tenant, mode, e) == 0
    ensures Count(log[..i + 1], tenant, mode, e)
         == Count(log[..i], tenant, mode, e) + if Own(log[i], tenant, mode) && e - 7 < log[i].day <= e then 1 else 0
  {
    assert log[..i + 1][..i] == log[..i];
  }

  /**
   Exactly the steady clocks are safe: asking before each trade keeps every
   window at three if and only if no weekday reading is followed by an
   earlier weekday less than seven days before it.
   */
  lemma SafeExactlyWhenSteady(clock: seq<int>, tenant: string, mode: string)
    ensures Safe(clock, tenant, mode) <==> Steady(clock)
  {
    hide Count, IsWeekday, AskedFirst, NoStepBack, StepsBack;
    if Steady(clock) {
      forall log: seq<Row>, at: seq<nat>, e: int | AskedFirst(log, tenant, mode) && DatedBy(log, clock, at)
        ensures AtMost(log, tenant, mode, e, 3)
      {
        SteadyRows(log, clock, at, tenant, mode);
        AtMostThree(log, tenant, mode, e);
      }
    } else {
      var i, j :| 0 <= i < j < |clock| && IsWeekday(clock[i]) && IsWeekday(clock[j]) && StepsBack(clock[i], clock[j]);
      FourInOneWindow(tenant, mode, clock[i], clock[j]);
      var log, at := ThreeAndOne(tenant, mode, clock[i], clock[j]), [i, i, i, j];
      assert DatedBy(log, clock, at);
      assert !AtMost(log, tenant, mode, clock[i], 3);
    }
  }

  /** For one: after three trades on day 11, a fourth dated day 7 slips past the check into the same window. */
  lemma ClockGoingBackBreaksIt(tenant: string, mode: string)
    ensures exists log: seq<Row> :: AskedFirst(log, tenant, mode) && Count(log, tenant, mode, 11) == 4
    ensures !Safe([11, 7], tenant, mode)
  {
    FourInOneWindow(tenant, mode, 11, 7);
    SafeExactlyWhenSteady([11, 7], tenant, mode);
    assert StepsBack([11, 7][0], [11, 7][1]);
    hide AskedFirst, Count, Safe;
  }
}
