/**
 Broker sessions: the credentials table with its three-step lookup, and the
 double-checked refresh that concurrent callers run over it.  Ciphertexts are
 the texts they encrypt; times are seconds.
 */
module TokenRefresh {
  import opened Sums

  datatype Key = Key(tenant: string, mode: string, broker: string, account: string)

  datatype Row = Row(access: Option<string>, refresh: Option<string>, expires: Option<int>, updated: int)

  datatype Token = Token(access: string, refresh: Option<string>, expires: Option<int>)

  type Table = map<Key, Row>

  // ----- The store -----

  function UpsertRow(rows: Table, k: Key, tok: Token, now: int): Table {
    var prior := if k in rows then rows[k] else Row(None, None, None, now);
    rows[k := Row(Some(tok.access), if tok.refresh.Some? && tok.refresh.value != "" then tok.refresh else prior.refresh, tok.expires, now)]
  }

  predicate HasAccess(rows: Table, k: Key) {
    k in rows && rows[k].access.Some?
  }

  function TokenOf(row: Row): Token
    requires row.access.Some?
  {
    Token(row.access.value, row.refresh, row.expires)
  }

  predicate SameBroker(a: Key, b: Key) {
    a.tenant == b.tenant && a.mode == b.mode && a.broker == b.broker
  }

  /** The row a lookup may answer with: the account's own, else the default one, else a newest one with a token. */
  predicate Serves(rows: Table, q: Key, k: Key) {
    && HasAccess(rows, k) && SameBroker(q, k)
    && if HasAccess(rows, q) then k == q
       else if HasAccess(rows, q.(account := "")) then k == q.(account := "")
       else forall other :: other in rows && HasAccess(rows, other) && SameBroker(q, other) ==> rows[other].updated <= rows[k].updated
  }

  class BrokerCredentialsStore {
    var rows: Table

    constructor (rows: Table)
      ensures this.rows == rows
    {
      this.rows := rows;
    }

    method UpsertTokens(k: Key, tok: Token, now: int)
      modifies this
      ensures rows == UpsertRow(old(rows), k, tok, now)
    {
      var row := Row(None, None, None, now);
      if k in rows { row := rows[k]; }
      row := row.(access := Some(tok.access));
      if tok.refresh.Some? && tok.refresh.value != "" {
        row := row.(refresh := tok.refresh);
      }
      row := row.(expires := tok.expires, updated := now);
      rows := rows[k := row];
    }

    /** No answer means no usable session, which raises; an answer is never another tenant's, mode's or broker's. */
    method GetAuthToken(q: Key) returns (tok: Option<Token>)
      ensures tok.None? ==> forall k :: HasAccess(rows, k) ==> !SameBroker(q, k)
      ensures tok.Some? ==> exists k :: Serves(rows, q, k) && tok.value == TokenOf(rows[k])
    {
      var k := q;
      if !HasAccess(rows, k) && q.account != "" {
        k := q.(account := "");
      }
      if HasAccess(rows, k) {
        assert Serves(rows, q, k);
        return Some(TokenOf(rows[k]));
      }
      var left := rows.Keys;
      var best: Option<Key> := None;
      while left != {}
        invariant left <= rows.Keys
        invariant best.Some? ==> HasAccess(rows, best.value) && SameBroker(q, best.value)
        invariant forall other :: other in rows && other !in left && HasAccess(rows, other) && SameBroker(q, other)
                    ==> best.Some? && rows[other].updated <= rows[best.value].updated
        decreases |left|
      {
        var other :| other in left;
        left := left - {other};
        if SameBroker(q, other) && rows[other].access.Some? && (best.None? || rows[best.value].updated < rows[other].updated) {
          best := Some(other);
        }
      }
      if best.None? { return None; }
      assert Serves(rows, q, best.value);
      return Some(TokenOf(rows[best.value]));
    }
  }

  /** Read your write: after an upsert the only answer for that key is the token written, with the old refresh token kept when none came. */
  lemma ReadYourWrite(rows: Table, q: Key, tok: Token, now: int, k: Key)
    requires Serves(UpsertRow(rows, q, tok, now), q, k)
    ensures k == q
    ensures var t := TokenOf(UpsertRow(rows, q, tok, now)[k]);
            t.access == tok.access && t.expires == tok.expires
            && (tok.refresh.Some? && tok.refresh.value != "" ==> t.refresh == tok.refresh)
            && (tok.refresh.None? || tok.refresh.value == "" ==> t.refresh == if q in rows then rows[q].refresh else None)
    ensures UpsertRow(rows, q, tok, now)[q].updated == now
    ensures forall o :: o != q ==> (o in UpsertRow(rows, q, tok, now) <==> o in rows) && (o in rows ==> UpsertRow(rows, q, tok, now)[o] == rows[o])
  {
  }

  /** The account of that broker has no token. */
  ghost predicate Tokenless(rows: Table, q: Key, account: string) {
    var k := Key(q.tenant, q.mode, q.broker, account);
    k in rows ==> rows[k].access.None?
  }

  /** The lookup order: the account asked for, then the default account, then the newest row of the same tenant, mode and broker. */
  lemma LookupOrder(rows: Table, q: Key, k: Key)
    ensures Serves(rows, q, k) <==>
      && k in rows && rows[k].access.Some? && k.tenant == q.tenant && k.mode == q.mode && k.broker == q.broker
      && (k.account == q.account
          || (Tokenless(rows, q, q.account)
              && (k.account == ""
                  || (Tokenless(rows, q, "")
                      && forall o :: o in rows && rows[o].access.Some? && o.tenant == q.tenant && o.mode == q.mode && o.broker == q.broker
                           ==> rows[o].updated <= rows[k].updated))))
  {
    assert Key(q.tenant, q.mode, q.broker, q.account) == q;
    assert k == Key(k.tenant, k.mode, k.broker, k.account);
  }

  // ----- The refresh protocol -----

  const SKEW: int := 600
  const MAX_ATTEMPTS: nat := 3

  predicate NeedsRefresh(tok: Token, now: int) {
    && tok.refresh.Some? && tok.refresh.value != ""
    && tok.expires.Some? && now >= tok.expires.value - SKEW
  }

  /** The seconds slept after a failed attempt. */
  function Backoff(attempt: nat): nat {
    if attempt <= 1 then 2 else if attempt == 2 then 4 else 8
  }

  /**
   `Asking` before the first read, `Waiting` for the lock, `Refreshing` with
   the lock held: the token that was re-read and when that was decided on, the
   attempt it is at and when it wakes for it, and whether one has been stored.
   */
  datatype Pc =
    | Asking
    | Waiting
    | Refreshing(tok: Token, decided: int, attempt: nat, wake: int, wrote: bool)
    | Answered(access: string)
    | Raised

  /** A token stored; `retry` when the same acquisition of the lock had stored one before. */
  datatype Write = Write(decided: int, at: int, expires: Option<int>, retry: bool)

  datatype State = State(rows: Table, clock: int, lock: Option<nat>, callers: seq<Pc>, log: seq<Write>)

  datatype Step =
    | Tick(seconds: nat)
    | FirstRead(c: nat, k: Key)
    | NoSession(c: nat)
    | Acquire(c: nat, k: Key)
    | Refreshed(c: nat, issued: Token)
    | AttemptFailed(c: nat)
    | AuditFailed(c: nat, issued: Token)
    | GiveUp(c: nat)
    | Cancelled(c: nat)

  function Goto(s: State, c: nat, pc: Pc): State
    requires c < |s.callers|
  {
    s.(callers := s.callers[c := pc])
  }

  predicate Holds(s: State, c: nat) {
    c < |s.callers| && s.callers[c].Refreshing? && s.lock == Some(c)
  }

  /** The caller is awake and has an attempt left. */
  predicate CanTry(s: State, c: nat) {
    Holds(s, c) && s.callers[c].attempt <= MAX_ATTEMPTS && s.callers[c].wake <= s.clock
  }

  function Stored(q: Key, s: State, c: nat, issued: Token): State
    requires Holds(s, c)
  {
    var pc := s.callers[c];
    Goto(s.(rows := UpsertRow(s.rows, q, issued, s.clock), log := s.log + [Write(pc.decided, s.clock, issued.expires, pc.wrote)]),
         c, pc.(wrote := true))
  }

  /** Whatever went wrong, the caller sleeps, after its last attempt too. */
  function Failed(s: State, c: nat): State
    requires Holds(s, c)
  {
    var pc := s.callers[c];
    Goto(s, c, pc.(attempt := pc.attempt + 1, wake := s.clock + Backoff(pc.attempt)))
  }

  function FirstReadStep(q: Key, s: State, c: nat, k: Key): State {
    if c < |s.callers| && s.callers[c].Asking? && Serves(s.rows, q, k) then
      var tok := TokenOf(s.rows[k]);
      Goto(s, c, if NeedsRefresh(tok, s.clock) then Waiting else Answered(tok.access))
    else s
  }

  function AcquireStep(q: Key, s: State, c: nat, k: Key): State {
    if c < |s.callers| && s.callers[c].Waiting? && s.lock.None? && Serves(s.rows, q, k) then
      var tok := TokenOf(s.rows[k]);
      if NeedsRefresh(tok, s.clock) then Goto(s.(lock := Some(c)), c, Refreshing(tok, s.clock, 1, s.clock, false))
      else Goto(s, c, Answered(tok.access))
    else s
  }

  /** One step of one caller; `q` is the session's key, under which the refresh path reads and writes. */
  function Next(q: Key, s: State, step: Step): State {
    match step
    case Tick(seconds) => s.(clock := s.clock + seconds)
    case FirstRead(c, k) => FirstReadStep(q, s, c, k)
    case NoSession(c) => if c < |s.callers| && s.callers[c].Asking? then Goto(s, c, Raised) else s
    case Acquire(c, k) => AcquireStep(q, s, c, k)
    case Refreshed(c, issued) =>
      if CanTry(s, c) then Goto(Stored(q, s, c, issued).(lock := None), c, Answered(issued.access)) else s
    case AttemptFailed(c) => if CanTry(s, c) then Failed(s, c) else s
    case AuditFailed(c, issued) =>
      // The token is stored, then the audit write raises inside the retry loop.
      if CanTry(s, c) then Failed(Stored(q, s, c, issued), c) else s
    case GiveUp(c) =>
      if Holds(s, c) && s.callers[c].attempt > MAX_ATTEMPTS && s.callers[c].wake <= s.clock then Goto(s.(lock := None), c, Raised)
      else s
    case Cancelled(c) =>
      if c < |s.callers| && !s.callers[c].Answered? then
        Goto(if s.lock == Some(c) then s.(lock := None) else s, c, Raised)
      else s
  }

  function Run(q: Key, s: State, steps: seq<Step>): State {
    if steps == [] then s else Next(q, Run(q, s, steps[..|steps| - 1]), steps[|steps| - 1])
  }

  ghost predicate Fresh(s: State) {
    s.lock.None? && s.log == [] && forall c :: 0 <= c < |s.callers| ==> s.callers[c].Asking?
  }

  // ----- What every step keeps -----

  ghost predicate OnlyHolderRefreshes(s: State) {
    forall c :: 0 <= c < |s.callers| && s.callers[c].Refreshing? ==> s.lock == Some(c)
  }

  /** A token was within ten minutes of expiry. */
  predicate Due(expires: Option<int>, at: int) {
    expires.Some? && at >= expires.value - SKEW
  }

  /** A second write of one acquisition has its decision and follows a sleep; any other was decided on a token about to expire. */
  predicate Follows(a: Write, b: Write) {
    if b.retry then b.decided == a.decided && b.at >= a.at + 2 else Due(a.expires, b.decided)
  }

  ghost predicate Chained(log: seq<Write>, clock: int) {
    && (forall i :: 0 <= i < |log| ==> log[i].decided <= log[i].at <= clock)
    && (forall i :: 0 <= i < |log| - 1 ==> Follows(log[i], log[i + 1]))
    && (log != [] ==> !log[0].retry)
  }

  /** What the holder of the lock re-read is what the last write stored, unless that write was its own. */
  ghost predicate HolderKnows(log: seq<Write>, clock: int, pc: Pc)
    requires pc.Refreshing?
  {
    && pc.decided <= clock && pc.attempt >= 1 && NeedsRefresh(pc.tok, pc.decided)
    && (if pc.wrote then log != [] && log[|log| - 1].decided == pc.decided && pc.wake >= log[|log| - 1].at + 2
        else log != [] ==> pc.tok.expires == log[|log| - 1].expires)
  }

  ghost predicate LastStored(q: Key, s: State) {
    s.log != [] ==> HasAccess(s.rows, q) && s.rows[q].expires == s.log[|s.log| - 1].expires
  }

  ghost predicate Inv(q: Key, s: State) {
    && OnlyHolderRefreshes(s) && LastStored(q, s) && Chained(s.log, s.clock)
    && (forall c :: 0 <= c < |s.callers| && s.callers[c].Refreshing? ==> HolderKnows(s.log, s.clock, s.callers[c]))
  }

  lemma OwnRowServes(rows: Table, q: Key, k: Key)
    requires HasAccess(rows, q) && Serves(rows, q, k)
    ensures k == q
  {
  }

  lemma AcquireKeeps(q: Key, s: State, c: nat, k: Key)
    requires Inv(q, s)
    ensures Inv(q, AcquireStep(q, s, c, k))
  {
    hide UpsertRow, Chained, Serves, NeedsRefresh;
    if c < |s.callers| && s.callers[c].Waiting? && s.lock.None? && Serves(s.rows, q, k) && HasAccess(s.rows, q) {
      OwnRowServes(s.rows, q, k);
    }
  }

  lemma FirstReadKeeps(q: Key, s: State, c: nat, k: Key)
    requires Inv(q, s)
    ensures Inv(q, FirstReadStep(q, s, c, k))
  {
    hide UpsertRow, Chained, Serves, NeedsRefresh, HasAccess, HolderKnows;
  }

  lemma UpsertServes(rows: Table, q: Key, issued: Token, now: int)
    ensures HasAccess(UpsertRow(rows, q, issued, now), q) && UpsertRow(rows, q, issued, now)[q].expires == issued.expires
  {
  }

  lemma ChainGrows(log: seq<Write>, clock: int, w: Write)
    requires Chained(log, clock) && w.decided <= w.at <= clock
    requires if log == [] then !w.retry else Follows(log[|log| - 1], w)
    ensures Chained(log + [w], clock)
  {
    hide Follows;
    var after := log + [w];
    forall i | 0 <= i < |after| - 1 ensures Follows(after[i], after[i + 1]) {
      if i < |log| - 1 { assert after[i] == log[i] && after[i + 1] == log[i + 1]; }
    }
  }

  lemma HolderWrites(log: seq<Write>, clock: int, pc: Pc, expires: Option<int>)
    requires pc.Refreshing? && HolderKnows(log, clock, pc) && pc.wake <= clock && Chained(log, clock)
    ensures Chained(log + [Write(pc.decided, clock, expires, pc.wrote)], clock)
  {
    ChainGrows(log, clock, Write(pc.decided, clock, expires, pc.wrote));
  }

  /** The state once the holder of the lock has stored a token and moved on to `pc`. */
  lemma WriteKeeps(q: Key, s: State, c: nat, issued: Token, pc: Pc, lock: Option<nat>)
    requires Inv(q, s) && CanTry(s, c)
    requires pc.Refreshing? ==> lock == Some(c) && pc == s.callers[c].(attempt := pc.attempt, wake := s.clock + Backoff(s.callers[c].attempt), wrote := true)
    requires pc.Refreshing? ==> pc.attempt >= 1
    ensures Inv(q, Goto(Stored(q, s, c, issued).(lock := lock), c, pc))
  {
    UpsertServes(s.rows, q, issued, s.clock);
    HolderWrites(s.log, s.clock, s.callers[c], issued.expires);
    hide UpsertRow, Chained, NeedsRefresh, HasAccess;
  }

  lemma FailKeeps(q: Key, s: State, c: nat)
    requires Inv(q, s) && CanTry(s, c)
    ensures Inv(q, Failed(s, c))
  {
    hide UpsertRow, Chained, NeedsRefresh, HasAccess;
  }

  lemma EndKeeps(q: Key, s: State, c: nat, lock: Option<nat>, pc: Pc)
    requires Inv(q, s) && c < |s.callers| && !pc.Refreshing?
    requires lock == (if s.lock == Some(c) then None else s.lock)
    ensures Inv(q, Goto(s.(lock := lock), c, pc))
  {
    hide Chained, HasAccess, HolderKnows;
  }

  lemma TickKeeps(q: Key, s: State, seconds: nat)
    requires Inv(q, s)
    ensures Inv(q, s.(clock := s.clock + seconds))
  {
    hide NeedsRefresh, HasAccess, Follows;
  }

  lemma StepKeeps(q: Key, s: State, step: Step)
    requires Inv(q, s)
    ensures Inv(q, Next(q, s, step))
  {
    hide Inv, AcquireStep, FirstReadStep, UpsertRow, CanTry;
    match step
    case Tick(seconds) => TickKeeps(q, s, seconds);
    case FirstRead(c, k) => FirstReadKeeps(q, s, c, k);
    case NoSession(c) => if c < |s.callers| && s.callers[c].Asking? { AskingKeeps(q, s, c); }
    case Acquire(c, k) => AcquireKeeps(q, s, c, k);
    case Refreshed(c, issued) => if CanTry(s, c) { WriteKeeps(q, s, c, issued, Answered(issued.access), None); }
    case AttemptFailed(c) => if CanTry(s, c) { FailKeeps(q, s, c); }
    case AuditFailed(c, issued) => if CanTry(s, c) { AuditFailKeeps(q, s, c, issued); }
    case GiveUp(c) => if Holds(s, c) { EndKeeps(q, s, c, None, Raised); }
    case Cancelled(c) => if c < |s.callers| { EndKeeps(q, s, c, if s.lock == Some(c) then None else s.lock, Raised); }
  }

  lemma AskingKeeps(q: Key, s: State, c: nat)
    requires Inv(q, s) && c < |s.callers| && s.callers[c].Asking?
    ensures Inv(q, Goto(s, c, Raised))
  {
    hide Chained, HasAccess, HolderKnows;
  }

  lemma AuditFailKeeps(q: Key, s: State, c: nat, issued: Token)
    requires Inv(q, s) && CanTry(s, c)
    ensures Inv(q, Failed(Stored(q, s, c, issued), c))
  {
    hide Inv, UpsertRow;
    var pc := Failed(Stored(q, s, c, issued), c).callers[c];
    WriteKeeps(q, s, c, issued, pc, s.lock);
    assert Goto(Stored(q, s, c, issued).(lock := s.lock), c, pc) == Failed(Stored(q, s, c, issued), c);
  }

  lemma {:induction false} RunKeeps(q: Key, s: State, steps: seq<Step>)
    requires Fresh(s)
    ensures Inv(q, Run(q, s, steps))
    decreases |steps|
  {
    hide Next;
    if steps != [] {
      hide Inv;
      RunKeeps(q, s, steps[..|steps| - 1]);
      StepKeeps(q, Run(q, s, steps[..|steps| - 1]), steps[|steps| - 1]);
    }
  }

  /** Over any interleaving of any number of callers, whatever fails, at most one refreshes at a time. */
  lemma OneAtATime(q: Key, s: State, steps: seq<Step>)
    requires Fresh(s)
    ensures OnlyHolderRefreshes(Run(q, s, steps))
  {
    RunKeeps(q, s, steps);
  }

  /** Each write was decided when the token of the one before was within ten minutes of expiry. */
  ghost predicate Spaced(log: seq<Write>) {
    && (forall i :: 0 <= i < |log| ==> log[i].decided <= log[i].at)
    && (forall i :: 0 <= i < |log| - 1 ==> Due(log[i].expires, log[i + 1].decided))
  }

  /** A write of another acquisition was decided on a token about to expire, so it comes after the token's life less ten minutes. */
  predicate Apart(a: Write, b: Write, lifetime: int) {
    !b.retry ==>
      (Due(a.expires, b.decided) && b.decided <= b.at && (a.expires.value >= a.at + lifetime ==> b.at - a.at >= lifetime - SKEW))
  }

  /**
   No stampede: over any interleaving of any number of callers, whatever
   fails, each refresh was decided, with the lock held, on a stored token
   within ten minutes of expiry; and two successive writes of different
   acquisitions are at least the first token's lifetime less ten minutes apart.
   */
  lemma NoStampede(q: Key, s: State, steps: seq<Step>, lifetime: int)
    requires Fresh(s)
    ensures var z := Run(q, s, steps);
            forall c :: 0 <= c < |z.callers| && z.callers[c].Refreshing? ==> NeedsRefresh(z.callers[c].tok, z.callers[c].decided)
    ensures var log := Run(q, s, steps).log;
            forall i :: 0 <= i < |log| - 1 ==> Apart(log[i], log[i + 1], lifetime)
  {
    RunKeeps(q, s, steps);
    hide Run, NeedsRefresh;
    var log := Run(q, s, steps).log;
    forall i | 0 <= i < |log| - 1 ensures Apart(log[i], log[i + 1], lifetime) {
      assert Follows(log[i], log[i + 1]);
    }
  }

  /**
   In every run the writes are spaced if and only if each one that the same
   acquisition followed with another had stored a token already within ten
   minutes of expiry when the refresh was decided.
   */
  lemma SpacedExactly(q: Key, s: State, steps: seq<Step>)
    requires Fresh(s)
    ensures var log := Run(q, s, steps).log;
            Spaced(log) <==> forall i :: 0 <= i < |log| - 1 && log[i + 1].retry ==> Due(log[i].expires, log[i].decided)
  {
    RunKeeps(q, s, steps);
    hide Run, Due;
    var log := Run(q, s, steps).log;
    forall i | 0 <= i < |log| - 1
      ensures Due(log[i].expires, log[i + 1].decided) <==> (log[i + 1].retry ==> Due(log[i].expires, log[i].decided))
    {
      assert Follows(log[i], log[i + 1]);
    }
  }

  /** No audit write failed after its token had been stored. */
  ghost predicate AuditsHold(steps: seq<Step>) {
    forall i :: 0 <= i < |steps| ==> !steps[i].AuditFailed?
  }

  ghost predicate NoRetries(s: State) {
    && (forall i :: 0 <= i < |s.log| ==> !s.log[i].retry)
    && (forall c :: 0 <= c < |s.callers| && s.callers[c].Refreshing? ==> !s.callers[c].wrote)
  }

  /** A second write of one acquisition takes an audit write that failed. */
  lemma {:induction false} RetriesNeedFailedAudits(q: Key, s: State, steps: seq<Step>)
    requires Fresh(s) && AuditsHold(steps)
    ensures NoRetries(Run(q, s, steps)) && Spaced(Run(q, s, steps).log)
    decreases |steps|
  {
    hide Next, Spaced;
    SpacedExactly(q, s, steps);
    if steps != [] {
      var init := steps[..|steps| - 1];
      RetriesNeedFailedAudits(q, s, init);
      StepRetries(q, Run(q, s, init), steps[|steps| - 1]);
    }
  }

  lemma StepRetries(q: Key, s: State, step: Step)
    requires NoRetries(s) && !step.AuditFailed?
    ensures NoRetries(Next(q, s, step))
  {
    hide UpsertRow, Serves, NeedsRefresh;
  }

  /** While writes are spaced and tokens live at least `lifetime`, the n-th success after another comes at least n times the lifetime less ten minutes later. */
  lemma {:induction false} FewRefreshes(log: seq<Write>, lifetime: int, i: nat, j: nat)
    requires Spaced(log) && i <= j < |log|
    requires forall k :: 0 <= k < |log| && log[k].expires.Some? ==> log[k].expires.value >= log[k].at + lifetime
    ensures log[j].at - log[i].at >= (j - i) * (lifetime - SKEW)
    decreases j - i
  {
    if i < j {
      FewRefreshes(log, lifetime, i, j - 1);
      assert Due(log[j - 1].expires, log[(j - 1) + 1].decided);
      assert (j - i) * (lifetime - SKEW) == (j - 1 - i) * (lifetime - SKEW) + (lifetime - SKEW);
    }
  }

  /** After a token stored without an expiry, this path refreshes again only within the same acquisition. */
  lemma NoExpiryNoRefresh(q: Key, s: State, steps: seq<Step>, i: nat)
    requires Fresh(s) && i < |Run(q, s, steps).log| - 1 && Run(q, s, steps).log[i].expires.None?
    ensures Run(q, s, steps).log[i + 1].retry
  {
    RunKeeps(q, s, steps);
    hide Run;
    assert Follows(Run(q, s, steps).log[i], Run(q, s, steps).log[i + 1]);
  }

  /**
   An audit write that fails on a first or second attempt, once its token is
   stored, makes the same caller refresh again after its sleep of two or four
   seconds, however long the new token lives.
   */
  lemma AuditFailureRefreshesAgain(q: Key, s: State, c: nat, first: Token, second: Token)
    requires Inv(q, s) && Spaced(s.log) && CanTry(s, c) && s.callers[c].attempt < MAX_ATTEMPTS && !s.callers[c].wrote
    ensures var pause := Backoff(s.callers[c].attempt);
            var z := Next(q, Next(q, Next(q, s, AuditFailed(c, first)), Tick(pause)), Refreshed(c, second));
            && 2 <= pause <= 4 && |z.log| == |s.log| + 2
            && z.log[|s.log| + 1].retry && z.log[|s.log| + 1].at == z.log[|s.log|].at + pause
            && (Spaced(z.log) <==> Due(first.expires, s.callers[c].decided))
  {
    hide UpsertRow, Serves, NeedsRefresh;
    var n, pc := |s.log|, s.callers[c];
    var pause := Backoff(pc.attempt);
    var s1 := Next(q, s, AuditFailed(c, first));
    var s2 := Next(q, s1, Tick(pause));
    var z := Next(q, s2, Refreshed(c, second));
    var w1, w2 := Write(pc.decided, s.clock, first.expires, false), Write(pc.decided, s.clock + pause, second.expires, true);
    assert s1.log == s.log + [w1] && CanTry(s2, c);
    assert z.log == s.log + [w1] + [w2];
    TwoMore(s.log, s.clock, pc, w1, w2);
  }

  lemma TwoMore(log: seq<Write>, clock: int, pc: Pc, w1: Write, w2: Write)
    requires Spaced(log) && Chained(log, clock) && pc.Refreshing? && HolderKnows(log, clock, pc) && !pc.wrote
    requires w1.decided == w2.decided == pc.decided && clock <= w1.at <= w2.at
    ensures Spaced(log + [w1] + [w2]) <==> Due(w1.expires, w2.decided)
  {
    var n, after := |log|, log + [w1] + [w2];
    assert after[n] == w1 && after[n + 1] == w2;
    assert forall i :: 0 <= i < n ==> after[i] == log[i];
    if Due(w1.expires, w2.decided) {
      forall i | 0 <= i < |after| - 1 ensures Due(after[i].expires, after[i + 1].decided) {
        if i < n - 1 { assert Due(log[i].expires, log[i + 1].decided); }
      }
    }
  }

  // ----- What a caller is answered with -----

  /** The step hands the caller the token `a`. */
  predicate Answers(s: State, z: State, c: nat, a: string) {
    c < |s.callers| && c < |z.callers| && !s.callers[c].Answered? && z.callers[c] == Answered(a)
  }

  /** Some row that serves the session holds the token. */
  ghost predicate ServedNow(q: Key, rows: Table, a: string) {
    exists k :: Serves(rows, q, k) && rows[k].access == Some(a)
  }

  /** Some row that serves the session holds the token, and either has no refresh token, or no expiry, or more than ten minutes to it. */
  ghost predicate ServedFresh(q: Key, rows: Table, clock: int, a: string) {
    exists k :: Serves(rows, q, k) && rows[k].access == Some(a)
      && (rows[k].refresh.None? || rows[k].refresh == Some("") || rows[k].expires.None? || clock < rows[k].expires.value - 600)
  }

  lemma StepAnswers(q: Key, s: State, step: Step, c: nat, a: string)
    requires Answers(s, Next(q, s, step), c, a)
    ensures ServedNow(q, Next(q, s, step).rows, a)
    ensures step.Refreshed? || ServedFresh(q, Next(q, s, step).rows, s.clock, a)
    ensures step.Refreshed? ==> step.c == c && step.issued.access == a
  {
    match step
    case FirstRead(d, k) => ReadAnswers(q, s, d, k, c, a);
    case Acquire(d, k) => AcquireAnswers(q, s, d, k, c, a);
    case Refreshed(d, issued) => RefreshAnswers(q, s, d, issued, c, a);
    case _ => hide UpsertRow, Serves, NeedsRefresh;
  }

  lemma ReadAnswers(q: Key, s: State, d: nat, k: Key, c: nat, a: string)
    requires Answers(s, FirstReadStep(q, s, d, k), c, a)
    ensures ServedNow(q, s.rows, a) && ServedFresh(q, s.rows, s.clock, a) && FirstReadStep(q, s, d, k).rows == s.rows
  {
    hide Serves;
    ServesHas(s.rows, q, k);
    assert Serves(s.rows, q, k) && s.rows[k].access == Some(a);
  }

  lemma AcquireAnswers(q: Key, s: State, d: nat, k: Key, c: nat, a: string)
    requires Answers(s, AcquireStep(q, s, d, k), c, a)
    ensures ServedNow(q, s.rows, a) && ServedFresh(q, s.rows, s.clock, a) && AcquireStep(q, s, d, k).rows == s.rows
  {
    hide Serves;
    ServesHas(s.rows, q, k);
    assert Serves(s.rows, q, k) && s.rows[k].access == Some(a);
  }

  lemma RefreshAnswers(q: Key, s: State, d: nat, issued: Token, c: nat, a: string)
    requires Answers(s, Next(q, s, Refreshed(d, issued)), c, a)
    ensures ServedNow(q, Next(q, s, Refreshed(d, issued)).rows, a) && d == c && issued.access == a
  {
    hide UpsertRow, Serves, SameBroker;
    UpsertOwn(s.rows, q, issued, s.clock);
  }

  lemma UpsertOwn(rows: Table, q: Key, issued: Token, now: int)
    ensures Serves(UpsertRow(rows, q, issued, now), q, q) && UpsertRow(rows, q, issued, now)[q].access == Some(issued.access)
  {
  }

  /**
   In every run, whoever is answered gets a token that a row serving the
   session holds once the step is done; a caller that did not refresh gets one
   that needed no refresh then; and one that did gets the token it was issued.
   */
  lemma AnswersAreServed(q: Key, s: State, steps: seq<Step>, i: nat, c: nat, a: string)
    requires i < |steps| && Answers(Run(q, s, steps[..i]), Run(q, s, steps[..i + 1]), c, a)
    ensures var x, z := Run(q, s, steps[..i]), Run(q, s, steps[..i + 1]);
            && ServedNow(q, z.rows, a)
            && (if steps[i].Refreshed? then steps[i].c == c && steps[i].issued.access == a else ServedFresh(q, z.rows, x.clock, a))
  {
    hide Next;
    assert steps[..i + 1][..i] == steps[..i];
    StepAnswers(q, Run(q, s, steps[..i]), steps[i], c, a);
  }

  /** A first reader is answered exactly when the token it read needs no refresh, and otherwise queues for the lock; nothing else changes. */
  lemma FirstReadDecides(q: Key, s: State, c: nat, k: Key)
    requires c < |s.callers| && s.callers[c].Asking? && Serves(s.rows, q, k)
    ensures var z, row := Next(q, s, FirstRead(c, k)), s.rows[k];
            var due := row.refresh.Some? && row.refresh.value != "" && row.expires.Some? && s.clock >= row.expires.value - 600;
            z == s.(callers := s.callers[c := if due then Waiting else Answered(row.access.value)])
  {
    hide Serves;
    ServesHas(s.rows, q, k);
  }

  lemma ServesHas(rows: Table, q: Key, k: Key)
    requires Serves(rows, q, k)
    ensures HasAccess(rows, k)
  {
  }

  /** With the lock free, a waiting caller refreshes exactly when the token it reads again is due, and is answered with that token otherwise. */
  lemma AcquireDecides(q: Key, s: State, c: nat, k: Key)
    requires c < |s.callers| && s.callers[c].Waiting? && s.lock.None? && Serves(s.rows, q, k)
    ensures var z, row := Next(q, s, Acquire(c, k)), s.rows[k];
            var due := row.refresh.Some? && row.refresh.value != "" && row.expires.Some? && s.clock >= row.expires.value - 600;
            if due then z.lock == Some(c) && z.callers[c].Refreshing? && z.callers[c].tok == TokenOf(row) && z.callers[c].attempt == 1 && z.rows == s.rows
            else z == s.(callers := s.callers[c := Answered(row.access.value)])
  {
    hide Serves;
    ServesHas(s.rows, q, k);
  }

  /** Three failed attempts, two, four and eight seconds of sleep, then the error goes up and the lock is free. */
  lemma GivesUpAfterThree(q: Key, s: State, c: nat)
    requires CanTry(s, c) && s.callers[c].attempt == 1
    ensures var s1 := Next(q, Next(q, s, AttemptFailed(c)), Tick(2));
            var s2 := Next(q, Next(q, s1, AttemptFailed(c)), Tick(4));
            var s3 := Next(q, s2, AttemptFailed(c));
            var z := Next(q, Next(q, s3, Tick(8)), GiveUp(c));
            && CanTry(s1, c) && CanTry(s2, c) && !CanTry(Next(q, s3, Tick(8)), c)
            && z == s.(clock := s.clock + 14, lock := None, callers := s.callers[c := Raised])
    ensures var s1 := Next(q, s, AttemptFailed(c)); !CanTry(s1, c) && !CanTry(Next(q, s1, Tick(1)), c)
  {
    hide UpsertRow, Serves, NeedsRefresh;
    var pc := s.callers[c];
    var s1 := Next(q, Next(q, s, AttemptFailed(c)), Tick(2));
    var s2 := Next(q, Next(q, s1, AttemptFailed(c)), Tick(4));
    var s3 := Next(q, Next(q, s2, AttemptFailed(c)), Tick(8));
    assert s1.callers == s.callers[c := pc.(attempt := 2, wake := s.clock + 2)];
    assert s2.callers == s.callers[c := pc.(attempt := 3, wake := s.clock + 6)];
    assert s3.callers == s.callers[c := pc.(attempt := 4, wake := s.clock + 14)];
    assert s3.callers[c := Raised] == s.callers[c := Raised];
  }
}
