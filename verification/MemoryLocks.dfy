/** The in-process lock manager: a map of entries, each with an eviction timer, measured against the table. */
module MemoryLocks {
  import opened LockTable

  datatype LockToken = LockToken(stream: StreamId, worker: WorkerId, token: Token, acquiredAt: int, expires: int)

  /** `timer` is the id of the armed timeout that will evict the entry. */
  datatype Entry = Entry(token: LockToken, timer: nat)

  /** An armed `setTimeout` whose callback is `evictIfCurrent(stream, token)`. */
  datatype Timer = Timer(stream: StreamId, token: Token, due: int)

  function RowOf(e: Entry): Row {
    Row(e.token.worker, e.token.token, e.token.expires)
  }

  // ----- What the manager answers, on rows -----

  /** Only the random token is compared: neither the owner nor the expiry. */
  predicate MemSucceeds(rows: Table, st: Statement, now: int) {
    match st
    case Acquire(s, w, _, _) => !(s in rows && rows[s].expires > now && rows[s].owner != w)
    case Renew(s, _, token, _) => Holds(rows, s, token)
    case Release(s, _, token) => Holds(rows, s, token)
    case ReleaseAll(_) => true
  }

  function MemExecute(rows: Table, st: Statement, now: int): Table {
    if !MemSucceeds(rows, st, now) then rows
    else
      match st
      case Acquire(s, w, token, expires) => rows[s := Row(w, token, expires)]
      case Renew(s, w, token, expires) => rows[s := Row(w, token, expires)]
      case Release(s, _, _) => rows - {s}
      case ReleaseAll(_) => map[]
  }

  /** What is left once every timer due by `now` has fired. */
  function Unexpired(rows: Table, now: int): Table {
    map s | s in rows && now < rows[s].expires :: rows[s]
  }

  function RowsOf(locks: map<StreamId, Entry>): Table {
    map s | s in locks :: RowOf(locks[s])
  }

  /** Every entry has exactly one armed timer, set for its own token and expiry, and no timer is left over. */
  ghost predicate Paired(locks: map<StreamId, Entry>, timers: map<nat, Timer>, next: nat) {
    && (forall s | s in locks ::
          && locks[s].timer in timers
          && timers[locks[s].timer] == Timer(s, locks[s].token.token, locks[s].token.expires))
    && (forall i | i in timers :: i < next && timers[i].stream in locks && locks[timers[i].stream].timer == i)
  }

  /** A timer that fires finds its own entry and evicts it. */
  lemma TimerEvicts(locks: map<StreamId, Entry>, timers: map<nat, Timer>, next: nat, i: nat, now: int)
    requires Paired(locks, timers, next) && i in timers && timers[i].due <= now
    ensures var s := timers[i].stream;
            && s in locks && locks[s].token.token == timers[i].token
            && Paired(locks - {s}, timers - {i}, next)
            && Unexpired(RowsOf(locks - {s}), now) == Unexpired(RowsOf(locks), now)
  {
    var s := timers[i].stream;
    forall r | r in locks && r != s ensures locks[r].timer != i {
    }
  }

  /** Clearing the timer of the entry that was there, and arming one for the entry that takes its place. */
  lemma TimerIsReplaced(locks: map<StreamId, Entry>, timers: map<nat, Timer>, next: nat, s: StreamId, token: LockToken)
    requires Paired(locks, timers, next)
    ensures var left := if s in locks then timers - {locks[s].timer} else timers;
            Paired(locks[s := Entry(token, next)], left[next := Timer(s, token.token, token.expires)], next + 1)
    ensures RowsOf(locks[s := Entry(token, next)]) ==
            RowsOf(locks)[s := Row(token.worker, token.token, token.expires)]
  {
  }

  lemma NoneDue(locks: map<StreamId, Entry>, timers: map<nat, Timer>, next: nat, now: int)
    requires Paired(locks, timers, next) && forall i | i in timers :: now < timers[i].due
    ensures RowsOf(locks) == Unexpired(RowsOf(locks), now)
  {
    assert forall s | s in locks :: timers[locks[s].timer].due == locks[s].token.expires;
  }

  class MemoryLockManager {
    const workerId: WorkerId
    const ttl: int
    var locks: map<StreamId, Entry>
    var timers: map<nat, Timer>
    var nextTimer: nat

    constructor (workerId: WorkerId, ttl: int)
      ensures Valid() && Rows() == map[]
      ensures this.workerId == workerId && this.ttl == ttl
    {
      this.workerId := workerId;
      this.ttl := ttl;
      locks, timers, nextTimer := map[], map[], 0;
    }

    ghost predicate Valid()
      reads this
    {
      Paired(locks, timers, nextTimer)
    }

    ghost function Rows(): Table
      reads this
    {
      RowsOf(locks)
    }

    /** `setTimeout` plus `locks.set`, after the previous timer has been cleared. */
    method Install(s: StreamId, token: LockToken)
      requires Valid()
      modifies this
      ensures Valid()
      ensures Rows() == old(Rows())[s := Row(token.worker, token.token, token.expires)]
    {
      TimerIsReplaced(locks, timers, nextTimer, s, token);
      hide Paired, RowsOf;
      if s in locks {
        timers := timers - {locks[s].timer};
      }
      timers := timers[nextTimer := Timer(s, token.token, token.expires)];
      locks := locks[s := Entry(token, nextTimer)];
      nextTimer := nextTimer + 1;
    }

    method Acquire(s: StreamId, uuid: Token, now: int) returns (granted: bool, token: LockToken)
      requires Valid()
      modifies this
      ensures Valid()
      ensures var st := Statement.Acquire(s, workerId, uuid, now + ttl);
              granted == MemSucceeds(old(Rows()), st, now) && Rows() == MemExecute(old(Rows()), st, now)
      ensures granted ==> token == LockToken(s, workerId, uuid, now, now + ttl)
    {
      token := LockToken(s, workerId, uuid, now, now + ttl);
      if s in locks && locks[s].token.expires > now && locks[s].token.worker != workerId {
        granted := false;
        return;
      }
      Install(s, token);
      granted := true;
    }

    method Renew(s: StreamId, token: LockToken, now: int) returns (ok: bool)
      requires Valid()
      modifies this
      ensures Valid()
      ensures var st := Statement.Renew(s, token.worker, token.token, now + ttl);
              ok == MemSucceeds(old(Rows()), st, now) && Rows() == MemExecute(old(Rows()), st, now)
    {
      if s !in locks || locks[s].token.token != token.token {
        return false;
      }
      Install(s, token.(expires := now + ttl));
      ok := true;
    }

    method Release(s: StreamId, token: LockToken, now: int) returns (ok: bool)
      requires Valid()
      modifies this
      ensures Valid()
      ensures var st := Statement.Release(s, token.worker, token.token);
              ok == MemSucceeds(old(Rows()), st, now) && Rows() == MemExecute(old(Rows()), st, now)
    {
      if s !in locks || locks[s].token.token != token.token {
        return false;
      }
      timers := timers - {locks[s].timer};
      locks := locks - {s};
      ok := true;
    }

    method ReleaseAll()
      modifies this
      ensures Valid() && Rows() == map[]
    {
      timers := map[];
      locks := map[];
    }

    /** The event loop runs every timeout that is due, in any order. `evictIfCurrent` re-checks the token. */
    method FireDueTimers(now: int)
      requires Valid()
      modifies this
      ensures Valid() && Rows() == Unexpired(old(Rows()), now)
      ensures forall i | i in timers :: now < timers[i].due
    {
      hide Paired, RowsOf, Unexpired;
      while exists i | i in timers :: timers[i].due <= now
        invariant Valid()
        invariant Unexpired(Rows(), now) == Unexpired(old(Rows()), now)
        decreases timers.Keys
      {
        var i :| i in timers && timers[i].due <= now;
        var fired := timers[i];
        TimerEvicts(locks, timers, nextTimer, i, now);
        timers := timers - {i};
        if fired.stream in locks && locks[fired.stream].token.token == fired.token {
          locks := locks - {fired.stream};
        }
      }
      NoneDue(locks, timers, nextTimer, now);
    }
  }

  // ----- Agreement with the table -----

  ghost predicate OwnedBy(t: Table, w: WorkerId) {
    forall s | s in t :: t[s].owner == w
  }

  /** A release of a lease that has lapsed but whose row is still there. */
  predicate ReleasesLapsedRow(t: Table, st: Statement, now: int) {
    st.Release? && Matches(t, st.stream, st.worker, st.token) && t[st.stream].expires <= now
  }

  /** With timers on time, one call gives the answer the table gives and leaves the same unexpired rows. The
      two differ exactly on the release of a lapsed row: the table deletes it and says true, the map has
      already evicted it and says false. */
  lemma TimelyCallAgrees(t: Table, st: Statement, now: int)
    requires OwnedBy(t, st.worker)
    requires st.Acquire? || st.Renew? ==> now < st.expires
    ensures var rows := Unexpired(t, now);
            && (MemSucceeds(rows, st, now) == Succeeds(t, st, now) <==> !ReleasesLapsedRow(t, st, now))
            && MemExecute(rows, st, now) == Unexpired(Execute(t, st, now), now)
            && OwnedBy(Execute(t, st, now), st.worker)
  {
    var rows := Unexpired(t, now);
    match st
    case Acquire(s, w, token, expires) =>
      assert MemExecute(rows, st, now) == Unexpired(Execute(t, st, now), now);
    case Renew(s, w, token, expires) =>
    case Release(s, w, token) =>
      assert MemExecute(rows, st, now) == Unexpired(Execute(t, st, now), now);
    case ReleaseAll(w) =>
      assert Execute(t, st, now) == map[];
  }

  /** The answers of the manager over a run in which every timer fires on time. */
  function MemAnswers(rows: Table, log: seq<Stamped>): (answers: seq<bool>)
    ensures |answers| == |log|
    decreases |log|
  {
    if log == [] then []
    else
      var live := Unexpired(rows, log[0].now);
      [MemSucceeds(live, log[0].statement, log[0].now)] +
      MemAnswers(MemExecute(live, log[0].statement, log[0].now), log[1..])
  }

  function TableAnswers(t: Table, log: seq<Stamped>): (answers: seq<bool>)
    ensures |answers| == |log|
    decreases |log|
  {
    if log == [] then []
    else
      [Succeeds(t, log[0].statement, log[0].now)] +
      TableAnswers(Execute(t, log[0].statement, log[0].now), log[1..])
  }

  ghost predicate FromOneWorker(w: WorkerId, log: seq<Stamped>) {
    forall i | 0 <= i < |log| ::
      log[i].statement.worker == w &&
      (log[i].statement.Acquire? || log[i].statement.Renew? ==> log[i].now < log[i].statement.expires)
  }

  ghost predicate ClockNeverGoesBack(log: seq<Stamped>) {
    forall i, j | 0 <= i < j < |log| :: log[i].now <= log[j].now
  }

  lemma ExpiryIsMonotone(t: Table, now: int, later: int)
    requires now <= later
    ensures Unexpired(Unexpired(t, now), later) == Unexpired(t, later)
  {
  }

  lemma RunStartsWith(t: Table, log: seq<Stamped>, i: nat)
    requires 0 < i <= |log|
    ensures Run(t, log[..i]) == Run(Execute(t, log[0].statement, log[0].now), log[1..][..i - 1])
  {
    assert log[..i][1..] == log[1..][..i - 1];
  }

  /** The answer to call `i`, by the first call or by the rest of the run. */
  lemma AnswersFrom(rows: Table, t: Table, log: seq<Stamped>, i: nat)
    requires i < |log|
    ensures var st, now := log[0].statement, log[0].now;
            var live := Unexpired(rows, now);
            && MemAnswers(rows, log)[i] ==
               (if i == 0 then MemSucceeds(live, st, now) else MemAnswers(MemExecute(live, st, now), log[1..])[i - 1])
            && TableAnswers(t, log)[i] ==
               (if i == 0 then Succeeds(t, st, now) else TableAnswers(Execute(t, st, now), log[1..])[i - 1])
  {
    hide MemExecute, MemSucceeds, Execute, Succeeds, Unexpired;
  }

  /** Over every run of one worker, the two managers give the same answer to call number `i` if and only if
      call `i` is not the release of a lapsed row. */
  lemma {:induction false} SameAnswers(w: WorkerId, rows: Table, t: Table, log: seq<Stamped>, i: nat)
    requires OwnedBy(t, w) && FromOneWorker(w, log) && ClockNeverGoesBack(log)
    requires i < |log| && Unexpired(rows, log[0].now) == Unexpired(t, log[0].now)
    ensures MemAnswers(rows, log)[i] == TableAnswers(t, log)[i]
            <==> !ReleasesLapsedRow(Run(t, log[..i]), log[i].statement, log[i].now)
    decreases |log|
  {
    hide MemExecute, MemSucceeds, Execute, Succeeds, ReleasesLapsedRow, Unexpired, OwnedBy, MemAnswers, TableAnswers;
    var st, now := log[0].statement, log[0].now;
    TimelyCallAgrees(t, st, now);
    AnswersFrom(rows, t, log, i);
    if i == 0 {
      assert log[..0] == [];
    } else {
      var rows', t' := MemExecute(Unexpired(rows, now), st, now), Execute(t, st, now);
      ExpiryIsMonotone(t', now, log[1].now);
      RunStartsWith(t, log, i);
      assert FromOneWorker(w, log[1..]) && ClockNeverGoesBack(log[1..]);
      SameAnswers(w, rows', t', log[1..], i - 1);
    }
  }

  /** Without timely eviction the map over-answers: a renewal that the table refuses because the lease
      has lapsed is granted as long as the timer has not run. */
  lemma OverdueTimerRenews(t: Table, s: StreamId, w: WorkerId, token: Token, expires: int, now: int)
    requires OwnedBy(t, w)
    ensures var st := Statement.Renew(s, w, token, expires);
            MemSucceeds(t, st, now) != Succeeds(t, st, now) <==> Holds(t, s, token) && t[s].expires <= now
  {
  }
}
