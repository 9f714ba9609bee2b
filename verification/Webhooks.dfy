/** Webhook deliveries: the row of one delivery through attempts, the retry schedule and manual retries, and the sweep
    over the whole table. Times are in milliseconds. */
module Webhooks {
  import opened Options

  datatype Status = Pending | Success | Failed

  datatype Row = Row(status: Status, attempts: nat, nextAt: Option<int>, deliveredAt: Option<int>,
      lastCode: Option<int>)

  /** What came of one request: a response with its status code, or an error or timeout. */
  datatype Outcome = Responded(code: int) | Threw

  predicate Delivered(o: Outcome) {
    o.Responded? && 200 <= o.code < 300
  }

  // ----- The schedule -----

  const MAX_RETRIES := 5
  const MINUTE := 60_000
  const HOUR := 60 * MINUTE
  const DAY := 24 * HOUR

  const RETRY_DELAYS: seq<int> := [MINUTE, 5 * MINUTE, 30 * MINUTE, 3 * HOUR, 20 * HOUR + 24 * MINUTE]

  /** When to try again after the `n`-th attempt failed, if at all. */
  function NextAttemptAfter(n: nat, now: int): (r: Option<int>)
    requires n >= 1
    ensures r.Some? <==> n <= MAX_RETRIES
  {
    if n - 1 >= MAX_RETRIES then None else Some(now + RETRY_DELAYS[n - 1])
  }

  /** The first `n` delays together. */
  function Delays(n: nat): int
    requires n <= MAX_RETRIES
  {
    if n == 0 then 0 else Delays(n - 1) + RETRY_DELAYS[n - 1]
  }

  /** The retries come 1, 6, 36 and 216 minutes and 24 hours after the first attempt failed. */
  lemma DelaysTakeADay()
    ensures Delays(1) == 60_000 && Delays(2) == 6 * 60_000 && Delays(3) == 36 * 60_000 && Delays(4) == 216 * 60_000
    ensures MAX_RETRIES == 5 && Delays(MAX_RETRIES) == DAY == 86_400_000
  {
    assert Delays(5) == Delays(4) + 20 * HOUR + 24 * MINUTE;
    assert Delays(4) == Delays(3) + 3 * HOUR;
    assert Delays(3) == Delays(2) + 30 * MINUTE;
    assert Delays(2) == Delays(1) + 5 * MINUTE;
    assert Delays(1) == Delays(0) + MINUTE;
  }

  // ----- The row -----

  function Created(now: int): Row {
    Row(Pending, 0, Some(now), None, None)
  }

  predicate Due(r: Row, now: int) {
    r.status.Pending? && r.nextAt.Some? && r.nextAt.value <= now
  }

  /** `seen` is the attempt count the attempt was started with. */
  function Recorded(r: Row, seen: nat, o: Outcome, now: int): Row {
    var next := if Delivered(o) then None else NextAttemptAfter(seen + 1, now);
    Row(if Delivered(o) then Success else if next.Some? then Pending else Failed,
        r.attempts + 1,
        next,
        if Delivered(o) then Some(now) else r.deliveredAt,
        if o.Responded? then Some(o.code) else None)
  }

  /** A 2xx response ends the delivery, anything else leaves it pending for the time the schedule has next, as long as
      five attempts had not been seen before, and then fails it; each record counts one attempt and keeps its code. */
  lemma RecordedOutcome(r: Row, seen: nat, o: Outcome, now: int)
    ensures var r' := Recorded(r, seen, o, now);
            && r'.attempts == r.attempts + 1
            && (r'.status.Success? <==> o.Responded? && 200 <= o.code <= 299)
            && (r'.status.Pending? <==> !r'.status.Success? && seen < 5)
            && r'.nextAt == (if r'.status.Pending? then Some(now + Delays(seen + 1) - Delays(seen)) else None)
            && r'.deliveredAt == (if r'.status.Success? then Some(now) else r.deliveredAt)
            && r'.lastCode == if o.Responded? then Some(o.code) else None
  {
  }

  function Requeued(r: Row, now: int): Row {
    r.(status := Pending, nextAt := Some(now))
  }

  // ----- One delivery, with whatever runs on it at the same time -----

  /** `open` has the attempt count each running attempt started with, `checked` counts the manual retries that have
      passed the check of the status and not yet updated the row. */
  datatype State = State(row: Row, clock: int, open: seq<nat>, checked: nat)

  /** `Begin` reads the row for an attempt, `Skip` drops one whose subscription is gone or inactive. */
  datatype Step =
    | Begin(now: int)
    | Skip(i: nat)
    | Record(i: nat, outcome: Outcome, now: int)
    | Check(now: int)
    | Update(now: int)

  function Start(now: int): State {
    State(Created(now), now, [], 0)
  }

  predicate CanDo(s: State, step: Step) {
    match step
    case Begin(now) => now >= s.clock && Due(s.row, now)
    case Skip(i) => i < |s.open|
    case Record(i, _, now) => now >= s.clock && i < |s.open|
    case Check(now) => now >= s.clock && !s.row.status.Success?
    case Update(now) => now >= s.clock && s.checked > 0
  }

  function Do(s: State, step: Step): State
    requires CanDo(s, step)
  {
    match step
    case Begin(now) => s.(clock := now, open := s.open + [s.row.attempts])
    case Skip(i) => s.(open := s.open[..i] + s.open[i + 1..])
    case Record(i, o, now) =>
      s.(clock := now, row := Recorded(s.row, s.open[i], o, now), open := s.open[..i] + s.open[i + 1..])
    case Check(now) => s.(clock := now, checked := s.checked + 1)
    case Update(now) => s.(clock := now, row := Requeued(s.row, now), checked := s.checked - 1)
  }

  predicate CanRun(s: State, steps: seq<Step>)
    decreases |steps|
  {
    steps == [] || (CanDo(s, steps[0]) && CanRun(Do(s, steps[0]), steps[1..]))
  }

  function Run(s: State, steps: seq<Step>): State
    requires CanRun(s, steps)
    decreases |steps|
  {
    if steps == [] then s else Run(Do(s, steps[0]), steps[1..])
  }

  /** Nothing starts on the delivery while an attempt or a manual retry is under way. */
  predicate Serial(s: State, steps: seq<Step>)
    requires CanRun(s, steps)
    decreases |steps|
  {
    steps == [] ||
    ((steps[0].Begin? || steps[0].Check? ==> s.open == [] && s.checked == 0) &&
     Serial(Do(s, steps[0]), steps[1..]))
  }

  /** How often the run requeues a delivery that had failed. */
  function Revivals(s: State, steps: seq<Step>): nat
    requires CanRun(s, steps)
    decreases |steps|
  {
    if steps == [] then 0
    else (if steps[0].Update? && s.row.status.Failed? then 1 else 0) + Revivals(Do(s, steps[0]), steps[1..])
  }

  // ----- The budget -----

  /** At most one thing is under way, an attempt knows the current count, and neither exists on a delivered row. */
  predicate Alone(s: State) {
    |s.open| + s.checked <= 1 && (s.open != [] ==> s.open[0] == s.row.attempts && s.row.status.Pending?) &&
    (s.checked > 0 ==> !s.row.status.Success?)
  }

  /** `revived` is the number of requeues from failed so far. */
  predicate Budget(r: Row, revived: nat) {
    (r.status.Pending? ==> r.attempts <= MAX_RETRIES + revived && r.nextAt.Some?) &&
    (!r.status.Pending? ==> r.attempts <= MAX_RETRIES + 1 + revived && r.nextAt.None?) &&
    (r.status.Failed? ==> r.attempts >= MAX_RETRIES + 1) &&
    (r.status.Success? <==> r.deliveredAt.Some?)
  }

  lemma StepKeepsBudget(s: State, step: Step, revived: nat)
    requires CanDo(s, step) && Alone(s) && Budget(s.row, revived)
    requires step.Begin? || step.Check? ==> s.open == [] && s.checked == 0
    ensures Alone(Do(s, step))
    ensures Budget(Do(s, step).row, revived + if step.Update? && s.row.status.Failed? then 1 else 0)
    ensures s.row.status.Success? ==> Do(s, step).row == s.row
    ensures s.row.attempts <= Do(s, step).row.attempts
  {
  }

  /** In a serial run a delivery is never attempted more than six times and once more for each requeue from failed; it
      only fails after six attempts; once delivered its row stays as it is; and it always has a next attempt exactly
      while it is pending. */
  lemma {:induction false} AttemptBudget(s: State, steps: seq<Step>, revived: nat)
    requires CanRun(s, steps) && Serial(s, steps) && Alone(s) && Budget(s.row, revived)
    ensures Alone(Run(s, steps)) && Budget(Run(s, steps).row, revived + Revivals(s, steps))
    ensures s.row.status.Success? ==> Run(s, steps).row == s.row && Revivals(s, steps) == 0
    decreases |steps|
  {
    if steps != [] {
      StepKeepsBudget(s, steps[0], revived);
      var more := if steps[0].Update? && s.row.status.Failed? then 1 else 0;
      hide Budget, Do, CanDo;
      AttemptBudget(Do(s, steps[0]), steps[1..], revived + more);
    }
  }

  lemma NewDeliveryBudget(now: int, steps: seq<Step>)
    requires CanRun(Start(now), steps) && Serial(Start(now), steps)
    ensures Budget(Run(Start(now), steps).row, Revivals(Start(now), steps))
  {
    AttemptBudget(Start(now), steps, 0);
  }

  // ----- Twenty-four hours -----

  predicate NoRetry(steps: seq<Step>) {
    forall i | 0 <= i < |steps| :: !steps[i].Check?
  }

  /** When the run's first attempt was recorded. */
  function FirstRecord(steps: seq<Step>): Option<int> {
    if steps == [] then None
    else if steps[0].Record? then Some(steps[0].now)
    else FirstRecord(steps[1..])
  }

  /** With `first` the time of the first record: the next attempt comes no earlier than the delays so far allow, and an
      attempt under way did not start earlier either. */
  predicate OnSchedule(s: State, first: Option<int>) {
    s.checked == 0 && (s.row.attempts == 0 <==> first.None?) &&
    (s.row.status.Pending? ==> s.row.attempts <= MAX_RETRIES) &&
    (s.row.status.Pending? && first.Some? ==>
       s.row.nextAt.Some? && s.row.nextAt.value >= first.value + Delays(s.row.attempts)) &&
    (s.open != [] ==> s.row.attempts <= MAX_RETRIES &&
                      (first.Some? ==> s.clock >= first.value + Delays(s.row.attempts))) &&
    (s.row.status.Failed? ==> first.Some? && s.clock >= first.value + Delays(MAX_RETRIES))
  }

  function Since(first: Option<int>, step: Step): Option<int> {
    if first.None? && step.Record? then Some(step.now) else first
  }

  lemma StepKeepsSchedule(s: State, step: Step, first: Option<int>)
    requires CanDo(s, step) && Alone(s) && OnSchedule(s, first) && !step.Check?
    requires step.Begin? ==> s.open == [] && s.checked == 0
    ensures Alone(Do(s, step)) && OnSchedule(Do(s, step), Since(first, step))
  {
    var t := Do(s, step);
    if step.Record? {
      var n := s.row.attempts;
      assert s.open == [n];
      assert t.row.attempts == n + 1;
      if n < MAX_RETRIES {
        assert Delays(n + 1) == Delays(n) + RETRY_DELAYS[n];
      }
    }
  }

  lemma {:induction false} RunKeepsSchedule(s: State, steps: seq<Step>, first: Option<int>)
    requires CanRun(s, steps) && Serial(s, steps) && NoRetry(steps) && Alone(s) && OnSchedule(s, first)
    ensures OnSchedule(Run(s, steps), if first.Some? then first else FirstRecord(steps))
    decreases |steps|
  {
    if steps != [] {
      StepKeepsSchedule(s, steps[0], first);
      assert NoRetry(steps[1..]);
      hide OnSchedule, Alone, CanDo;
      RunKeepsSchedule(Do(s, steps[0]), steps[1..], Since(first, steps[0]));
    }
  }

  /** A delivery nobody retried by hand fails no earlier than 24 hours after its first attempt was recorded, however
      late the sweeps come: it has not been given up before. */
  lemma NotGivenUpWithinADay(now: int, steps: seq<Step>)
    requires CanRun(Start(now), steps) && Serial(Start(now), steps) && NoRetry(steps)
    requires Run(Start(now), steps).row.status.Failed?
    ensures FirstRecord(steps).Some? && Run(Start(now), steps).clock >= FirstRecord(steps).value + DAY
    ensures Run(Start(now), steps).row.attempts == 6
  {
    RunKeepsSchedule(Start(now), steps, None);
    DelaysTakeADay();
    NewDeliveryBudget(now, steps);
    NoRetryNoRevival(Start(now), steps);
  }

  lemma {:induction false} NoRetryNoRevival(s: State, steps: seq<Step>)
    requires CanRun(s, steps) && NoRetry(steps) && s.checked == 0
    ensures Revivals(s, steps) == 0
    decreases |steps|
  {
    if steps != [] {
      assert NoRetry(steps[1..]);
      NoRetryNoRevival(Do(s, steps[0]), steps[1..]);
    }
  }

  // ----- What overlapping does -----

  lemma FourSteps(s0: State, s1: State, s2: State, s3: State, s4: State, steps: seq<Step>)
    requires |steps| == 4
    requires CanDo(s0, steps[0]) && Do(s0, steps[0]) == s1 && CanDo(s1, steps[1]) && Do(s1, steps[1]) == s2
    requires CanDo(s2, steps[2]) && Do(s2, steps[2]) == s3 && CanDo(s3, steps[3]) && Do(s3, steps[3]) == s4
    ensures CanRun(s0, steps) && Run(s0, steps) == s4
  {
    hide CanDo, Do;
    var rest := steps[1..];
    assert rest[0] == steps[1] && rest[1..][0] == steps[2] && rest[1..][1..][0] == steps[3] &&
        rest[1..][1..][1..] == [];
    assert CanRun(s3, rest[1..][1..]) && Run(s3, rest[1..][1..]) == s4;
    assert CanRun(s2, rest[1..]) && Run(s2, rest[1..]) == s4;
    assert CanRun(s1, rest) && Run(s1, rest) == s4;
  }

  /** A row is due from the moment it is created, so a sweep can take it while the first attempt is still running: both
      are recorded, two attempts count, and the schedule goes on as after one. */
  lemma FirstSweepOverlaps(now: int, a: int, b: int)
    requires now <= a <= b
    ensures var steps := [Begin(now), Begin(now), Record(0, Threw, a), Record(0, Threw, b)];
            CanRun(Start(now), steps) &&
            Run(Start(now), steps) == State(Row(Pending, 2, Some(b + MINUTE), None, None), b, [], 0)
  {
    var steps := [Begin(now), Begin(now), Record(0, Threw, a), Record(0, Threw, b)];
    var s1 := State(Created(now), now, [0], 0);
    var s2 := State(Created(now), now, [0, 0], 0);
    var s3 := State(Row(Pending, 1, Some(a + MINUTE), None, None), a, [0], 0);
    var s4 := State(Row(Pending, 2, Some(b + MINUTE), None, None), b, [], 0);
    hide Run, CanRun;
    assert [0, 0][..0] + [0, 0][1..] == [0] && [0][..0] + [0][1..] == [];
    FourSteps(Start(now), s1, s2, s3, s4, steps);
  }

  /** A manual retry that checked the status before a running attempt succeeded puts the delivered row back to pending,
      and it is due again. */
  lemma RetryOvertakesSuccess(now: int, a: int)
    requires now <= a
    ensures var steps := [Begin(now), Check(now), Record(0, Responded(200), a), Update(a)];
            CanRun(Start(now), steps) && Due(Run(Start(now), steps).row, a) &&
            Run(Start(now), steps).row.deliveredAt == Some(a)
  {
    var steps := [Begin(now), Check(now), Record(0, Responded(200), a), Update(a)];
    var s1 := State(Created(now), now, [0], 0);
    var s2 := State(Created(now), now, [0], 1);
    var s3 := State(Row(Success, 1, None, Some(a), Some(200)), a, [], 1);
    var s4 := State(Row(Pending, 1, Some(a), Some(a), Some(200)), a, [], 0);
    hide Run, CanRun;
    assert [0][..0] + [0][1..] == [];
    FourSteps(Start(now), s1, s2, s3, s4, steps);
  }

  // ----- When overlapping shows -----

  /** Every attempt under way was started with a count the row had then, so with none above the count it has now. */
  predicate ReadsPast(s: State) {
    forall i | 0 <= i < |s.open| :: s.open[i] <= s.row.attempts
  }

  lemma {:induction false} RunKeepsReadsPast(s: State, steps: seq<Step>)
    requires CanRun(s, steps) && ReadsPast(s)
    ensures ReadsPast(Run(s, steps))
    decreases |steps|
  {
    if steps != [] {
      RunKeepsReadsPast(Do(s, steps[0]), steps[1..]);
    }
  }

  /** When the attempt that is being recorded should come again by the count of attempts there have been. */
  function ByCount(r: Row, o: Outcome, now: int): Option<int> {
    if Delivered(o) then None else NextAttemptAfter(r.attempts + 1, now)
  }

  /** In every run the schedule follows the count of attempts at a record if and only if the attempt succeeded, or no
      other one was recorded since it started, or it had started after the last delay was used up. */
  lemma ScheduleFollowsCountIff(now: int, steps: seq<Step>, i: nat, o: Outcome, later: int)
    requires CanRun(Start(now), steps) && CanDo(Run(Start(now), steps), Record(i, o, later))
    ensures var s := Run(Start(now), steps);
            Do(s, Record(i, o, later)).row.nextAt == ByCount(s.row, o, later) <==>
            Delivered(o) || s.open[i] == s.row.attempts || s.open[i] >= MAX_RETRIES
  {
    RunKeepsReadsPast(Start(now), steps);
    RecordedByCountIff(Run(Start(now), steps).row, Run(Start(now), steps).open[i], o, later);
  }

  lemma RecordedByCountIff(r: Row, seen: nat, o: Outcome, now: int)
    requires seen <= r.attempts
    ensures Recorded(r, seen, o, now).nextAt == ByCount(r, o, now) <==>
            Delivered(o) || seen == r.attempts || seen >= MAX_RETRIES
  {
  }

  /** What a step adds to the budget: the record of an attempt that another record has overtaken, and a step that takes
      the row back to pending. */
  function Extra(s: State, step: Step): nat
    requires CanDo(s, step)
  {
    (if step.Record? && s.open[step.i] != s.row.attempts then 1 else 0) +
    (if !s.row.status.Pending? && Do(s, step).row.status.Pending? then 1 else 0)
  }

  function Extras(s: State, steps: seq<Step>): nat
    requires CanRun(s, steps)
    decreases |steps|
  {
    if steps == [] then 0 else Extra(s, steps[0]) + Extras(Do(s, steps[0]), steps[1..])
  }

  predicate WithinBudget(s: State, extra: nat) {
    (s.row.status.Pending? ==> s.row.attempts <= MAX_RETRIES + extra) &&
    s.row.attempts <= MAX_RETRIES + 1 + extra &&
    (forall i | 0 <= i < |s.open| :: s.open[i] <= MAX_RETRIES + extra)
  }

  lemma StepKeepsWithinBudget(s: State, step: Step, extra: nat)
    requires CanDo(s, step) && WithinBudget(s, extra)
    ensures WithinBudget(Do(s, step), extra + Extra(s, step))
  {
  }

  lemma {:induction false} RunKeepsWithinBudget(s: State, steps: seq<Step>, extra: nat)
    requires CanRun(s, steps) && WithinBudget(s, extra)
    ensures WithinBudget(Run(s, steps), extra + Extras(s, steps))
    decreases |steps|
  {
    if steps != [] {
      StepKeepsWithinBudget(s, steps[0], extra);
      hide WithinBudget, Do, Extra;
      RunKeepsWithinBudget(Do(s, steps[0]), steps[1..], extra + Extra(s, steps[0]));
    }
  }

  /** However attempts, sweeps and manual retries overlap: a delivery is attempted at most six times, and once more for
      each attempt that another one overtook and each time the row went back to pending. */
  lemma OverlapBudget(now: int, steps: seq<Step>)
    requires CanRun(Start(now), steps)
    ensures Run(Start(now), steps).row.attempts <= MAX_RETRIES + 1 + Extras(Start(now), steps)
    ensures Serial(Start(now), steps) ==> Extras(Start(now), steps) == Revivals(Start(now), steps)
  {
    RunKeepsWithinBudget(Start(now), steps, 0);
    if Serial(Start(now), steps) {
      SerialExtras(Start(now), steps, 0);
    }
  }

  lemma {:induction false} SerialExtras(s: State, steps: seq<Step>, revived: nat)
    requires CanRun(s, steps) && Serial(s, steps) && Alone(s) && Budget(s.row, revived)
    ensures Extras(s, steps) == Revivals(s, steps)
    decreases |steps|
  {
    if steps != [] {
      StepKeepsBudget(s, steps[0], revived);
      StepExtra(s, steps[0]);
      var more := if steps[0].Update? && s.row.status.Failed? then 1 else 0;
      hide Budget, Do, CanDo, Extra, Alone;
      SerialExtras(Do(s, steps[0]), steps[1..], revived + more);
    }
  }

  lemma StepExtra(s: State, step: Step)
    requires CanDo(s, step) && Alone(s)
    ensures Extra(s, step) == if step.Update? && s.row.status.Failed? then 1 else 0
  {
  }

  predicate Begins(steps: seq<Step>) {
    exists i :: 0 <= i < |steps| && steps[i].Begin?
  }

  /** A delivered row stays delivered, and is never attempted again, if and only if no attempt and no manual retry is
      still under way on it: a retry that has passed its check puts it back, and so does an attempt that then fails. */
  lemma DeliveredIsFinalIff(s: State)
    requires s.row.status.Success?
    ensures (forall steps | CanRun(s, steps) :: Run(s, steps).row.status.Success?) <==> s.open == [] && s.checked == 0
    ensures (forall steps | CanRun(s, steps) :: !Begins(steps)) <==> s.open == [] && s.checked == 0
  {
    if s.open == [] && s.checked == 0 {
      forall steps | CanRun(s, steps) ensures steps == [] {
        NothingLeftToDo(s, steps);
      }
    } else {
      var some, all := Reattempted(s);
    }
  }

  lemma NothingLeftToDo(s: State, steps: seq<Step>)
    requires s.row.status.Success? && s.open == [] && s.checked == 0 && CanRun(s, steps)
    ensures steps == []
  {
  }

  /** The continuations that take a delivered row out of its state, and on to its next attempt. */
  lemma Reattempted(s: State) returns (some: seq<Step>, all: seq<Step>)
    requires s.row.status.Success? && (s.open != [] || s.checked > 0)
    ensures CanRun(s, some) && !Run(s, some).row.status.Success?
    ensures CanRun(s, all) && Begins(all)
  {
    var first := if s.checked > 0 then Update(s.clock) else Record(0, Threw, s.clock);
    var s1 := Do(s, first);
    some := [first];
    assert some[1..] == [];
    if s.checked > 0 {
      all := [first, Begin(s.clock)];
      assert all[1..] == [Begin(s.clock)] && all[1..][1..] == [];
    } else {
      all := [first, Check(s.clock), Update(s.clock), Begin(s.clock)];
      var s2 := Do(s1, Check(s.clock));
      var s3 := Do(s2, Update(s.clock));
      FourSteps(s, s1, s2, s3, Do(s3, Begin(s.clock)), all);
    }
    assert all[|all| - 1].Begin?;
  }

  // ----- The table and the sweep -----

  /** A delivery in the table; its id is its place, and places are in the order of creation. */
  datatype Delivery = Delivery(webhook: nat, row: Row)

  datatype RetryResult = Accepted(row: Row) | NotFound | Conflict

  /** The deliveries that are due, oldest first, from place `from` on. */
  function DueFrom(table: seq<Delivery>, now: int, from: nat): (ids: seq<nat>)
    requires from <= |table|
    ensures forall i | 0 <= i < |ids| :: from <= ids[i] < |table|
    ensures forall i, j | 0 <= i < j < |ids| :: ids[i] < ids[j]
    ensures forall k: nat :: k in ids <==> from <= k < |table| && Due(table[k].row, now)
    decreases |table| - from
  {
    if from == |table| then []
    else
      var rest := DueFrom(table, now, from + 1);
      if Due(table[from].row, now) then [from] + rest else rest
  }

  lemma NextDue(table: seq<Delivery>, now: int, i: nat)
    requires i < |table|
    ensures DueFrom(table, now, i)
            == (if Due(table[i].row, now) then [i] else []) + DueFrom(table, now, i + 1)
  {
  }

  lemma NoneDueAtTheEnd(table: seq<Delivery>, now: int)
    ensures DueFrom(table, now, |table|) == []
  {
  }

  const BATCH := 50

  function Batch(table: seq<Delivery>, now: int, limit: nat): (ids: seq<nat>)
    ensures |ids| <= limit && forall i | 0 <= i < |ids| :: ids[i] < |table|
    ensures forall i, j | 0 <= i < j < |ids| :: ids[i] < ids[j]
    ensures forall k: nat | k in ids :: k < |table| && Due(table[k].row, now)
  {
    var ids := DueFrom(table, now, 0);
    if |ids| <= limit then ids else ids[..limit]
  }

  lemma ScannedMore(table: seq<Delivery>, now: int, ids: seq<nat>, i: nat)
    requires i < |table| && DueFrom(table, now, 0) == ids + DueFrom(table, now, i)
    ensures DueFrom(table, now, 0)
            == (if Due(table[i].row, now) then ids + [i] else ids) + DueFrom(table, now, i + 1)
  {
    hide DueFrom, Due;
    NextDue(table, now, i);
  }

  lemma ScannedEnough(table: seq<Delivery>, now: int, limit: nat, ids: seq<nat>, i: nat)
    requires i <= |table| && |ids| <= limit && (i == |table| || |ids| == limit)
    requires DueFrom(table, now, 0) == ids + DueFrom(table, now, i)
    ensures ids == Batch(table, now, limit)
  {
    NoneDueAtTheEnd(table, now);
    hide DueFrom, Due;
    assert (ids + DueFrom(table, now, i))[..|ids|] == ids;
  }

  /** A due delivery is left out of the batch exactly when `limit` older ones are due. */
  lemma BatchTakesTheOldest(table: seq<Delivery>, now: int, limit: nat, k: nat)
    requires k < |table| && Due(table[k].row, now)
    ensures k in Batch(table, now, limit) <==> |DueFrom(table[..k], now, 0)| < limit
  {
    var ids := DueFrom(table, now, 0);
    DueSplits(table, now, k, 0);
    var older := DueFrom(table[..k], now, 0);
    assert ids == older + DueFrom(table, now, k);
    assert DueFrom(table, now, k)[0] == k;
    assert ids[|older|] == k;
    if |ids| > limit {
      if k in ids[..limit] {
        var i :| 0 <= i < limit && ids[..limit][i] == k;
        assert i == |older|;
      }
      if |older| < limit {
        assert ids[..limit][|older|] == k;
      }
    } else {
      assert k in ids;
    }
  }

  lemma {:induction false} DueSplits(table: seq<Delivery>, now: int, k: nat, from: nat)
    requires from <= k <= |table|
    ensures DueFrom(table, now, from) == DueFrom(table[..k], now, from) + DueFrom(table, now, k)
    decreases k - from
  {
    if from < k {
      DueSplits(table, now, k, from + 1);
    }
  }

  /** What one sweep makes of delivery `k`. */
  function Swept(table: seq<Delivery>, now: int, active: nat -> bool, outcome: nat -> Outcome, done: nat -> int,
                 k: nat): Delivery
    requires k < |table|
  {
    var d := table[k];
    if k in Batch(table, now, BATCH) && active(d.webhook)
    then d.(row := Recorded(d.row, d.row.attempts, outcome(k), done(k)))
    else d
  }

  datatype Sweep = Sweep(now: int, active: nat -> bool, outcome: nat -> Outcome, done: nat -> int)

  function SweptTable(table: seq<Delivery>, w: Sweep): (r: seq<Delivery>)
    ensures |r| == |table|
    ensures forall k: nat | k < |r| :: r[k] == Swept(table, w.now, w.active, w.outcome, w.done, k)
  {
    seq(|table|, k requires 0 <= k < |table| => Swept(table, w.now, w.active, w.outcome, w.done, k))
  }

  /** What happens to the table: sweeps, new deliveries, and manual retries of any delivery that is not delivered. */
  datatype Happening = Sweeps(sweep: Sweep) | Creates(webhook: nat, at: int) | Retries(id: nat, at: int)

  function Time(h: Happening): int {
    if h.Sweeps? then h.sweep.now else h.at
  }

  function Happens(table: seq<Delivery>, h: Happening): (r: seq<Delivery>)
    ensures |r| >= |table|
  {
    match h
    case Sweeps(w) => SweptTable(table, w)
    case Creates(webhook, now) => table + [Delivery(webhook, Created(now))]
    case Retries(id, now) =>
      if id < |table| && !table[id].row.status.Success?
      then table[id := table[id].(row := Requeued(table[id].row, now))] else table
  }

  function HappenAll(table: seq<Delivery>, hs: seq<Happening>): (r: seq<Delivery>)
    ensures |r| >= |table|
    decreases |hs|
  {
    if hs == [] then table else HappenAll(Happens(table, hs[0]), hs[1..])
  }

  /** In time, and no webhook of `idle` is active at any sweep; the others may change as they like. */
  predicate IdleThroughout(now: int, idle: set<nat>, hs: seq<Happening>)
    decreases |hs|
  {
    hs == [] ||
    (now <= Time(hs[0]) && (hs[0].Sweeps? ==> forall id | id in idle :: !hs[0].sweep.active(id)) &&
     IdleThroughout(Time(hs[0]), idle, hs[1..]))
  }

  predicate IsStuck(d: Delivery, now: int, idle: set<nat>) {
    Due(d.row, now) && d.webhook in idle
  }

  /** The places before `m` whose delivery is due and belongs to a webhook of `idle`. */
  function Stuck(table: seq<Delivery>, now: int, idle: set<nat>, m: nat): (ids: seq<nat>)
    requires m <= |table|
  {
    if m == 0 then []
    else
      var rest := Stuck(table, now, idle, m - 1);
      if IsStuck(table[m - 1], now, idle) then rest + [m - 1] else rest
  }

  lemma {:induction false} StuckAreDue(table: seq<Delivery>, now: int, idle: set<nat>, m: nat)
    requires m <= |table|
    ensures |Stuck(table, now, idle, m)| <= |DueFrom(table[..m], now, 0)|
  {
    if m > 0 {
      assert IsStuck(table[m - 1], now, idle) ==> Due(table[m - 1].row, now);
      hide Due, DueFrom, IsStuck;
      StuckAreDue(table, now, idle, m - 1);
      OneMorePlace(table[..m], now);
      assert table[..m][..m - 1] == table[..m - 1];
    }
  }

  lemma OneMorePlace(table: seq<Delivery>, now: int)
    requires table != []
    ensures var m := |table| - 1;
            |DueFrom(table, now, 0)| == |DueFrom(table[..m], now, 0)| + if Due(table[m].row, now) then 1 else 0
  {
    var m := |table| - 1;
    DueSplits(table, now, m, 0);
    NextDue(table, now, m);
    NoneDueAtTheEnd(table, now);
  }

  /** What is stuck stays stuck: due stays due, a sweep skips it, and a manual retry only makes it due again. */
  lemma StuckStays(table: seq<Delivery>, h: Happening, now: int, idle: set<nat>, k: nat)
    requires k < |table| && now <= Time(h) && IsStuck(table[k], now, idle)
    requires h.Sweeps? ==> forall id | id in idle :: !h.sweep.active(id)
    ensures IsStuck(Happens(table, h)[k], Time(h), idle)
  {
    hide Batch;
  }

  lemma {:induction false} NoFewerStuck(table: seq<Delivery>, h: Happening, now: int, idle: set<nat>, m: nat)
    requires m <= |table| && now <= Time(h)
    requires h.Sweeps? ==> forall id | id in idle :: !h.sweep.active(id)
    ensures |Stuck(Happens(table, h), Time(h), idle, m)| >= |Stuck(table, now, idle, m)|
  {
    if m > 0 {
      NoFewerStuck(table, h, now, idle, m - 1);
      if IsStuck(table[m - 1], now, idle) {
        StuckStays(table, h, now, idle, m - 1);
      }
    }
  }

  lemma {:induction false} LaterMoreStuck(table: seq<Delivery>, now: int, later: int, idle: set<nat>, m: nat)
    requires m <= |table| && now <= later
    ensures |Stuck(table, later, idle, m)| >= |Stuck(table, now, idle, m)|
  {
    if m > 0 {
      LaterMoreStuck(table, now, later, idle, m - 1);
    }
  }

  lemma BacklogStopsOneSweep(table: seq<Delivery>, w: Sweep, idle: set<nat>, m: nat, k: nat)
    requires m <= k < |table| && |Stuck(table, w.now, idle, m)| >= BATCH
    ensures SweptTable(table, w)[k] == table[k]
  {
    StuckAreDue(table, w.now, idle, m);
    DueSplits(table[..k], w.now, m, 0);
    assert table[..k][..m] == table[..m];
    if Due(table[k].row, w.now) {
      BatchTakesTheOldest(table, w.now, BATCH, k);
    }
  }

  lemma BacklogStopsOneStep(table: seq<Delivery>, h: Happening, now: int, idle: set<nat>, m: nat, k: nat)
    requires m <= k < |table| && |Stuck(table, now, idle, m)| >= BATCH && now <= Time(h)
    ensures Happens(table, h)[k].row.attempts == table[k].row.attempts
  {
    if h.Sweeps? {
      LaterMoreStuck(table, now, h.sweep.now, idle, m);
      BacklogStopsOneSweep(table, h.sweep, idle, m, k);
    }
  }

  /** Fifty due deliveries of webhooks that stay inactive hold up every younger delivery as long as they do: whatever
      else is created, retried by hand or switched on and off, no sweep attempts one, for a skipped delivery stays due
      and stays the oldest. */
  lemma {:induction false} InactiveBacklogStopsAllSweeps(table: seq<Delivery>, idle: set<nat>, now: int,
                                                         hs: seq<Happening>, m: nat, k: nat)
    requires m <= k < |table| && |Stuck(table, now, idle, m)| >= 50 && IdleThroughout(now, idle, hs)
    ensures HappenAll(table, hs)[k].row.attempts == table[k].row.attempts
    decreases |hs|
  {
    if hs != [] {
      BacklogStopsOneStep(table, hs[0], now, idle, m, k);
      NoFewerStuck(table, hs[0], now, idle, m);
      hide Stuck, Happens;
      InactiveBacklogStopsAllSweeps(Happens(table, hs[0]), idle, Time(hs[0]), hs[1..], m, k);
    }
  }

  /** Once a webhook is active at a sweep, its delivery is attempted exactly when fewer than fifty older ones are
      due. */
  lemma ReactivationFreesTheBacklog(table: seq<Delivery>, w: Sweep, k: nat)
    requires k < |table| && Due(table[k].row, w.now) && w.active(table[k].webhook)
    ensures SweptTable(table, w)[k] != table[k] <==> |DueFrom(table[..k], w.now, 0)| < 50
  {
    BatchTakesTheOldest(table, w.now, BATCH, k);
  }

  class WebhooksService {
    var table: seq<Delivery>

    constructor ()
      ensures table == []
    {
      table := [];
    }

    method Create(webhook: nat, now: int) returns (id: nat)
      modifies this
      ensures id == |old(table)| && table == old(table) + [Delivery(webhook, Created(now))]
    {
      id := |table|;
      table := table + [Delivery(webhook, Created(now))];
    }

    method FindDuePending(now: int, limit: nat) returns (ids: seq<nat>)
      ensures ids == Batch(table, now, limit)
    {
      hide DueFrom, Due, Batch;
      ids := [];
      var i := 0;
      while i < |table| && |ids| < limit
        invariant i <= |table| && |ids| <= limit
        invariant DueFrom(table, now, 0) == ids + DueFrom(table, now, i)
      {
        ScannedMore(table, now, ids, i);
        if Due(table[i].row, now) {
          ids := ids + [i];
        }
        i := i + 1;
      }
      ScannedEnough(table, now, limit, ids, i);
    }

    /** One attempt on delivery `id`, started with the count `seen`, comes back at `now`. */
    method AttemptDelivery(id: nat, seen: nat, o: Outcome, now: int)
      requires id < |table|
      modifies this
      ensures table == old(table)[id := old(table[id]).(row := Recorded(old(table[id].row), seen, o, now))]
    {
      var r := table[id].row;
      var next: Option<int> := None;
      var status := Success;
      if !Delivered(o) {
        next := NextAttemptAfter(seen + 1, now);
        status := if next.Some? then Pending else Failed;
      }
      var code := if o.Responded? then Some(o.code) else None;
      var delivered := if Delivered(o) then Some(now) else r.deliveredAt;
      table := table[id := table[id].(row := Row(status, r.attempts + 1, next, delivered, code))];
    }

    /** The sweep: the batch is read once, then each delivery of a webhook that is still active is attempted with the
        count that was read. `done(k)` is when the attempt on delivery `k` comes back. */
    method SweepRetries(now: int, active: nat -> bool, outcome: nat -> Outcome, done: nat -> int)
      modifies this
      ensures |table| == |old(table)|
      ensures forall k: nat | k < |table| :: table[k] == Swept(old(table), now, active, outcome, done, k)
    {
      hide Due, Recorded, NextAttemptAfter, Delivered;
      ghost var before := table;
      var batch := FindDuePending(now, BATCH);
      var rows := table;
      var n := 0;
      while n < |batch|
        invariant n <= |batch| && |table| == |before|
        invariant forall k: nat | k < |table| ::
                    table[k] == if k in batch[..n] then Swept(before, now, active, outcome, done, k) else before[k]
      {
        var id := batch[n];
        assert id !in batch[..n];
        assert batch[..n + 1] == batch[..n] + [id];
        assert id in batch;
        if active(rows[id].webhook) {
          AttemptDelivery(id, rows[id].row.attempts, outcome(id), done(id));
        }
        n := n + 1;
      }
      assert batch[..n] == batch;
    }

    /** A manual retry with nothing else running. `known` are the webhooks that exist. */
    method RetryDelivery(known: set<nat>, webhook: nat, id: nat, now: int) returns (r: RetryResult)
      modifies this
      ensures r.NotFound? <==> webhook !in known || id >= |old(table)| || old(table)[id].webhook != webhook
      ensures r.Conflict? <==> !r.NotFound? && old(table)[id].row.status.Success?
      ensures if r.Accepted?
              then r.row == old(table)[id].row.(status := Pending, nextAt := Some(now)) &&
                   table == old(table)[id := Delivery(webhook, r.row)] && Due(r.row, now)
              else table == old(table)
    {
      if webhook !in known || id >= |table| || table[id].webhook != webhook {
        return NotFound;
      }
      if table[id].row.status.Success? {
        return Conflict;
      }
      r := Accepted(Requeued(table[id].row, now));
      table := table[id := table[id].(row := r.row)];
    }
  }
}
