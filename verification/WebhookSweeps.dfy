/** The sweep against the machine of one delivery: what happens to the table is, place by place, a run of attempts and
    manual retries on that delivery, so what holds of every run holds of every sweep. */
module WebhookSweeps {
  import opened Options
  import opened Webhooks

  /** What a happening is to the delivery at place `k`. */
  function StepsAt(table: seq<Delivery>, h: Happening, k: nat): seq<Step>
    requires k < |table|
  {
    match h
    case Sweeps(w) =>
      if k in Batch(table, w.now, 50) && w.active(table[k].webhook)
      then [Begin(w.now), Record(0, w.outcome(k), w.done(k))] else []
    case Creates(_, _) => []
    case Retries(id, at) =>
      if id == k && !table[k].row.status.Success? then [Check(at), Update(at)] else []
  }

  function StepsOf(table: seq<Delivery>, hs: seq<Happening>, k: nat): seq<Step>
    requires k < |table|
    decreases |hs|
  {
    if hs == [] then [] else StepsAt(table, hs[0], k) + StepsOf(Happens(table, hs[0]), hs[1..], k)
  }

  /** When the delivery has been seen to. */
  function Ended(table: seq<Delivery>, h: Happening, k: nat, clock: int): int
    requires k < |table|
  {
    if StepsAt(table, h, k) == [] then clock else if h.Sweeps? then h.sweep.done(k) else h.at
  }

  /** On the delivery at place `k` one thing happens after another, each in time. */
  predicate InTurn(table: seq<Delivery>, hs: seq<Happening>, k: nat, clock: int)
    requires k < |table|
    decreases |hs|
  {
    hs == [] ||
    ((StepsAt(table, hs[0], k) != [] ==> clock <= Time(hs[0]) <= Ended(table, hs[0], k, clock)) &&
     InTurn(Happens(table, hs[0]), hs[1..], k, Ended(table, hs[0], k, clock)))
  }

  function AtRest(row: Row, clock: int): State {
    State(row, clock, [], 0)
  }

  lemma TwoStepsThen(s: State, x: Step, y: Step, rest: seq<Step>)
    requires CanDo(s, x) && CanDo(Do(s, x), y) && CanRun(Do(Do(s, x), y), rest)
    requires s.open == [] && s.checked == 0 && !y.Begin? && !y.Check? && Serial(Do(Do(s, x), y), rest)
    ensures CanRun(s, [x, y] + rest) && Serial(s, [x, y] + rest)
    ensures Run(s, [x, y] + rest) == Run(Do(Do(s, x), y), rest)
  {
    hide CanDo, Do;
    var s1 := Do(s, x);
    assert ([x, y] + rest)[1..] == [y] + rest && ([y] + rest)[1..] == rest;
    assert CanRun(s1, [y] + rest) && Run(s1, [y] + rest) == Run(Do(s1, y), rest) && Serial(s1, [y] + rest);
  }

  /** One happening takes the delivery through its steps, from rest to rest. */
  lemma OneHappening(table: seq<Delivery>, h: Happening, k: nat, clock: int)
    requires k < |table| && InTurn(table, [h], k, clock)
    ensures var s, steps := AtRest(table[k].row, clock), StepsAt(table, h, k);
            var t := AtRest(Happens(table, h)[k].row, Ended(table, h, k, clock));
            if steps == [] then t == s
            else
              && |steps| == 2 && CanDo(s, steps[0]) && CanDo(Do(s, steps[0]), steps[1])
              && Do(Do(s, steps[0]), steps[1]) == t && !steps[1].Begin? && !steps[1].Check?
  {
    var s, steps := AtRest(table[k].row, clock), StepsAt(table, h, k);
    if h.Sweeps? && steps != [] {
      assert [s.row.attempts][..0] + [s.row.attempts][1..] == [];
      hide Batch, Recorded;
    }
  }

  /** Whatever happens to the table: the row at place `k` is what the machine of one delivery makes of it in a serial
      run, the attempt of a sweep being a `Begin` with the count in the row and the `Record` of its outcome. */
  lemma {:induction false} DeliveryRuns(table: seq<Delivery>, hs: seq<Happening>, k: nat, clock: int)
    requires k < |table| && InTurn(table, hs, k, clock)
    ensures var s, steps := AtRest(table[k].row, clock), StepsOf(table, hs, k);
            && CanRun(s, steps) && Serial(s, steps)
            && Run(s, steps).row == HappenAll(table, hs)[k].row
    decreases |hs|
  {
    if hs != [] {
      var s, first := AtRest(table[k].row, clock), StepsAt(table, hs[0], k);
      var next, later := Happens(table, hs[0]), Ended(table, hs[0], k, clock);
      assert InTurn(next, [], k, later);
      assert InTurn(table, [hs[0]], k, clock) by {
        assert [hs[0]][1..] == [];
      }
      OneHappening(table, hs[0], k, clock);
      DeliveryRuns(next, hs[1..], k, later);
      var rest := StepsOf(next, hs[1..], k);
      hide CanDo, Do, Happens, StepsAt, Ended, InTurn;
      if first == [] {
        assert StepsOf(table, hs, k) == rest;
      } else {
        TwoStepsThen(s, first[0], first[1], rest);
        assert first == [first[0], first[1]];
      }
    }
  }

  // ----- What follows for sweeps -----

  /** A sweep keeps the budget of every delivery, whenever its attempts come back. */
  lemma SweepKeepsBudget(table: seq<Delivery>, w: Sweep, k: nat, revived: nat)
    requires k < |table| && Budget(table[k].row, revived)
    ensures Budget(SweptTable(table, w)[k].row, revived)
  {
    if k in Batch(table, w.now, BATCH) {
      hide Batch;
      RecordedOutcome(table[k].row, table[k].row.attempts, w.outcome(k), w.done(k));
    }
  }

  /** How often the delivery is requeued from failed. */
  function Requeues(table: seq<Delivery>, hs: seq<Happening>, k: nat): nat
    requires k < |table|
    decreases |hs|
  {
    if hs == [] then 0
    else
      (if hs[0].Retries? && hs[0].id == k && table[k].row.status.Failed? then 1 else 0) +
      Requeues(Happens(table, hs[0]), hs[1..], k)
  }

  /** So over all that happens to a table, no delivery is attempted more than six times and once more for each requeue
      from failed, and a delivered one is never touched again. */
  lemma {:induction false} TableKeepsBudget(table: seq<Delivery>, hs: seq<Happening>, k: nat, revived: nat)
    requires k < |table| && Budget(table[k].row, revived)
    ensures Budget(HappenAll(table, hs)[k].row, revived + Requeues(table, hs, k))
    ensures HappenAll(table, hs)[k].row.attempts <= 6 + revived + Requeues(table, hs, k)
    ensures table[k].row.status.Success? ==> HappenAll(table, hs)[k] == table[k]
    decreases |hs|
  {
    if hs != [] {
      if hs[0].Sweeps? {
        SweepKeepsBudget(table, hs[0].sweep, k, revived);
      }
      var more := if hs[0].Retries? && hs[0].id == k && table[k].row.status.Failed? then 1 else 0;
      assert Budget(Happens(table, hs[0])[k].row, revived + more);
      TableKeepsBudget(Happens(table, hs[0]), hs[1..], k, revived + more);
    }
  }

  predicate NotRetried(hs: seq<Happening>, k: nat) {
    forall i | 0 <= i < |hs| :: hs[i].Retries? ==> hs[i].id != k
  }

  lemma {:induction false} NoChecks(table: seq<Delivery>, hs: seq<Happening>, k: nat)
    requires k < |table| && NotRetried(hs, k)
    ensures NoRetry(StepsOf(table, hs, k))
    decreases |hs|
  {
    if hs != [] {
      assert NotRetried(hs[1..], k);
      NoChecks(Happens(table, hs[0]), hs[1..], k);
      assert forall i | 0 <= i < |StepsAt(table, hs[0], k)| :: !StepsAt(table, hs[0], k)[i].Check?;
    }
  }

  /** A new delivery that nobody retries by hand is given up by the sweeps only after its sixth attempt, which is
      recorded no earlier than 24 hours after its first, however late the sweeps come. */
  lemma SweepsGiveUpAfterADay(table: seq<Delivery>, hs: seq<Happening>, k: nat, created: int)
    requires k < |table| && table[k].row == Created(created) && InTurn(table, hs, k, created) && NotRetried(hs, k)
    requires HappenAll(table, hs)[k].row.status.Failed?
    ensures HappenAll(table, hs)[k].row.attempts == 6
    ensures var steps := StepsOf(table, hs, k);
            && CanRun(Start(created), steps) && FirstRecord(steps).Some?
            && Run(Start(created), steps).clock >= FirstRecord(steps).value + 86_400_000
  {
    DeliveryRuns(table, hs, k, created);
    NoChecks(table, hs, k);
    NotGivenUpWithinADay(created, StepsOf(table, hs, k));
    DelaysTakeADay();
  }
}
