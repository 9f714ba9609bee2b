/** The per-stream session as a transition system. One operation is the code that runs between two awaits:
    a public call, or the resumption of the pump (or of a waiting `stop`) at one of its awaits. */
module Sessions {

  datatype Event = Event(id: string, streamId: string, body: string)

  datatype Status = Idle | Running | Draining | Stopped | Errored

  /** Where the pump is suspended. `failures` counts the publish calls that already failed for this event. */
  datatype Pump =
    | Resting
    | Publishing(event: Event, failures: nat)
    | BackingOff(event: Event, failures: nat)
    | DeadLettering(event: Event, failures: nat)

  datatype Outcome = Published | DeadLettered

  /** `tries` is the number of publish calls made for the event. */
  datatype Settled = Settled(event: Event, outcome: Outcome, tries: nat)

  datatype Config = Config(maxQueueDepth: nat, maxRetries: nat)

  /** `stoppers` counts `stop()` calls polling for the pump to rest. The last four fields are history:
      nothing in the session reads them. */
  datatype State = State(
    cfg: Config,
    status: Status,
    queue: seq<Event>,
    pump: Pump,
    stoppers: nat,
    accepted: seq<Event>,
    settled: seq<Settled>,
    dropped: seq<Event>,
    failed: bool)

  function Fresh(cfg: Config): State {
    State(cfg, Idle, [], Resting, 0, [], [], [], false)
  }

  predicate Serving(status: Status) {
    status.Running? || status.Draining?
  }

  predicate Terminal(status: Status) {
    status.Stopped? || status.Errored?
  }

  datatype Op =
    | Start
    | Enqueue(event: Event)
    | Stop
    | StopPolls
    | Fail
    | PublishSucceeds
    | PublishFails
    | BackoffEnds
    | DeadLetterEnds

  predicate IsPumpOp(op: Op) {
    op.PublishSucceeds? || op.PublishFails? || op.BackoffEnds? || op.DeadLetterEnds?
  }

  /** Public calls may come at any time; a resumption only where something is suspended. */
  predicate Enabled(st: State, op: Op) {
    match op
    case Start => true
    case Enqueue(_) => true
    case Stop => true
    case Fail => true
    case StopPolls => st.stoppers > 0
    case PublishSucceeds => st.pump.Publishing?
    case PublishFails => st.pump.Publishing?
    case BackoffEnds => st.pump.BackingOff?
    case DeadLetterEnds => st.pump.DeadLettering?
  }

  /** The head of the pump loop: take the next event, or leave the loop. */
  function NextEvent(st: State): State {
    if st.queue != [] && Serving(st.status)
    then st.(queue := st.queue[1..], pump := Publishing(st.queue[0], 0))
    else st.(pump := Resting)
  }

  /** `void this.pump()`: a no-op while a pump is already active. */
  function KickPump(st: State): State {
    if st.pump.Resting? then NextEvent(st) else st
  }

  predicate Accepts(st: State) {
    st.status.Running? && |st.queue| < st.cfg.maxQueueDepth
  }

  function Settle(st: State, outcome: Outcome, tries: nat): State
    requires !st.pump.Resting?
  {
    NextEvent(st.(settled := st.settled + [Settled(st.pump.event, outcome, tries)]))
  }

  function Apply(st: State, op: Op): State
    requires Enabled(st, op)
  {
    match op
    case Start =>
      if st.status.Idle? then KickPump(st.(status := Running)) else st
    case Enqueue(e) =>
      if Accepts(st) then KickPump(st.(queue := st.queue + [e], accepted := st.accepted + [e])) else st
    case Stop =>
      if Terminal(st.status) then st
      else if st.pump.Resting? then st.(status := Stopped)
      else st.(status := if st.status.Running? then Draining else st.status, stoppers := st.stoppers + 1)
    case StopPolls =>
      if st.pump.Resting? then st.(status := Stopped, stoppers := st.stoppers - 1) else st
    case Fail =>
      st.(queue := [], dropped := st.dropped + st.queue, status := Errored, failed := true)
    case PublishSucceeds =>
      Settle(st, Published, st.pump.failures + 1)
    case PublishFails =>
      var failures := st.pump.failures + 1;
      st.(pump := if failures > st.cfg.maxRetries then DeadLettering(st.pump.event, failures)
                  else BackingOff(st.pump.event, failures))
    case BackoffEnds =>
      st.(pump := Publishing(st.pump.event, st.pump.failures))
    case DeadLetterEnds =>
      Settle(st, DeadLettered, st.pump.failures)
  }

  // ----- The invariant -----

  function EventsOf(settled: seq<Settled>): (events: seq<Event>)
    ensures |events| == |settled|
  {
    seq(|settled|, i requires 0 <= i < |settled| => settled[i].event)
  }

  function InFlight(pump: Pump): seq<Event> {
    if pump.Resting? then [] else [pump.event]
  }

  predicate PumpWithinBudget(pump: Pump, maxRetries: nat) {
    match pump
    case Resting => true
    case Publishing(_, failures) => failures <= maxRetries
    case BackingOff(_, failures) => 1 <= failures <= maxRetries
    case DeadLettering(_, failures) => failures == maxRetries + 1
  }

  predicate TriesWithinBudget(s: Settled, maxRetries: nat) {
    1 <= s.tries <= maxRetries + 1 && (s.outcome.DeadLettered? ==> s.tries == maxRetries + 1)
  }

  /** Nothing is lost and nothing is reordered: what was accepted is what was settled, then what is in
      flight, then what is queued, then what `fail` threw away. */
  predicate Accounted(st: State) {
    st.accepted == EventsOf(st.settled) + InFlight(st.pump) + st.queue + st.dropped
  }

  /** No lost wakeup: an event waits in the queue only while a pump is active and will take it. */
  predicate NoLostWakeup(st: State) {
    st.queue != [] ==> Serving(st.status) && !st.pump.Resting?
  }

  predicate Valid(st: State) {
    && Accounted(st)
    && NoLostWakeup(st)
    && |st.queue| <= st.cfg.maxQueueDepth
    && PumpWithinBudget(st.pump, st.cfg.maxRetries)
    && (forall i | 0 <= i < |st.settled| :: TriesWithinBudget(st.settled[i], st.cfg.maxRetries))
    && (st.status.Idle? ==> st.accepted == [])
    && (st.status.Stopped? ==> st.pump.Resting?)
    && (st.dropped != [] ==> st.failed)
    && (st.failed ==> Terminal(st.status))
    && (st.status.Errored? ==> st.failed)
  }

  lemma FreshIsValid(cfg: Config)
    ensures Valid(Fresh(cfg))
  {
  }

  /** Settling the event in flight and taking the next one moves both one place along the accepted order. */
  lemma SettleKeepsValid(st: State, outcome: Outcome, tries: nat)
    requires Valid(st) && !st.pump.Resting?
    requires TriesWithinBudget(Settled(st.pump.event, outcome, tries), st.cfg.maxRetries)
    ensures Valid(Settle(st, outcome, tries))
  {
    var entry := Settled(st.pump.event, outcome, tries);
    assert EventsOf(st.settled + [entry]) == EventsOf(st.settled) + [st.pump.event];
    if st.queue != [] {
      assert st.queue == [st.queue[0]] + st.queue[1..];
    }
    assert Accounted(Settle(st, outcome, tries));
  }

  lemma PumpBudget(st: State)
    requires Valid(st)
    ensures PumpWithinBudget(st.pump, st.cfg.maxRetries)
  {
  }

  lemma EnqueueKeepsValid(st: State, e: Event)
    requires Valid(st)
    ensures Valid(Apply(st, Enqueue(e)))
  {
    hide EventsOf, TriesWithinBudget;
    if Accepts(st) && st.pump.Resting? {
      assert st.queue == [] && st.queue + [e] == [e];
    }
  }

  lemma SettlingKeepsValid(st: State, op: Op)
    requires Valid(st) && Enabled(st, op) && (op.PublishSucceeds? || op.DeadLetterEnds?)
    ensures Valid(Apply(st, op))
  {
    hide Settle, Valid, TriesWithinBudget, PumpWithinBudget;
    var outcome, tries := SettlingEntry(st, op);
    SettleKeepsValid(st, outcome, tries);
  }

  lemma SettlingEntry(st: State, op: Op) returns (outcome: Outcome, tries: nat)
    requires Valid(st) && Enabled(st, op) && (op.PublishSucceeds? || op.DeadLetterEnds?)
    ensures !st.pump.Resting? && Apply(st, op) == Settle(st, outcome, tries)
    ensures TriesWithinBudget(Settled(st.pump.event, outcome, tries), st.cfg.maxRetries)
  {
    PumpBudget(st);
    hide Settle, Valid;
    if op.PublishSucceeds? {
      outcome, tries := Published, st.pump.failures + 1;
    } else {
      outcome, tries := DeadLettered, st.pump.failures;
    }
  }

  lemma CallsKeepValid(st: State, op: Op)
    requires Valid(st) && Enabled(st, op) && (op.Start? || op.Stop? || op.StopPolls? || op.Fail?)
    ensures Valid(Apply(st, op))
  {
    hide Settle;
  }

  lemma RetriesKeepValid(st: State, op: Op)
    requires Valid(st) && Enabled(st, op) && (op.PublishFails? || op.BackoffEnds?)
    ensures Valid(Apply(st, op))
  {
    hide Settle, KickPump, EventsOf, TriesWithinBudget;
  }

  lemma StepKeepsValid(st: State, op: Op)
    requires Valid(st) && Enabled(st, op)
    ensures Valid(Apply(st, op))
  {
    hide Valid, Apply;
    match op
    case Enqueue(e) => EnqueueKeepsValid(st, e);
    case PublishSucceeds | DeadLetterEnds => SettlingKeepsValid(st, op);
    case PublishFails | BackoffEnds => RetriesKeepValid(st, op);
    case _ => CallsKeepValid(st, op);
  }

  // ----- Whole runs -----

  predicate Legal(st: State, ops: seq<Op>)
    decreases |ops|
  {
    ops == [] || (Enabled(st, ops[0]) && Legal(Apply(st, ops[0]), ops[1..]))
  }

  function Run(st: State, ops: seq<Op>): State
    requires Legal(st, ops)
    decreases |ops|
  {
    if ops == [] then st else Run(Apply(st, ops[0]), ops[1..])
  }

  lemma {:induction false} RunKeepsValid(st: State, ops: seq<Op>)
    requires Valid(st) && Legal(st, ops)
    ensures Valid(Run(st, ops)) && Run(st, ops).cfg == st.cfg
    decreases |ops|
  {
    if ops != [] {
      StepKeepsValid(st, ops[0]);
      RunKeepsValid(Apply(st, ops[0]), ops[1..]);
    }
  }

  /** From a fresh session, whatever is called and however the awaits resolve, every accepted event is
      settled, in flight, queued or dropped, in that order, and each settled one within its retry budget. */
  lemma EveryRunIsAccounted(cfg: Config, ops: seq<Op>)
    requires Legal(Fresh(cfg), ops)
    ensures var st := Run(Fresh(cfg), ops);
            && Accounted(st) && NoLostWakeup(st)
            && forall i | 0 <= i < |st.settled| :: TriesWithinBudget(st.settled[i], cfg.maxRetries)
  {
    FreshIsValid(cfg);
    RunKeepsValid(Fresh(cfg), ops);
  }

  /** Once a session has left `idle` and `running`, no run makes it accept another event. */
  lemma {:induction false} NothingAcceptedAfterRunning(st: State, ops: seq<Op>)
    requires Legal(st, ops) && !st.status.Idle? && !st.status.Running?
    ensures Run(st, ops).accepted == st.accepted
    ensures !Run(st, ops).status.Idle? && !Run(st, ops).status.Running?
    decreases |ops|
  {
    if ops != [] {
      NothingAcceptedAfterRunning(Apply(st, ops[0]), ops[1..]);
    }
  }

  /** From the call of `stop()` on, whatever else is called and however the awaits resolve, nothing is accepted. */
  lemma NothingAcceptedAfterStop(st: State, ops: seq<Op>)
    requires Valid(st) && Legal(Apply(st, Stop), ops)
    ensures Run(Apply(st, Stop), ops).accepted == st.accepted
    ensures !Run(Apply(st, Stop), ops).status.Idle? && !Run(Apply(st, Stop), ops).status.Running?
  {
    NothingAcceptedAfterRunning(Apply(st, Stop), ops);
  }

  /** A `stop()` that resolves (at once, or on a poll) in a run without `fail` leaves nothing unsettled. */
  lemma StopSettlesEverything(cfg: Config, ops: seq<Op>, last: Op)
    requires Legal(Fresh(cfg), ops) && Enabled(Run(Fresh(cfg), ops), last)
    requires last.Stop? || last.StopPolls?
    requires forall i | 0 <= i < |ops| :: ops[i] != Fail
    ensures var st := Apply(Run(Fresh(cfg), ops), last);
            st.status.Stopped? ==> st.accepted == EventsOf(st.settled)
  {
    FreshIsValid(cfg);
    RunKeepsValid(Fresh(cfg), ops);
    NeverFailed(Fresh(cfg), ops);
    StepKeepsValid(Run(Fresh(cfg), ops), last);
  }

  lemma {:induction false} NeverFailed(st: State, ops: seq<Op>)
    requires Legal(st, ops) && !st.failed
    requires forall i | 0 <= i < |ops| :: ops[i] != Fail
    ensures !Run(st, ops).failed
    decreases |ops|
  {
    if ops != [] {
      NeverFailed(Apply(st, ops[0]), ops[1..]);
    }
  }

  // ----- Draining terminates -----

  /** How many pump steps the event in flight can still take. */
  function PumpWork(pump: Pump, maxRetries: nat): nat
    requires PumpWithinBudget(pump, maxRetries)
  {
    match pump
    case Resting => 0
    case Publishing(_, failures) => 2 * (maxRetries - failures) + 2
    case BackingOff(_, failures) => 2 * (maxRetries - failures) + 3
    case DeadLettering(_, _) => 1
  }

  function PerEvent(cfg: Config): nat {
    2 * cfg.maxRetries + 2
  }

  function Work(st: State): nat
    requires Valid(st)
  {
    |st.queue| * PerEvent(st.cfg) + PumpWork(st.pump, st.cfg.maxRetries)
  }

  lemma OneLess(n: nat, k: nat)
    requires n > 0
    ensures n * k == (n - 1) * k + k
  {
  }

  lemma PumpStepDecreasesWork(st: State, op: Op)
    requires Valid(st) && Enabled(st, op) && IsPumpOp(op)
    ensures Valid(Apply(st, op)) && Work(Apply(st, op)) < Work(st)
  {
    StepKeepsValid(st, op);
    if st.queue != [] {
      OneLess(|st.queue|, PerEvent(st.cfg));
    }
  }

  ghost predicate PumpIsStuck(st: State) {
    forall op | IsPumpOp(op) :: !Enabled(st, op)
  }

  /** With no further `enqueue`, the pump takes at most `Work(st)` steps however often publishing fails, and
      the only place it can come to rest is an empty queue with every accepted event settled or dropped. */
  lemma {:induction false} DrainIsBounded(st: State, ops: seq<Op>)
    requires Valid(st) && Legal(st, ops) && forall i | 0 <= i < |ops| :: IsPumpOp(ops[i])
    ensures |ops| <= Work(st)
    ensures var end := Run(st, ops);
            PumpIsStuck(end) ==> end.queue == [] && end.accepted == EventsOf(end.settled) + end.dropped
    decreases |ops|
  {
    if ops == [] {
      assert !st.pump.Resting? ==> Enabled(st, PublishFails) || Enabled(st, BackoffEnds) || Enabled(st, DeadLetterEnds);
    } else {
      PumpStepDecreasesWork(st, ops[0]);
      DrainIsBounded(Apply(st, ops[0]), ops[1..]);
    }
  }

  lemma {:induction false} PumpingKeepsWaiting(st: State, ops: seq<Op>)
    requires Legal(st, ops) && forall i | 0 <= i < |ops| :: IsPumpOp(ops[i])
    ensures Run(st, ops).stoppers == st.stoppers && Run(st, ops).status == st.status
    ensures Run(st, ops).dropped == st.dropped && Run(st, ops).accepted == st.accepted
    decreases |ops|
  {
    if ops != [] {
      PumpingKeepsWaiting(Apply(st, ops[0]), ops[1..]);
    }
  }

  /** A `stop()` resolves at once exactly if the session has ended already or its pump rests. Otherwise it waits, and
      however often publishing fails: once the pump has come to rest, the next poll stops the session, and everything
      accepted before the call and not dropped by an earlier `fail` has been settled. */
  lemma StopDrains(st: State, ops: seq<Op>)
    requires Valid(st) && Legal(Apply(st, Stop), ops) && forall i | 0 <= i < |ops| :: IsPumpOp(ops[i])
    ensures Terminal(Apply(st, Stop).status) <==> Terminal(st.status) || st.pump.Resting?
    ensures var end := Run(Apply(st, Stop), ops);
            !Terminal(st.status) && !st.pump.Resting? ==>
              && Enabled(end, StopPolls)
              && (Apply(end, StopPolls).status.Stopped? <==> PumpIsStuck(end))
              && (PumpIsStuck(end) ==> st.accepted == EventsOf(end.settled) + st.dropped)
  {
    StepKeepsValid(st, Stop);
    var first := Apply(st, Stop);
    PumpingKeepsWaiting(first, ops);
    DrainIsBounded(first, ops);
    StuckIsResting(Run(first, ops));
  }

  lemma StuckIsResting(st: State)
    ensures PumpIsStuck(st) <==> st.pump.Resting?
  {
    assert !st.pump.Resting? ==> Enabled(st, PublishFails) || Enabled(st, BackoffEnds) || Enabled(st, DeadLetterEnds);
  }

  // ----- Every try is a call -----

  function Tries(settled: seq<Settled>): nat {
    if settled == [] then 0 else Tries(settled[..|settled| - 1]) + settled[|settled| - 1].tries
  }

  /** The publish calls made for the event in flight whose results are in. */
  function Failures(pump: Pump): nat {
    if pump.Resting? then 0 else pump.failures
  }

  function Calls(ops: seq<Op>): nat {
    if ops == [] then 0 else (if ops[0].PublishSucceeds? || ops[0].PublishFails? then 1 else 0) + Calls(ops[1..])
  }

  lemma OneMoreSettled(settled: seq<Settled>, s: Settled)
    ensures Tries(settled + [s]) == Tries(settled) + s.tries
  {
    assert (settled + [s])[..|settled|] == settled;
  }

  function TriesOf(st: State): nat {
    Tries(st.settled) + Failures(st.pump)
  }

  lemma StepCountsTries(st: State, op: Op)
    requires Enabled(st, op)
    ensures TriesOf(Apply(st, op)) == TriesOf(st) + if op.PublishSucceeds? || op.PublishFails? then 1 else 0
  {
    if !st.pump.Resting? {
      OneMoreSettled(st.settled, Settled(st.pump.event, Published, Failures(st.pump) + 1));
      OneMoreSettled(st.settled, Settled(st.pump.event, DeadLettered, Failures(st.pump)));
    }
    hide Tries;
  }

  /** The tries of the settled events and of the one in flight are, over any run, the publish calls that returned: none
      is forgotten when an event is dead-lettered, and none is made for an event that waits. */
  lemma {:induction false} TriesAreCalls(st: State, ops: seq<Op>)
    requires Legal(st, ops)
    ensures TriesOf(Run(st, ops)) == TriesOf(st) + Calls(ops)
    decreases |ops|
  {
    hide Apply, TriesOf;
    if ops != [] {
      StepCountsTries(st, ops[0]);
      TriesAreCalls(Apply(st, ops[0]), ops[1..]);
    }
  }

  // ----- Failure containment -----

  predicate Dead(st: State) {
    Terminal(st.status) && st.queue == []
  }

  lemma {:induction false} DeadSessionsSettleAtMostOneMore(st: State, ops: seq<Op>)
    requires Legal(st, ops) && Dead(st)
    ensures Dead(Run(st, ops))
    ensures EventsOf(st.settled) <= EventsOf(Run(st, ops).settled) <= EventsOf(st.settled) + InFlight(st.pump)
    decreases |ops|
  {
    if ops != [] {
      var st' := Apply(st, ops[0]);
      if !st.pump.Resting? {
        assert forall outcome, tries {:trigger Settled(st.pump.event, outcome, tries)} ::
          EventsOf(st.settled + [Settled(st.pump.event, outcome, tries)]) == EventsOf(st.settled) + [st.pump.event];
      }
      DeadSessionsSettleAtMostOneMore(st', ops[1..]);
    }
  }

  /** After `fail()` the event in flight is the only one that can still be published or dead-lettered, in
      every continuation, including those where `stop()` takes the session from errored to stopped. */
  lemma FailureIsContained(st: State, ops: seq<Op>)
    requires Legal(Apply(st, Fail), ops)
    ensures var final := Run(Apply(st, Fail), ops);
            && EventsOf(final.settled) <= EventsOf(st.settled) + InFlight(st.pump)
            && |final.settled| <= |st.settled| + 1
            && final.accepted == st.accepted
  {
    DeadSessionsSettleAtMostOneMore(Apply(st, Fail), ops);
    NothingAcceptedAfterRunning(Apply(st, Fail), ops);
  }

  /** An errored session without a waiting `stop` stays errored. */
  lemma {:induction false} ErroredStays(st: State, ops: seq<Op>)
    requires st.status.Errored? && st.stoppers == 0 && Legal(st, ops)
    ensures Run(st, ops).status.Errored? && Run(st, ops).stoppers == 0
    decreases |ops|
  {
    if ops != [] {
      ErroredStays(Apply(st, ops[0]), ops[1..]);
    }
  }

  /** A waiting `stop` can see the pump come to rest, and then stops the errored session. */
  lemma WaitingStopStops(st: State) returns (ops: seq<Op>)
    requires st.status.Errored? && st.stoppers > 0
    ensures Legal(st, ops) && Run(st, ops).status.Stopped?
  {
    match st.pump
    case Resting => ops := OneStep(st, StopPolls);
    case DeadLettering(_, _) =>
      ops := OneStep(Apply(st, DeadLetterEnds), StopPolls);
      ops := Before(st, DeadLetterEnds, ops);
    case Publishing(_, _) =>
      ops := OneStep(Apply(st, PublishSucceeds), StopPolls);
      ops := Before(st, PublishSucceeds, ops);
    case BackingOff(_, _) =>
      var st1 := Apply(st, BackoffEnds);
      ops := OneStep(Apply(st1, PublishSucceeds), StopPolls);
      ops := Before(st1, PublishSucceeds, ops);
      ops := Before(st, BackoffEnds, ops);
  }

  lemma OneStep(st: State, op: Op) returns (ops: seq<Op>)
    requires Enabled(st, op)
    ensures Legal(st, ops) && Run(st, ops) == Apply(st, op)
  {
    ops := [op];
    assert ops[1..] == [];
  }

  lemma Before(st: State, op: Op, rest: seq<Op>) returns (ops: seq<Op>)
    requires Enabled(st, op) && Legal(Apply(st, op), rest)
    ensures Legal(st, ops) && Run(st, ops) == Run(Apply(st, op), rest)
  {
    ops := [op] + rest;
    assert ops[1..] == rest;
    hide Apply;
  }

  /** `errored` is final exactly when no `stop` is waiting: some continuation ends stopped if and only if one is. */
  lemma ErroredIsFinalUnlessStopWaits(st: State)
    requires st.status.Errored?
    ensures (exists ops :: Legal(st, ops) && Run(st, ops).status.Stopped?) <==> st.stoppers > 0
  {
    if st.stoppers > 0 {
      var ops := WaitingStopStops(st);
    } else {
      forall ops | Legal(st, ops) ensures !Run(st, ops).status.Stopped? {
        ErroredStays(st, ops);
      }
    }
  }

  /** `errored` is not absorbing: a `stop()` that was already polling ends with an unconditional transition. */
  lemma ErroredCanBecomeStopped(e: Event)
    ensures var ops := [Start, Enqueue(e), Stop, Fail, PublishSucceeds];
            && Legal(Fresh(Config(1, 0)), ops) && Run(Fresh(Config(1, 0)), ops).status.Errored?
            && Enabled(Run(Fresh(Config(1, 0)), ops), StopPolls)
            && Apply(Run(Fresh(Config(1, 0)), ops), StopPolls).status.Stopped?
  {
    var s0 := Fresh(Config(1, 0));
    var s1 := Apply(s0, Start);
    var s2 := Apply(s1, Enqueue(e));
    var s3 := Apply(s2, Stop);
    var s4 := Apply(s3, Fail);
    var s5 := Apply(s4, PublishSucceeds);
    assert Run(s4, [PublishSucceeds]) == s5;
    assert Run(s3, [Fail, PublishSucceeds]) == Run(s4, [PublishSucceeds]);
    assert Run(s2, [Stop, Fail, PublishSucceeds]) == Run(s3, [Fail, PublishSucceeds]);
    assert Run(s1, [Enqueue(e), Stop, Fail, PublishSucceeds]) == Run(s2, [Stop, Fail, PublishSucceeds]);
    assert Run(s0, [Start, Enqueue(e), Stop, Fail, PublishSucceeds]) ==
           Run(s1, [Enqueue(e), Stop, Fail, PublishSucceeds]);
  }
}
