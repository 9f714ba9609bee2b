/** The session as the object the worker runs: mutable fields, public calls, and the pump with its loops. */
module StreamSessions {
  import opened Sessions

  /** What becomes of an event when publish call number `n` for it succeeds iff `verdict(event, n)`. */
  function FirstSuccess(event: Event, n: nat, maxRetries: nat, verdict: (Event, nat) -> bool): (s: Settled)
    requires 1 <= n <= maxRetries + 1
    ensures s.event == event && TriesWithinBudget(s, maxRetries) && s.tries >= n
    ensures s.outcome.Published? <==> verdict(event, s.tries)
    ensures forall k | n <= k < s.tries :: !verdict(event, k)
    decreases maxRetries + 1 - n
  {
    if verdict(event, n) then Settled(event, Published, n)
    else if n == maxRetries + 1 then Settled(event, DeadLettered, n)
    else FirstSuccess(event, n + 1, maxRetries, verdict)
  }

  function SettleAll(queue: seq<Event>, maxRetries: nat, verdict: (Event, nat) -> bool): seq<Settled> {
    seq(|queue|, i requires 0 <= i < |queue| => FirstSuccess(queue[i], 1, maxRetries, verdict))
  }

  lemma {:induction false} RunConcat(st: State, ops: seq<Op>, more: seq<Op>)
    requires Legal(st, ops) && Legal(Run(st, ops), more)
    ensures Legal(st, ops + more) && Run(st, ops + more) == Run(Run(st, ops), more)
    decreases |ops|
  {
    if ops == [] {
      assert ops + more == more;
    } else {
      assert (ops + more)[1..] == ops[1..] + more;
      RunConcat(Apply(st, ops[0]), ops[1..], more);
    }
  }

  lemma RunAppend(st: State, ops: seq<Op>, op: Op)
    requires Legal(st, ops) && Enabled(Run(st, ops), op)
    ensures Legal(st, ops + [op]) && Run(st, ops + [op]) == Apply(Run(st, ops), op)
  {
    assert [op][1..] == [];
    RunConcat(st, ops, [op]);
  }

  lemma SettleAllAppend(all: seq<Event>, k: nat, maxRetries: nat, verdict: (Event, nat) -> bool)
    requires k < |all|
    ensures SettleAll(all[..k + 1], maxRetries, verdict)
            == SettleAll(all[..k], maxRetries, verdict) + [FirstSuccess(all[k], 1, maxRetries, verdict)]
  {
    assert all[..k + 1] == all[..k] + [all[k]];
  }

  /** The pump after a failed call and its backoff. */
  function AfterFailure(pump: Pump, maxRetries: nat): Pump
    requires pump.Publishing?
  {
    if pump.failures + 1 > maxRetries then DeadLettering(pump.event, pump.failures + 1)
    else Publishing(pump.event, pump.failures + 1)
  }

  /** What an event becomes when the call under way succeeds or its dead-letter write is over. */
  function Ending(pump: Pump): Settled
    requires pump.Publishing? || pump.DeadLettering?
  {
    if pump.Publishing? then Settled(pump.event, Published, pump.failures + 1)
    else Settled(pump.event, DeadLettered, pump.failures)
  }

  function TriesLeft(pump: Pump, maxRetries: nat): nat {
    if pump.Publishing? && pump.failures <= maxRetries then maxRetries + 1 - pump.failures else 0
  }

  /** The retry loop is on its way to settle its event as `target`. */
  ghost predicate Heading(pump: Pump, target: Settled, maxRetries: nat, verdict: (Event, nat) -> bool) {
    if pump.Publishing?
    then pump.failures <= maxRetries && target == FirstSuccess(pump.event, pump.failures + 1, maxRetries, verdict)
    else pump.DeadLettering? && target == Ending(pump)
  }

  lemma HeadsAtFirst(pump: Pump, maxRetries: nat, verdict: (Event, nat) -> bool)
    requires pump.Publishing? && pump.failures == 0
    ensures Heading(pump, FirstSuccess(pump.event, 1, maxRetries, verdict), maxRetries, verdict)
  {
  }

  lemma HeadsOn(pump: Pump, target: Settled, maxRetries: nat, verdict: (Event, nat) -> bool)
    requires Heading(pump, target, maxRetries, verdict) && pump.Publishing? && !verdict(pump.event, pump.failures + 1)
    ensures Heading(AfterFailure(pump, maxRetries), target, maxRetries, verdict)
    ensures TriesLeft(AfterFailure(pump, maxRetries), maxRetries) < TriesLeft(pump, maxRetries)
  {
  }

  lemma HeadsAtLast(pump: Pump, target: Settled, maxRetries: nat, verdict: (Event, nat) -> bool)
    requires Heading(pump, target, maxRetries, verdict) && (pump.Publishing? ==> verdict(pump.event, pump.failures + 1))
    ensures (pump.Publishing? || pump.DeadLettering?) && Ending(pump) == target
  {
  }

  lemma OneOp(st: State, op: Op)
    requires Enabled(st, op)
    ensures Legal(st, [op]) && Run(st, [op]) == Apply(st, op)
  {
    hide Apply;
    assert [op][1..] == [];
  }

  lemma NothingYet(st: State, all: seq<Event>, maxRetries: nat, verdict: (Event, nat) -> bool)
    ensures Legal(st, []) && Run(st, []) == st && SettleAll(all[..0], maxRetries, verdict) == []
  {
  }

  class StreamSession {
    const cfg: Config
    var status: Status
    var queue: seq<Event>
    var processing: bool
    /** The local variables of the suspended pump. */
    var frame: Pump
    var stoppers: nat
    ghost var accepted: seq<Event>
    ghost var settled: seq<Settled>
    ghost var dropped: seq<Event>
    ghost var failed: bool

    constructor (cfg: Config)
      ensures Wf() && View() == Fresh(cfg)
    {
      this.cfg := cfg;
      status, queue, processing, frame, stoppers := Idle, [], false, Resting, 0;
      accepted, settled, dropped, failed := [], [], [], false;
    }

    ghost predicate Wf()
      reads this
    {
      processing == !frame.Resting?
    }

    ghost function View(): State
      reads this
    {
      State(cfg, status, queue, frame, stoppers, accepted, settled, dropped, failed)
    }

    method Start()
      requires Wf()
      modifies this
      ensures Wf() && View() == Apply(old(View()), Op.Start)
    {
      if status != Idle { return; }
      status := Running;
      Pump();
    }

    method Enqueue(e: Event) returns (ok: bool)
      requires Wf()
      modifies this
      ensures Wf() && View() == Apply(old(View()), Op.Enqueue(e))
      ensures ok <==> Accepts(old(View()))
    {
      if status != Running { return false; }
      if |queue| >= cfg.maxQueueDepth { return false; }
      queue := queue + [e];
      accepted := accepted + [e];
      if !processing { Pump(); }
      ok := true;
    }

    /** Runs up to the first poll; `resolved` says whether the promise is already settled. */
    method Stop() returns (resolved: bool)
      requires Wf()
      modifies this
      ensures Wf() && View() == Apply(old(View()), Op.Stop)
      ensures resolved <==> Terminal(status)
    {
      if status == Stopped || status == Errored { return true; }
      if status == Running { status := Draining; }
      if processing {
        stoppers := stoppers + 1;
        return false;
      }
      status := Stopped;
      resolved := true;
    }

    /** One turn of the `while (this.processing)` loop of a waiting `stop()`. */
    method StopPolls() returns (resolved: bool)
      requires Wf() && stoppers > 0
      modifies this
      ensures Wf() && View() == Apply(old(View()), Op.StopPolls)
      ensures resolved == !old(processing)
    {
      if processing { return false; }
      stoppers := stoppers - 1;
      status := Stopped;
      resolved := true;
    }

    method Fail()
      requires Wf()
      modifies this
      ensures Wf() && View() == Apply(old(View()), Op.Fail)
    {
      dropped := dropped + queue;
      queue := [];
      failed := true;
      status := Errored;
    }

    /** `pump()` up to its first await. */
    method Pump()
      requires Wf()
      modifies this
      ensures Wf() && View() == KickPump(old(View()))
    {
      if processing { return; }
      processing := true;
      LoopHead();
    }

    /** The condition of the outer loop; leaving it runs the `finally` block. */
    method LoopHead()
      modifies this
      ensures Wf() && View() == NextEvent(old(View()))
    {
      if |queue| > 0 && (status == Running || status == Draining) {
        frame := Publishing(queue[0], 0);
        queue := queue[1..];
        processing := true;
      } else {
        frame := Resting;
        processing := false;
      }
    }

    /** The awaited `publish` settles. */
    method PublishSettles(ok: bool)
      requires Wf() && frame.Publishing?
      modifies this
      ensures Wf() && View() == Apply(old(View()), if ok then PublishSucceeds else PublishFails)
    {
      if ok {
        settled := settled + [Settled(frame.event, Published, frame.failures + 1)];
        LoopHead();
        return;
      }
      var attempts := frame.failures + 1;
      if attempts > cfg.maxRetries {
        frame := DeadLettering(frame.event, attempts);
      } else {
        frame := BackingOff(frame.event, attempts);
      }
    }

    method BackoffEnds()
      requires Wf() && frame.BackingOff?
      modifies this
      ensures Wf() && View() == Apply(old(View()), Op.BackoffEnds)
    {
      frame := Publishing(frame.event, frame.failures);
    }

    /** The awaited dead-letter write settles; a failure there is logged and changes nothing. */
    method DeadLetterEnds()
      requires Wf() && frame.DeadLettering?
      modifies this
      ensures Wf() && View() == Apply(old(View()), Op.DeadLetterEnds)
    {
      settled := settled + [Settled(frame.event, DeadLettered, frame.failures)];
      LoopHead();
    }

    /** One failed publish call, with the backoff after it if there is one. */
    method FailOnce() returns (ghost ops: seq<Op>)
      requires Wf() && frame.Publishing?
      modifies this
      ensures Wf() && View() == old(View()).(pump := AfterFailure(old(frame), cfg.maxRetries))
      ensures Legal(old(View()), ops) && View() == Run(old(View()), ops)
    {
      ghost var first := View();
      PublishSettles(false);
      ops := [PublishFails];
      OneOp(first, PublishFails);
      if frame.BackingOff? {
        RunAppend(first, ops, Op.BackoffEnds);
        BackoffEnds();
        ops := ops + [Op.BackoffEnds];
      }
    }

    /** The publish call that succeeds, or the dead-letter write, settles the event. */
    method SettleNow() returns (ghost op: Op)
      requires Wf() && (frame.Publishing? || frame.DeadLettering?)
      modifies this
      ensures Wf() && View() == NextEvent(old(View()).(settled := old(settled) + [Ending(old(frame))]))
      ensures Enabled(old(View()), op) && View() == Apply(old(View()), op)
    {
      op := if frame.Publishing? then PublishSucceeds else Op.DeadLetterEnds;
      if frame.Publishing? {
        PublishSettles(true);
      } else {
        DeadLetterEnds();
      }
    }

    /** The inner loop: publish with retries, then settle and return to the head of the outer loop. */
    method PublishWithRetry(verdict: (Event, nat) -> bool) returns (ghost ops: seq<Op>)
      requires Wf() && frame.Publishing? && frame.failures == 0
      modifies this
      ensures Wf() && View() == NextEvent(old(View()).(settled := old(settled) +
                                  [FirstSuccess(old(frame.event), 1, cfg.maxRetries, verdict)]))
      ensures Legal(old(View()), ops) && View() == Run(old(View()), ops)
    {
      ghost var first, target := View(), FirstSuccess(frame.event, 1, cfg.maxRetries, verdict);
      ops := [];
      NothingYet(first, [], cfg.maxRetries, verdict);
      hide Run, Legal, FirstSuccess, AfterFailure, Heading, Apply, NextEvent;
      HeadsAtFirst(frame, cfg.maxRetries, verdict);
      while frame.Publishing? && !verdict(frame.event, frame.failures + 1)
        invariant Wf() && View() == first.(pump := frame)
        invariant Heading(frame, target, cfg.maxRetries, verdict)
        invariant Legal(first, ops) && View() == Run(first, ops)
        decreases TriesLeft(frame, cfg.maxRetries)
      {
        HeadsOn(frame, target, cfg.maxRetries, verdict);
        ghost var more := FailOnce();
        RunConcat(first, ops, more);
        ops := ops + more;
      }
      HeadsAtLast(frame, target, cfg.maxRetries, verdict);
      ghost var how := SettleNow();
      RunAppend(first, ops, how);
      ops := ops + [how];
    }

    /** The whole of `pump()` with both of its loops, when nothing else runs during its awaits. It is a legal
        run of pump steps, and it settles the queue in order, each event on its first successful try. */
    method PumpToEnd(verdict: (Event, nat) -> bool) returns (ghost ops: seq<Op>)
      requires Wf() && !processing && Serving(status)
      modifies this
      ensures Wf() && !processing && queue == [] && status == old(status)
      ensures settled == old(settled) + SettleAll(old(queue), cfg.maxRetries, verdict)
      ensures Legal(KickPump(old(View())), ops) && View() == Run(KickPump(old(View())), ops)
    {
      hide Run, Legal, Apply, SettleAll, FirstSuccess;
      ghost var all, first := queue, KickPump(View());
      ghost var done: nat := 0;
      ops := [];
      NothingYet(first, all, cfg.maxRetries, verdict);
      Pump();
      while processing
        invariant Wf() && status == old(status) && done <= |all|
        invariant processing ==> done < |all| && frame == Publishing(all[done], 0) && queue == all[done + 1..]
        invariant !processing ==> done == |all| && queue == []
        invariant settled == old(settled) + SettleAll(all[..done], cfg.maxRetries, verdict)
        invariant Legal(first, ops) && View() == Run(first, ops)
        decreases |all| - done
      {
        ghost var more := PublishWithRetry(verdict);
        RunConcat(first, ops, more);
        ops := ops + more;
        SettleAllAppend(all, done, cfg.maxRetries, verdict);
        done := done + 1;
      }
      assert all[..done] == all;
    }
  }
}
