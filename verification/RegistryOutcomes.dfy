/** What each step of a worker does to the maps, the timers and the connection, given the registry invariant. */
module RegistryOutcomes {
  import opened LockTable
  import opened Sessions
  import opened Workers
  import opened Registry
  import opened RegistryRuns
  import opened WorkerEffects

  /** A call that a worker sends carries its own name and a token of its own: a claim a new one, a renewal the one it
      holds, a release that of a session evicted before. */
  ghost predicate OwnCall(c: Call, w: Worker, w': Worker) {
    && c.statement.worker == w.cfg.workerId
    && match c.statement
       case Acquire(_, _, token, _) => token !in w.minted && token in w'.minted
       case Renew(s, _, token, _) => HoldsToken(w', s, token)
       case Release(s, _, token) => HoldsToken(w, s, token) && !HoldsToken(w', s, token)
       case ReleaseAll(_) => w'.phase.Drained?
  }

  /** At most one call is added to the connection, and it is the worker's own. */
  ghost predicate SendsOwn(w: Worker, w': Worker) {
    w'.requests == w.requests ||
    exists c :: w'.requests == w.requests + [c] && OwnCall(c, w, w')
  }

  lemma SendsOne(w: Worker, w': Worker, c: Call)
    requires w'.requests == w.requests + [c] && OwnCall(c, w, w')
    ensures SendsOwn(w, w')
  {
  }

  // ----- route -----

  lemma RouteSendsOwn(w: Worker, e: Event, token: Token, now: int, clock: int)
    requires CanDo(w, Route(e, token, now, clock))
    ensures SendsOwn(w, DoRoute(w, e, token, now, clock))
  {
    RouteOutcome(w, e, token, now, clock);
    if Claims(w, e.streamId) {
      ClaimIsOwn(w, e, token, now, clock);
      hide DoRoute, OwnCall;
      SendsOne(w, DoRoute(w, e, token, now, clock),
               Call(Acquire(e.streamId, w.cfg.workerId, token, clock + w.cfg.ttlMs), now));
    } else {
      assert w.requests + [] == w.requests;
    }
  }

  lemma ClaimIsOwn(w: Worker, e: Event, token: Token, now: int, clock: int)
    requires CanDo(w, Route(e, token, now, clock)) && Claims(w, e.streamId)
    ensures OwnCall(Call(Acquire(e.streamId, w.cfg.workerId, token, clock + w.cfg.ttlMs), now), w,
                    DoRoute(w, e, token, now, clock))
  {
  }

  // ----- The heartbeat -----

  /** A timer that fires always finds its token still held, gives up its slot and sends the renewal of that token. */
  lemma FireOutcome(w: Worker, id: TimerId, now: int, clock: int)
    requires Inv(w) && CanDo(w, Fire(id, now, clock))
    ensures var t := w.timers[id];
            var w' := DoFire(w, id, now, clock);
            && HoldsToken(w, t.stream, t.token)
            && w' == w.(timers := w.timers - {id}, heartbeats := w.heartbeats - {t.stream},
                        requests := w.requests +
                          [Call(Renew(t.stream, w.cfg.workerId, t.token, clock + w.cfg.ttlMs), now)])
  {
    hide Inv;
    TimerHolds(w, id);
  }

  lemma FireSendsOwn(w: Worker, id: TimerId, now: int, clock: int)
    requires Inv(w) && CanDo(w, Fire(id, now, clock))
    ensures SendsOwn(w, DoFire(w, id, now, clock))
  {
    hide Inv, DoFire;
    FireOutcome(w, id, now, clock);
    var t := w.timers[id];
    SendsOne(w, DoFire(w, id, now, clock), Call(Renew(t.stream, w.cfg.workerId, t.token, clock + w.cfg.ttlMs), now));
  }

  /** An answer other than a refusal re-arms one timer if the stream is still held, which is then under the renewed
      token, and otherwise changes nothing. */
  lemma RearmOutcome(w: Worker, now: int)
    requires Inv(w) && w.replies != [] && w.replies[0].call.statement.Renew? && w.replies[0].answer != No
    ensures var st := w.replies[0].call.statement;
            if st.stream in w.lockTokens
            then HoldsToken(w, st.stream, st.token)
                 && DoDeliver(w, now) ==
                    Taken(w).(timers := w.timers[w.nextTimer := Timer(st.stream, st.token, now + w.cfg.heartbeatMs)],
                              heartbeats := w.heartbeats[st.stream := w.nextTimer], nextTimer := w.nextTimer + 1)
            else DoDeliver(w, now) == Taken(w)
  {
    hide Inv;
    var st := w.replies[0].call.statement;
    assert DoDeliver(w, now) == ScheduleNext(Taken(w), st.stream, st.token, now);
    if st.stream in w.lockTokens {
      hide DoDeliver;
      RearmKeepsInv(w, now);
      ScheduleShape(Taken(w), st.stream, st.token, now);
    }
  }

  /** A refused renewal of a mapped stream: the session it was issued for is errored, the stream is unmapped with its
      token, and one release of that token is sent; nothing else changes. */
  lemma RefusalOutcome(w: Worker, now: int)
    requires Inv(w) && w.replies != [] && w.replies[0].call.statement.Renew? && w.replies[0].answer == No
    requires w.replies[0].call.statement.stream in w.sessions
    ensures var st := w.replies[0].call.statement;
            var s, sid := st.stream, w.sessions[st.stream];
            && sid in w.instances && w.instances[sid].token == st.token
            && var failed := Apply(w.instances[sid].session, Fail);
               && failed.status.Errored?
               && DoDeliver(w, now) ==
                  PutSession(Taken(w), sid, failed).(
                    sessions := w.sessions - {s}, lockTokens := w.lockTokens - {s}, released := w.released + [sid],
                    requests := w.requests + [Call(Release(s, w.cfg.workerId, st.token), now)])
  {
    hide Inv, InvWith, DoDeliver, StateListener, Apply;
    var st := w.replies[0].call.statement;
    var sid := RefusedSession(w);
    assert w.heartbeats - {st.stream} == w.heartbeats;
    RefusalShape(w, st.stream, now);
    EvictionShape(Taken(w), st.stream, Apply(w.instances[sid].session, Fail), now);
  }

  /** What the invariant says about the session of a stream whose renewal has just been answered. */
  lemma RefusedSession(w: Worker) returns (sid: SessionId)
    requires Inv(w) && w.replies != [] && w.replies[0].call.statement.Renew?
    requires w.replies[0].call.statement.stream in w.sessions
    ensures var st := w.replies[0].call.statement;
            && sid == w.sessions[st.stream] && sid in w.instances && HoldsToken(w, st.stream, st.token)
            && w.instances[sid].stream == st.stream && w.instances[sid].token == st.token
            && Serving(w.instances[sid].session.status) && st.stream !in w.heartbeats
            && Apply(w.instances[sid].session, Fail).status.Errored?
  {
    hide Inv, InvWith, Apply;
    TakenRenewal(w);
    NoTimerWhileRenewing(w);
    sid := MappedSession(w, w.replies[0].call.statement.stream);
    MappedIsServing(w, w.replies[0].call.statement.stream);
    FailErrors(w.instances[sid].session);
  }

  lemma FailErrors(st: State)
    ensures Apply(st, Fail).status.Errored?
  {
  }

  lemma NoTimerWhileRenewing(w: Worker)
    requires Inv(w) && w.replies != [] && w.replies[0].call.statement.Renew?
    ensures w.replies[0].call.statement.stream !in w.heartbeats
  {
    var s := w.replies[0].call.statement.stream;
    TakenShape(w);
    if s in w.lockTokens {
      assert IsRenewal(Flow(w)[0], s);
      assert HasRenewal(Flow(w), s);
    }
  }

  /** In every run, whatever came before, that release names the token the refused renewal carried. */
  lemma RefusalReleasesOwnToken(cfg: Settings, actions: seq<Action>, now: int)
    requires CanRun(Init(cfg), actions) && CanDo(Reached(cfg, actions), Deliver(now))
    requires var reply := Reached(cfg, actions).replies[0];
             reply.call.statement.Renew? && reply.answer == No
             && reply.call.statement.stream in Reached(cfg, actions).sessions
    ensures var w := Reached(cfg, actions);
            var w', st := Do(w, Deliver(now)), w.replies[0].call.statement;
            && w'.requests == w.requests + [Call(Release(st.stream, w.cfg.workerId, st.token), now)]
            && w'.sessions == w.sessions - {st.stream} && w'.released == w.released + [w.sessions[st.stream]]
  {
    hide Inv, Reached, Apply;
    RefusalOutcome(Reached(cfg, actions), now);
    hide DoDeliver;
  }

  // ----- The answer to a claim -----

  /** The session after the events have been offered to it one by one. */
  function Offered(st: State, events: seq<Event>): State
    decreases |events|
  {
    if events == [] then st else Offered(Apply(st, Enqueue(events[0])), events[1..])
  }

  /** How many of `n` events a session takes before its pump has had a turn: the first one goes straight to the pump,
      and the queue has room for as many as its bound says. */
  function Room(cfg: Config, n: nat): (r: nat)
    ensures r <= n
  {
    if cfg.maxQueueDepth == 0 then 0 else if n <= cfg.maxQueueDepth then n else cfg.maxQueueDepth + 1
  }

  /** A running session that has been offered `events` and nothing else: it took the first ones there was room for, in
      order, and is publishing the very first. */
  function Filled(cfg: Config, events: seq<Event>): State {
    var n := Room(cfg, |events|);
    if n == 0 then State(cfg, Running, [], Resting, 0, [], [], [], false)
    else State(cfg, Running, events[1..n], Publishing(events[0], 0), 0, events[..n], [], [], false)
  }

  lemma OneMoreFills(cfg: Config, events: seq<Event>, e: Event)
    ensures Apply(Filled(cfg, events), Enqueue(e)) == Filled(cfg, events + [e])
  {
    var n := |Filled(cfg, events).accepted|;
    if n < |events| {
      assert (events + [e])[..n] == events[..n] && (n > 0 ==> (events + [e])[1..n] == events[1..n]);
    } else {
      assert events[..n] == events;
      assert n > 0 ==> (events + [e])[1..n] == events[1..n] && (events + [e])[1..n + 1] == events[1..n] + [e];
      assert (events + [e])[..n] == events && (events + [e])[..n + 1] == events + [e];
    }
  }

  lemma {:induction false} OfferingFills(cfg: Config, before: seq<Event>, events: seq<Event>)
    ensures Offered(Filled(cfg, before), events) == Filled(cfg, before + events)
    decreases |events|
  {
    hide Filled, Apply;
    if events == [] {
      assert before + events == before;
    } else {
      OneMoreFills(cfg, before, events[0]);
      OfferingFills(cfg, before + [events[0]], events[1..]);
      assert before + [events[0]] + events[1..] == before + events;
    }
  }

  lemma StartedIsFilled(cfg: Config)
    ensures Apply(Fresh(cfg), Start) == Filled(cfg, [])
  {
  }

  /** Callers that resume while their stream is mapped under their token change nothing but its session. */
  lemma {:induction false} ResumesOffer(w: Worker, events: seq<Event>, s: StreamId, token: Token, now: int)
    requires HoldsToken(w, s, token) && s in w.sessions && w.sessions[s] in w.instances
    ensures var sid := w.sessions[s];
            ResumeAll(w, events, s, token, now) == PutSession(w, sid, Offered(w.instances[sid].session, events))
    decreases |events|
  {
    hide Apply;
    var sid := w.sessions[s];
    if events == [] {
      assert w.instances[sid := w.instances[sid]] == w.instances;
    } else {
      var w1 := ResumeRoute(w, events[0], s, token, now);
      assert w1 == PutSession(w, sid, Apply(w.instances[sid].session, Enqueue(events[0])));
      ResumesOffer(w1, events[1..], s, token, now);
    }
  }

  /** A granted claim maps its stream to one new session under the granted token and arms its one timer; of the events
      its callers came with, the session takes as many as it has room for, in the order of the calls. No other session
      changes, and nothing is sent. */
  lemma GrantOutcome(w: Worker, now: int)
    requires Inv(w) && w.replies != [] && w.replies[0].call.statement.Acquire? && w.replies[0].answer.Yes?
    ensures var s, token := w.replies[0].call.statement.stream, w.replies[0].call.statement.token;
            && s in w.waiting && s !in w.sessions && w.nextSession !in w.instances
            && DoDeliver(w, now) == Taken(w).(
                 waiting := w.waiting - {s}, lockTokens := w.lockTokens[s := token],
                 sessions := w.sessions[s := w.nextSession], nextSession := w.nextSession + 1,
                 timers := w.timers[w.nextTimer := Timer(s, token, now + w.cfg.heartbeatMs)],
                 heartbeats := w.heartbeats[s := w.nextTimer], nextTimer := w.nextTimer + 1,
                 instances := w.instances[w.nextSession := Instance(s, token, Filled(w.cfg.session, w.waiting[s]))])
  {
    hide Inv, ResumeAll, DoDeliver, Apply, Offered, Filled;
    InvFacts(w);
    HeadClaimIsAwaited(w);
    var st := w.replies[0].call.statement;
    var s, token, events := st.stream, st.token, w.waiting[st.stream];
    GrantShape(w, now);
    SpawnShape(w, s, token, now);
    var spawned := SpawnedBy(w, s, token, now);
    hide SpawnedBy;
    ResumesOffer(spawned, events, s, token, now);
    StartedIsFilled(w.cfg.session);
    OfferingFills(w.cfg.session, [], events);
    assert [] + events == events;
  }

  /** A claim that was denied, or threw, leaves nothing behind: its callers no longer wait, and that is all. */
  lemma DenialOutcome(w: Worker, now: int)
    requires w.replies != [] && w.replies[0].call.statement.Acquire? && !w.replies[0].answer.Yes?
    ensures DoDeliver(w, now) == Taken(w).(waiting := w.waiting - {w.replies[0].call.statement.stream})
  {
  }

  // ----- Late and doubled news -----

  /** What arrives too late, or twice, has no effect beyond itself. A timer whose token is gone only gives up its slot;
      a renewal that comes back for a token no longer held arms nothing; a refusal that finds no serving session fails
      none; and a caller that resumes under another token than the mapped one gives its own back, once. */
  lemma StaleNewsIsHarmless(w: Worker, s: StreamId, token: Token, now: int)
    requires !HoldsToken(w, s, token)
    ensures forall id, clock | id in w.timers && w.timers[id].stream == s && w.timers[id].token == token ::
              DoFire(w, id, now, clock) == w.(timers := w.timers - {id}, heartbeats := w.heartbeats - {s})
    ensures RenewalReturns(w, s, token, Yes, now) == w && RenewalReturns(w, s, token, Threw, now) == w
    ensures s !in w.sessions ==> RenewalReturns(w, s, token, No, now) == w
    ensures s in w.sessions && w.sessions[s] in w.instances && !Serving(w.instances[w.sessions[s]].session.status) ==>
              RenewalReturns(w, s, token, No, now) == w
    ensures forall e | s in w.sessions ::
              && ResumeRoute(w, e, s, token, now).requests ==
                 w.requests + [Call(Release(s, w.cfg.workerId, token), now)]
              && ResumeRoute(w, e, s, token, now).lockTokens == w.lockTokens
  {
  }

  // ----- What a worker sends -----

  lemma NothingSent(w: Worker, w': Worker)
    requires w'.requests == w.requests
    ensures SendsOwn(w, w')
  {
  }

  lemma EvictionSendsOwn(w: Worker, s: StreamId, after: State, now: int)
    requires s in w.sessions && w.sessions[s] in w.instances && w.instances[w.sessions[s]].stream == s
    requires s in w.lockTokens
    ensures SendsOwn(w, StateListener(PutSession(w, w.sessions[s], after), w.sessions[s], now))
  {
    EvictionShape(w, s, after, now);
    hide StateListener;
    SendsOne(w, StateListener(PutSession(w, w.sessions[s], after), w.sessions[s], now),
             Call(Release(s, w.cfg.workerId, w.lockTokens[s]), now));
  }

  lemma StepSessionSendsOwn(w: Worker, sid: SessionId, op: Op, now: int)
    requires Inv(w) && sid in w.instances && Enabled(w.instances[sid].session, op)
    ensures SendsOwn(w, StepSession(w, sid, op, now))
  {
    hide Inv, Apply, SendsOwn, StepSession, StateListener, PutSession;
    var s := w.instances[sid].stream;
    var after := Apply(w.instances[sid].session, op);
    StepOrListener(w, sid, op, now);
    NothingSent(w, PutSession(w, sid, after));
    if s in w.sessions && w.sessions[s] == sid {
      var same := MappedSession(w, s);
      EvictionSendsOwn(w, s, after, now);
    } else {
      NothingSent(w, StateListener(PutSession(w, sid, after), sid, now));
    }
  }

  /** A step of a session changes that session, and may run its listener, which sends nothing unless it is mapped. */
  lemma StepOrListener(w: Worker, sid: SessionId, op: Op, now: int)
    requires sid in w.instances && Enabled(w.instances[sid].session, op)
    ensures var w1 := PutSession(w, sid, Apply(w.instances[sid].session, op));
            var s := w.instances[sid].stream;
            && w1.requests == w.requests && sid in w1.instances
            && (StepSession(w, sid, op, now) == w1 || StepSession(w, sid, op, now) == StateListener(w1, sid, now))
            && (s !in w.sessions || w.sessions[s] != sid ==> StateListener(w1, sid, now) == w1)
  {
    hide Apply;
  }

  lemma DeliverSendsOwn(w: Worker, now: int)
    requires Inv(w) && w.replies != []
    ensures SendsOwn(w, DoDeliver(w, now))
  {
    hide Inv, SendsOwn, DoDeliver, Apply;
    var reply := w.replies[0];
    match reply.call.statement
    case Acquire(_, _, _, _) =>
      if reply.answer.Yes? {
        GrantOutcome(w, now);
      } else {
        DenialOutcome(w, now);
      }
      NothingSent(w, DoDeliver(w, now));
    case Renew(s, _, token, _) =>
      if reply.answer != No {
        RearmOutcome(w, now);
        NothingSent(w, DoDeliver(w, now));
      } else if s in w.sessions {
        RefusalSendsOwn(w, now);
      } else {
        NothingRefused(w, now);
        NothingSent(w, DoDeliver(w, now));
      }
    case _ =>
      NothingHandled(w, now);
      NothingSent(w, DoDeliver(w, now));
  }

  lemma RefusalSendsOwn(w: Worker, now: int)
    requires Inv(w) && w.replies != [] && w.replies[0].call.statement.Renew? && w.replies[0].answer == No
    requires w.replies[0].call.statement.stream in w.sessions
    ensures SendsOwn(w, DoDeliver(w, now))
  {
    hide Inv, DoDeliver, Apply;
    var st := w.replies[0].call.statement;
    RefusalOutcome(w, now);
    var sid := RefusedSession(w);
    SendsOne(w, DoDeliver(w, now), Call(Release(st.stream, w.cfg.workerId, st.token), now));
  }

  lemma NothingRefused(w: Worker, now: int)
    requires w.replies != [] && w.replies[0].call.statement.Renew? && w.replies[0].answer == No
    requires w.replies[0].call.statement.stream !in w.sessions
    ensures DoDeliver(w, now) == Taken(w)
  {
  }

  lemma NothingHandled(w: Worker, now: int)
    requires w.replies != [] && (w.replies[0].call.statement.Release? || w.replies[0].call.statement.ReleaseAll?)
    ensures DoDeliver(w, now) == Taken(w)
  {
  }

  /** Every step of a worker adds at most one call to its connection: a claim under a token it has never used, a renewal
      of the token it holds, the release of a token it held until this step, or the final release of everything. */
  lemma ActionSendsOwn(w: Worker, a: Action)
    requires Inv(w) && CanDo(w, a) && !a.Serve?
    ensures SendsOwn(w, Do(w, a))
  {
    hide Inv, SendsOwn, DoRoute, DoFire, DoDeliver, StepSession, DoFinishDrain;
    match a
    case Route(e, token, now, clock) => RouteSendsOwn(w, e, token, now, clock);
    case Fire(id, now, clock) => FireSendsOwn(w, id, now, clock);
    case SessionOp(sid, op, now) => StepSessionSendsOwn(w, sid, op, now);
    case Deliver(now) => DeliverSendsOwn(w, now);
    case BeginDrain => NothingSent(w, Do(w, a));
    case FinishDrain(now) => DrainSendsOwn(w, now);
  }

  lemma DrainSendsOwn(w: Worker, now: int)
    ensures SendsOwn(w, DoFinishDrain(w, now))
  {
    SendsOne(w, DoFinishDrain(w, now), Call(ReleaseAll(w.cfg.workerId), now));
  }
}
