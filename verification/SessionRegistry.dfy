/** The registry as the object the worker runs. Its methods update three maps, the armed timers and the
    connection in place, one await-free stretch of code each, and refine the worker's actions. */
module SessionRegistries {
  import opened LockTable
  import opened Sessions
  import opened Workers
  import opened Registry
  import opened RegistryRuns
  import opened WorkerEffects
  import opened RegistryOutcomes

  datatype RouteResult = Enqueued | AtCapacity | Rejected | Locked | Rethrown | Awaiting

  /** The answer of `enqueue` on a mapped session. */
  function EnqueueResult(w: Worker, s: StreamId): RouteResult {
    if s in w.sessions && w.sessions[s] in w.instances && Accepts(w.instances[w.sessions[s]].session)
    then Enqueued else Rejected
  }

  /** What `route` resolves to, or `Awaiting` while its claim is in flight. */
  function RouteAnswer(w: Worker, e: Event): RouteResult {
    if e.streamId in w.sessions then EnqueueResult(w, e.streamId)
    else if |w.sessions| >= w.cfg.maxSessions then AtCapacity
    else Awaiting
  }

  /** The worker in which the caller's event is enqueued: the session is there already, or is spawned for it. */
  function Mapping(w: Worker, s: StreamId, token: Token, now: int): Worker {
    if s in w.sessions then w
    else Workers.Spawn(Workers.ScheduleNext(w.(lockTokens := w.lockTokens[s := token]), s, token, now), s, token)
  }

  /** What the callers that shared a granted claim are told, in the order they called. */
  function ResumeAnswers(w: Worker, events: seq<Event>, s: StreamId, token: Token, now: int)
    : (answers: seq<RouteResult>)
    ensures |answers| == |events|
    decreases |events|
  {
    if events == [] then []
    else
      [EnqueueResult(Mapping(w, s, token, now), s)] +
      ResumeAnswers(Workers.ResumeRoute(w, events[0], s, token, now), events[1..], s, token, now)
  }

  /** Those whose `route` calls wait for the claim of `s`. */
  function Callers(w: Worker, s: StreamId): seq<Event> {
    if s in w.waiting then w.waiting[s] else []
  }

  /** What they are told: the outcomes of their enqueues after a grant, all the same after a denial or an error. */
  predicate ClaimResults(w: Worker, s: StreamId, token: Token, answer: Answer, now: int, results: seq<RouteResult>) {
    |results| == |Callers(w, s)| &&
    if answer.Yes? then results == ResumeAnswers(w.(waiting := w.waiting - {s}), Callers(w, s), s, token, now)
    else forall i | 0 <= i < |results| :: results[i] == if answer.No? then Locked else Rethrown
  }

  /** The callers from the `k`-th on: one of them, and those behind. */
  lemma NextResumes(w: Worker, events: seq<Event>, k: nat, s: StreamId, token: Token, now: int)
    requires k < |events|
    ensures var w' := Workers.ResumeRoute(w, events[k], s, token, now);
            && ResumeAll(w, events[k..], s, token, now) == ResumeAll(w', events[k + 1..], s, token, now)
            && ResumeAnswers(w, events[k..], s, token, now) ==
               [EnqueueResult(Mapping(w, s, token, now), s)] + ResumeAnswers(w', events[k + 1..], s, token, now)
  {
    hide Workers.ResumeRoute, EnqueueResult, Mapping;
    assert events[k..][0] == events[k] && events[k..][1..] == events[k + 1..];
  }

  lemma NoneResumes(w: Worker, events: seq<Event>, s: StreamId, token: Token, now: int)
    ensures ResumeAll(w, events[|events|..], s, token, now) == w
    ensures ResumeAnswers(w, events[|events|..], s, token, now) == []
  {
  }

  lemma AcceptedIsAppended(st: State, e: Event)
    ensures Apply(st, Op.Enqueue(e)).accepted == st.accepted + if Accepts(st) then [e] else []
  {
  }

  lemma MappingMaps(w: Worker, s: StreamId, token: Token, now: int)
    requires s in w.sessions ==> w.sessions[s] in w.instances
    ensures var w' := Mapping(w, s, token, now);
            s in w'.sessions && w'.sessions[s] in w'.instances
  {
    hide Apply;
  }

  lemma ResumeEnqueues(w: Worker, e: Event, s: StreamId, token: Token, now: int)
    requires s in w.sessions ==> w.sessions[s] in w.instances
    requires var before := Mapping(w, s, token, now);
             s in before.sessions && before.sessions[s] in before.instances
    ensures var before, after := Mapping(w, s, token, now), Workers.ResumeRoute(w, e, s, token, now);
            after.instances == Workers.EnqueueInto(before, before.sessions[s], e).instances
            && after.sessions == before.sessions
  {
    hide Apply, Workers.ScheduleNext;
    if s !in w.sessions {
      SpawnTakesTheNext(Workers.ScheduleNext(w.(lockTokens := w.lockTokens[s := token]), s, token, now), s, token);
      ScheduleNextKeeps(w.(lockTokens := w.lockTokens[s := token]), s, token, now);
      hide Workers.Spawn;
    }
  }

  lemma SpawnTakesTheNext(w: Worker, s: StreamId, token: Token)
    ensures var w' := Workers.Spawn(w, s, token);
            s in w'.sessions && w'.sessions[s] == w.nextSession && w.nextSession in w'.instances
  {
    hide Apply;
  }

  lemma ScheduleNextKeeps(w: Worker, s: StreamId, token: Token, now: int)
    ensures Workers.ScheduleNext(w, s, token, now).nextSession == w.nextSession
  {
  }

  /** What `route` says before it awaits is what it has done: enqueued if the stream's session took the event, as it
      does while it runs and has room; rejected if there is a session that took nothing; at capacity if there is none,
      the cap is reached and nothing has changed; and it awaits with the event behind those that wait already. It says
      nothing about a lock yet. */
  lemma RouteAnswerTells(w: Worker, e: Event, token: Token, now: int, clock: int)
    requires Inv(w)
    ensures var s, r, w' := e.streamId, RouteAnswer(w, e), DoRoute(w, e, token, now, clock);
            if s in w.sessions then
              && w.sessions[s] in w.instances && w.sessions[s] in w'.instances
              && var before, after := w.instances[w.sessions[s]].session, w'.instances[w.sessions[s]].session;
                 && (r == Enqueued <==> after.accepted == before.accepted + [e])
                 && (r == Enqueued <==> before.status.Running? && |before.queue| < before.cfg.maxQueueDepth)
                 && (r == Rejected <==> after.accepted == before.accepted)
                 && (r == Enqueued || r == Rejected)
            else
              && (r == AtCapacity <==> |w.sessions| >= w.cfg.maxSessions)
              && (r == AtCapacity <==> w' == w)
              && (r == Awaiting <==> s in w'.waiting && w'.waiting[s] == Callers(w, s) + [e])
              && (r == AtCapacity || r == Awaiting)
  {
    InvMapsInstances(w);
    hide Inv;
    var s := e.streamId;
    if s in w.sessions {
      AcceptedIsAppended(w.instances[w.sessions[s]].session, e);
      hide Apply;
      assert DoRoute(w, e, token, now, clock) == Workers.EnqueueInto(w, w.sessions[s], e);
      hide DoRoute;
    } else {
      UnmappedRoute(w, e, token, now, clock);
      hide DoRoute;
    }
  }

  lemma UnmappedRoute(w: Worker, e: Event, token: Token, now: int, clock: int)
    requires e.streamId !in w.sessions
    ensures var s, w' := e.streamId, DoRoute(w, e, token, now, clock);
            && (|w.sessions| >= w.cfg.maxSessions <==> w' == w)
            && (|w.sessions| < w.cfg.maxSessions <==> s in w'.waiting && w'.waiting[s] == Callers(w, s) + [e])
  {
    assert Callers(w, e.streamId) + [e] != Callers(w, e.streamId);
    if |w.sessions| < w.cfg.maxSessions {
      var w' := DoRoute(w, e, token, now, clock);
      assert e.streamId in w'.waiting && w'.waiting[e.streamId] == Callers(w, e.streamId) + [e];
    }
  }

  // ----- What the callers of a claim are told -----

  lemma FilledHasRoom(cfg: Config, events: seq<Event>)
    ensures Accepts(Filled(cfg, events)) <==> cfg.maxQueueDepth > 0 && |events| <= cfg.maxQueueDepth
  {
  }

  lemma {:induction false} OfferedAnswers(w: Worker, before: seq<Event>, events: seq<Event>, s: StreamId, token: Token,
                                          now: int)
    requires HoldsToken(w, s, token) && s in w.sessions && w.sessions[s] in w.instances
    requires w.instances[w.sessions[s]].session == Filled(w.cfg.session, before)
    ensures forall i | 0 <= i < |events| ::
              ResumeAnswers(w, events, s, token, now)[i] ==
              if i + |before| < Room(w.cfg.session, |before| + |events|) then Enqueued else Rejected
    decreases |events|
  {
    hide Filled, Apply;
    if events != [] {
      var w' := Workers.ResumeRoute(w, events[0], s, token, now);
      var n := |before| + |events|;
      FilledHasRoom(w.cfg.session, before);
      OneMoreFills(w.cfg.session, before, events[0]);
      assert w' == Workers.EnqueueInto(w, w.sessions[s], events[0]);
      hide Workers.ResumeRoute;
      OfferedAnswers(w', before + [events[0]], events[1..], s, token, now);
      var first, rest := EnqueueResult(w, s), ResumeAnswers(w', events[1..], s, token, now);
      assert ResumeAnswers(w, events, s, token, now) == [first] + rest;
      assert first == if |before| < Room(w.cfg.session, n) then Enqueued else Rejected;
      hide ResumeAnswers;
      forall i | 0 <= i < |events|
        ensures ([first] + rest)[i] == if i + |before| < Room(w.cfg.session, n) then Enqueued else Rejected
      {
        if i > 0 {
          assert rest[i - 1] == if i - 1 + (|before| + 1) < Room(w.cfg.session, n) then Enqueued else Rejected;
        }
      }
    }
  }

  lemma FirstCallerSpawnsOnce(w: Worker, events: seq<Event>, s: StreamId, token: Token, now: int)
    requires s !in w.sessions && w.nextSession !in w.instances
    ensures var spawned := Mapping(w, s, token, now);
            && HoldsToken(spawned, s, token) && s in spawned.sessions && spawned.sessions[s] in spawned.instances
            && spawned.cfg == w.cfg
            && spawned.instances[spawned.sessions[s]].session == Apply(Fresh(w.cfg.session), Start)
            && ResumeAnswers(w, events, s, token, now) == ResumeAnswers(spawned, events, s, token, now)
  {
    hide Apply;
    if events != [] {
      var spawned := Mapping(w, s, token, now);
      assert Workers.ResumeRoute(w, events[0], s, token, now) == Workers.ResumeRoute(spawned, events[0], s, token, now);
    }
  }

  /** Every caller of an answered claim is told what came of it: that the lock is another's exactly after a denial, the
      error exactly after a failed call, and after a grant that its event was taken exactly if it is one of those, in
      the order of the calls, for which the new session has room. */
  lemma ClaimTells(w: Worker, now: int, results: seq<RouteResult>)
    requires Inv(w) && w.replies != [] && w.replies[0].call.statement.Acquire?
    requires var st := w.replies[0].call.statement;
             ClaimResults(Taken(w), st.stream, st.token, w.replies[0].answer, now, results)
    ensures var s, answer := w.replies[0].call.statement.stream, w.replies[0].answer;
            && s in w.waiting && |results| == |w.waiting[s]|
            && forall i | 0 <= i < |results| ::
                 && (results[i] == Locked <==> answer == No)
                 && (results[i] == Rethrown <==> answer == Threw)
                 && (results[i] == Enqueued <==> answer == Yes && i < Room(w.cfg.session, |results|))
                 && (results[i] == Rejected <==> answer == Yes && i >= Room(w.cfg.session, |results|))
  {
    hide Inv;
    var st := w.replies[0].call.statement;
    HeadClaimIsAwaited(w);
    InvFacts(w);
    assert Callers(Taken(w), st.stream) == w.waiting[st.stream];
    hide ResumeAnswers, Room;
    if w.replies[0].answer.Yes? {
      GrantTells(Taken(w), st.stream, st.token, now, results);
    }
  }

  lemma GrantTells(w: Worker, s: StreamId, token: Token, now: int, told: seq<RouteResult>)
    requires s in w.waiting && s !in w.sessions && w.nextSession !in w.instances
    requires told == ResumeAnswers(w.(waiting := w.waiting - {s}), w.waiting[s], s, token, now)
    ensures |told| == |w.waiting[s]|
    ensures forall i | 0 <= i < |told| :: told[i] == if i < Room(w.cfg.session, |told|) then Enqueued else Rejected
  {
    var w1, events := w.(waiting := w.waiting - {s}), w.waiting[s];
    hide Filled, Apply, ResumeAnswers, Mapping;
    FirstCallerSpawnsOnce(w1, events, s, token, now);
    StartedIsFilled(w.cfg.session);
    OfferedAnswers(Mapping(w1, s, token, now), [], events, s, token, now);
  }

  /** A caller is told "enqueued" exactly when the mapped session has accepted its event, as the last one, and
      "rejected" otherwise. */
  lemma EnqueuedMeansAccepted(w: Worker, e: Event, s: StreamId, token: Token, now: int)
    requires s in w.sessions ==> w.sessions[s] in w.instances
    ensures var before, after := Mapping(w, s, token, now), Workers.ResumeRoute(w, e, s, token, now);
            && s in before.sessions && before.sessions[s] in before.instances
            && after.sessions == before.sessions && before.sessions[s] in after.instances
            && (EnqueueResult(before, s) == Enqueued || EnqueueResult(before, s) == Rejected)
            && var sid := before.sessions[s];
               after.instances[sid].session.accepted ==
               before.instances[sid].session.accepted + if EnqueueResult(before, s) == Enqueued then [e] else []
  {
    MappingMaps(w, s, token, now);
    ResumeEnqueues(w, e, s, token, now);
    var before := Mapping(w, s, token, now);
    AcceptedIsAppended(before.instances[before.sessions[s]].session, e);
    hide Mapping, Workers.ResumeRoute, Apply, Accepts;
  }

  class SessionRegistry {
    const cfg: Settings
    var sessions: map<StreamId, SessionId>
    var lockTokens: map<StreamId, Token>
    var heartbeats: map<StreamId, TimerId>
    var inflightAcquires: map<StreamId, seq<Event>>
    /** The event loop's armed timeouts and the connection's two queues. */
    var timers: map<TimerId, Timer>
    var requests: seq<Call>
    var replies: seq<Reply>
    var instances: map<SessionId, Instance>
    var nextSession: SessionId
    var nextTimer: TimerId
    var phase: Phase
    ghost var minted: set<Token>
    ghost var released: seq<SessionId>

    constructor (cfg: Settings)
      ensures View() == Init(cfg)
    {
      this.cfg := cfg;
      sessions, lockTokens, heartbeats, inflightAcquires := map[], map[], map[], map[];
      timers, requests, replies, instances := map[], [], [], map[];
      nextSession, nextTimer, phase, minted, released := 0, 0, Routing, {}, [];
    }

    ghost function View(): Worker
      reads this
    {
      Worker(cfg, sessions, lockTokens, heartbeats, timers, inflightAcquires, requests, replies, instances,
             nextSession, nextTimer, phase, minted, released)
    }

    method EnqueueInto(sid: SessionId, e: Event) returns (result: RouteResult)
      requires sid in instances
      modifies this`instances
      ensures View() == Workers.EnqueueInto(old(View()), sid, e)
      ensures result == if Accepts(old(instances)[sid].session) then Enqueued else Rejected
    {
      var session := instances[sid].session;
      result := if Accepts(session) then Enqueued else Rejected;
      instances := instances[sid := instances[sid].(session := Apply(session, Op.Enqueue(e)))];
    }

    method Route(e: Event, token: Token, now: int, clock: int) returns (result: RouteResult)
      requires Inv(View()) && CanDo(View(), Action.Route(e, token, now, clock))
      modifies this
      ensures View() == Do(old(View()), Action.Route(e, token, now, clock)) && Inv(View())
      ensures result == RouteAnswer(old(View()), e)
    {
      hide Inv, CanDo, Apply;
      RouteKeepsInv(View(), e, token, now, clock);
      InvMapsInstances(View());
      var s := e.streamId;
      if s in sessions {
        result := EnqueueInto(sessions[s], e);
        return;
      }
      if |sessions| >= cfg.maxSessions {
        return AtCapacity;
      }
      AcquireDeduplicated(s, e, token, now, clock);
      result := Awaiting;
    }

    /** One round trip for all callers that want the same unowned stream. */
    method AcquireDeduplicated(s: StreamId, e: Event, token: Token, now: int, clock: int)
      modifies this`inflightAcquires, this`requests, this`minted
      ensures s in old(inflightAcquires) ==>
        View() == old(View()).(waiting := old(inflightAcquires)[s := old(inflightAcquires)[s] + [e]])
      ensures s !in old(inflightAcquires) ==>
        View() == Send(old(View()).(waiting := old(inflightAcquires)[s := [e]], minted := old(minted) + {token}),
                       Acquire(s, cfg.workerId, token, clock + cfg.ttlMs), now)
    {
      if s in inflightAcquires {
        inflightAcquires := inflightAcquires[s := inflightAcquires[s] + [e]];
        return;
      }
      inflightAcquires := inflightAcquires[s := [e]];
      minted := minted + {token};
      requests := requests + [Call(Acquire(s, cfg.workerId, token, clock + cfg.ttlMs), now)];
    }

    method ScheduleNext(s: StreamId, token: Token, now: int)
      modifies this`timers, this`heartbeats, this`nextTimer
      ensures View() == Workers.ScheduleNext(old(View()), s, token, now)
    {
      if s !in lockTokens || lockTokens[s] != token { return; }
      timers := timers[nextTimer := Timer(s, token, now + cfg.heartbeatMs)];
      heartbeats := heartbeats[s := nextTimer];
      nextTimer := nextTimer + 1;
    }

    method Spawn(s: StreamId, token: Token) returns (sid: SessionId)
      modifies this`sessions, this`instances, this`nextSession
      ensures View() == Workers.Spawn(old(View()), s, token) && sid == old(nextSession)
    {
      sid := nextSession;
      instances := instances[sid := Instance(s, token, Apply(Fresh(cfg.session), Start))];
      sessions := sessions[s := sid];
      nextSession := nextSession + 1;
    }

    /** The rest of `route` for one caller once the shared claim has been granted. */
    method ResumeRoute(e: Event, s: StreamId, token: Token, now: int) returns (result: RouteResult)
      requires s in sessions ==> sessions[s] in instances
      modifies this
      ensures View() == Workers.ResumeRoute(old(View()), e, s, token, now)
      ensures s in sessions && sessions[s] in instances
      ensures result == EnqueueResult(Mapping(old(View()), s, token, now), s)
    {
      if s in sessions {
        if s !in lockTokens || lockTokens[s] != token {
          requests := requests + [Call(Release(s, cfg.workerId, token), now)];
        }
        result := EnqueueInto(sessions[s], e);
        return;
      }
      lockTokens := lockTokens[s := token];
      ScheduleNext(s, token, now);
      var sid := Spawn(s, token);
      result := EnqueueInto(sid, e);
    }

    method ClearTimer(s: StreamId)
      modifies this`timers, this`heartbeats
      ensures View() == old(View()).(
        timers := if s in old(heartbeats) then old(timers) - {old(heartbeats)[s]} else old(timers),
        heartbeats := old(heartbeats) - {s})
    {
      if s in heartbeats {
        timers := timers - {heartbeats[s]};
      }
      heartbeats := heartbeats - {s};
    }

    /** The listener installed by `spawn`, for a session that has just ended. */
    method OnTerminal(sid: SessionId, now: int)
      requires sid in instances
      modifies this
      ensures View() == StateListener(old(View()), sid, now)
    {
      ListenerShape(View(), sid, now);
      hide StateListener;
      var s := instances[sid].stream;
      if s !in sessions || sessions[s] != sid { return; }
      sessions := sessions - {s};
      if s !in lockTokens { return; }
      LetGo(s, sid, now);
    }

    /** Clears the stream's timer and sends the release of its token. */
    method LetGo(s: StreamId, sid: SessionId, now: int)
      requires s in lockTokens
      modifies this`lockTokens, this`timers, this`heartbeats, this`released, this`requests
      ensures lockTokens == old(lockTokens) - {s} && released == old(released) + [sid]
      ensures timers == if s in old(heartbeats) then old(timers) - {old(heartbeats)[s]} else old(timers)
      ensures heartbeats == if s in old(heartbeats) then old(heartbeats) - {s} else old(heartbeats)
      ensures requests == old(requests) + [Call(Release(s, cfg.workerId, old(lockTokens)[s]), now)]
    {
      var token := lockTokens[s];
      lockTokens := lockTokens - {s};
      ClearTimer(s);
      assert s !in old(heartbeats) ==> heartbeats == old(heartbeats);
      released := released + [sid];
      requests := requests + [Call(Release(s, cfg.workerId, token), now)];
    }

    method StepSession(sid: SessionId, op: Op, now: int)
      requires sid in instances && Enabled(instances[sid].session, op)
      modifies this
      ensures View() == Workers.StepSession(old(View()), sid, op, now)
    {
      var before := instances[sid].session;
      var after := Apply(before, op);
      instances := instances[sid := instances[sid].(session := after)];
      if after.status != before.status && Terminal(after.status) {
        OnTerminal(sid, now);
      }
    }

    /** A heartbeat timer fires: `tick` up to its await. */
    method Tick(id: TimerId, now: int, clock: int)
      requires id in timers
      modifies this
      ensures View() == DoFire(old(View()), id, now, clock)
      ensures old(Inv(View()) && CanDo(View(), Fire(id, now, clock))) ==> Inv(View())
    {
      hide Inv, CanDo;
      if Inv(View()) && CanDo(View(), Fire(id, now, clock)) {
        FireKeepsInv(View(), id, now, clock);
      }
      var t := timers[id];
      timers := timers - {id};
      heartbeats := heartbeats - {t.stream};
      if t.stream in lockTokens && lockTokens[t.stream] == t.token {
        requests := requests + [Call(Renew(t.stream, cfg.workerId, t.token, clock + cfg.ttlMs), now)];
      }
    }

    /** The rest of `tick` once its renewal is answered. */
    method OnRenewal(s: StreamId, token: Token, answer: Answer, now: int)
      modifies this
      ensures View() == RenewalReturns(old(View()), s, token, answer, now)
    {
      if answer != No {
        ScheduleNext(s, token, now);
      } else if s in sessions && sessions[s] in instances {
        var status := instances[sessions[s]].session.status;
        if status == Running || status == Draining {
          StepSession(sessions[s], Fail, now);
        }
      }
    }

    /** A granted claim resumes its callers in order; `results` is what their `route` calls resolve to. */
    method OnGrant(s: StreamId, token: Token, events: seq<Event>, now: int) returns (results: seq<RouteResult>)
      requires s in sessions ==> sessions[s] in instances
      modifies this
      ensures View() == ResumeAll(old(View()), events, s, token, now)
      ensures results == ResumeAnswers(old(View()), events, s, token, now)
    {
      hide Workers.ResumeRoute, EnqueueResult, Mapping, ResumeAnswers, ResumeAll;
      results := [];
      assert events[0..] == events;
      while |results| < |events|
        invariant |results| <= |events|
        invariant s in sessions ==> sessions[s] in instances
        invariant results + ResumeAnswers(View(), events[|results|..], s, token, now)
                  == ResumeAnswers(old(View()), events, s, token, now)
        invariant ResumeAll(View(), events[|results|..], s, token, now) == ResumeAll(old(View()), events, s, token, now)
      {
        var k := |results|;
        NextResumes(View(), events, k, s, token, now);
        var result := ResumeRoute(events[k], s, token, now);
        results := results + [result];
      }
      NoneResumes(View(), events, s, token, now);
    }

    /** The next answer on the connection. */
    method OnAnswer(now: int) returns (results: seq<RouteResult>)
      requires Inv(View()) && CanDo(View(), Deliver(now))
      modifies this
      ensures View() == Do(old(View()), Deliver(now)) && Inv(View())
      ensures old(replies)[0].call.statement.Acquire? ==>
        var st := old(replies)[0].call.statement;
        ClaimResults(Taken(old(View())), st.stream, st.token, old(replies)[0].answer, now, results)
    {
      hide Inv, Handle, ResumeAnswers;
      DeliverKeepsInv(View(), now);
      InvMapsInstances(View());
      var reply := replies[0];
      replies := replies[1..];
      results := OnReply(reply, now);
    }

    /** One answer, taken off the connection. */
    method OnReply(reply: Reply, now: int) returns (results: seq<RouteResult>)
      requires forall s | s in sessions :: sessions[s] in instances
      modifies this
      ensures View() == Handle(old(View()), reply, now)
      ensures reply.call.statement.Acquire? ==>
        var st := reply.call.statement;
        ClaimResults(old(View()), st.stream, st.token, reply.answer, now, results)
    {
      hide ResumeAll, RenewalReturns, ClaimResults;
      results := [];
      match reply.call.statement
      case Acquire(s, _, token, _) =>
        results := OnClaim(s, token, reply.answer, now);
      case Renew(s, _, token, _) =>
        OnRenewal(s, token, reply.answer, now);
      case Release(_, _, _) =>
      case ReleaseAll(_) =>
    }

    /** The claim that callers wait for is answered. */
    method OnClaim(s: StreamId, token: Token, answer: Answer, now: int) returns (results: seq<RouteResult>)
      requires s in sessions ==> sessions[s] in instances
      modifies this
      ensures var w := old(View());
              var w' := w.(waiting := w.waiting - {s});
              View() == if answer.Yes? then ResumeAll(w', Callers(w, s), s, token, now) else w'
      ensures ClaimResults(old(View()), s, token, answer, now, results)
    {
      hide ResumeAll, ResumeAnswers;
      var events := if s in inflightAcquires then inflightAcquires[s] else [];
      inflightAcquires := inflightAcquires - {s};
      if answer == Yes {
        results := OnGrant(s, token, events, now);
      } else {
        results := seq(|events|, _ => if answer == No then Locked else Rethrown);
      }
    }

    /** `totalQueueDepth()`: a sum over the mapped sessions, in whatever order the map yields them. */
    method TotalQueueDepth() returns (total: nat)
      requires Inv(View())
      ensures total == QueueDepth(View(), sessions.Keys)
      ensures (forall s | s in sessions :: sessions[s] in instances) && SessionsValid(instances, cfg.session) ==>
                total == AllUnsettled(View(), sessions.Keys)
    {
      InvMapsInstances(View());
      SumIfValid(View());
      hide Inv, SessionsValid, AllUnsettled;
      total := 0;
      var left := sessions.Keys;
      while left != {}
        invariant left <= sessions.Keys
        invariant total + QueueDepth(View(), left) == QueueDepth(View(), sessions.Keys)
        decreases left
      {
        var s :| s in left;
        QueueDepthPick(View(), left, s);
        total := total + |instances[sessions[s]].session.queue|;
        left := left - {s};
      }
    }

    /** The end of `drainAll`, when every `stop()` has resolved. */
    method FinishDrainAll(now: int)
      modifies this
      ensures View() == DoFinishDrain(old(View()), now)
      ensures old(Inv(View()) && CanDo(View(), FinishDrain(now))) ==> Inv(View()) && timers == map[]
    {
      hide Inv, CanDo, DoFinishDrain;
      FinishDrainKeepsInvIf(View(), now);
      ClearAll(now);
    }

    /** The maps and timers of `drainAll`, and its final `releaseAll`. */
    method ClearAll(now: int)
      modifies this
      ensures View() == DoFinishDrain(old(View()), now)
    {
      DrainShape(View(), now);
      hide Unstored, DoFinishDrain;
      ClearMaps();
      phase := Drained;
      requests := requests + [Call(ReleaseAll(cfg.workerId), now)];
    }

    method ClearMaps()
      modifies this`sessions, this`lockTokens, this`inflightAcquires, this`timers, this`heartbeats
      ensures sessions == map[] && lockTokens == map[] && inflightAcquires == map[] && heartbeats == map[]
      ensures timers == Unstored(old(timers), old(heartbeats))
    {
      hide Unstored;
      sessions := map[];
      lockTokens := map[];
      inflightAcquires := map[];
      ClearHeartbeats();
    }

    /** `clearTimeout` for every stored timer, then `heartbeats.clear()`. */
    method ClearHeartbeats()
      modifies this`timers, this`heartbeats
      ensures heartbeats == map[]
      ensures timers == Unstored(old(timers), old(heartbeats))
    {
      var left := heartbeats.Keys;
      while left != {}
        invariant left <= heartbeats.Keys && heartbeats == old(heartbeats)
        invariant timers == map id | id in old(timers) &&
                    (forall s | s in heartbeats && s !in left :: heartbeats[s] != id) :: old(timers)[id]
        decreases left
      {
        var s :| s in left;
        timers := timers - {heartbeats[s]};
        left := left - {s};
      }
      heartbeats := map[];
    }
  }

  lemma DrainShape(w: Worker, now: int)
    ensures DoFinishDrain(w, now) ==
            w.(sessions := map[], lockTokens := map[], waiting := map[], heartbeats := map[],
               timers := Unstored(w.timers, w.heartbeats), phase := Drained,
               requests := w.requests + [Call(ReleaseAll(w.cfg.workerId), now)])
  {
  }

  lemma FinishDrainKeepsInvIf(w: Worker, now: int)
    ensures Inv(w) && CanDo(w, FinishDrain(now)) ==>
              Inv(DoFinishDrain(w, now)) && DoFinishDrain(w, now).timers == map[]
  {
    hide Inv, CanDo;
    if Inv(w) && CanDo(w, FinishDrain(now)) {
      DrainFindsNothing(w, now);
      FinishDrainKeepsInv(w, now);
    }
  }

  lemma InvMapsInstances(w: Worker)
    requires Inv(w)
    ensures forall s | s in w.sessions :: w.sessions[s] in w.instances
  {
  }

  // ----- The queue depth -----

  /** The events a mapped session has accepted and has neither settled, nor in flight, nor dropped. */
  function Unsettled(w: Worker, s: StreamId): int
    requires s in w.sessions && w.sessions[s] in w.instances
  {
    var st := w.instances[w.sessions[s]].session;
    |st.accepted| - |st.settled| - |InFlight(st.pump)| - |st.dropped|
  }

  ghost function AllUnsettled(w: Worker, streams: set<StreamId>): int
    requires forall s | s in streams :: s in w.sessions && w.sessions[s] in w.instances
  {
    if streams == {} then 0
    else
      var s :| s in streams;
      Unsettled(w, s) + AllUnsettled(w, streams - {s})
  }

  lemma DepthIsUnsettled(w: Worker, s: StreamId)
    requires SessionsValid(w.instances, w.cfg.session) && s in w.sessions && w.sessions[s] in w.instances
    ensures DepthOf(w, s) == Unsettled(w, s)
  {
    assert Valid(w.instances[w.sessions[s]].session);
  }

  lemma {:induction false} SumIsUnsettled(w: Worker, streams: set<StreamId>)
    requires SessionsValid(w.instances, w.cfg.session)
    requires forall s | s in streams :: s in w.sessions && w.sessions[s] in w.instances
    ensures QueueDepth(w, streams) == AllUnsettled(w, streams)
    decreases streams
  {
    hide SessionsValid, DepthOf, Unsettled;
    if streams != {} {
      var s :| s in streams && AllUnsettled(w, streams) == Unsettled(w, s) + AllUnsettled(w, streams - {s});
      DepthIsUnsettled(w, s);
      SumIsUnsettled(w, streams - {s});
      QueueDepthPick(w, streams, s);
    }
  }

  lemma SumIfValid(w: Worker)
    ensures (forall s | s in w.sessions :: w.sessions[s] in w.instances) &&
            SessionsValid(w.instances, w.cfg.session) ==>
              QueueDepth(w, w.sessions.Keys) == AllUnsettled(w, w.sessions.Keys)
  {
    if (forall s | s in w.sessions :: w.sessions[s] in w.instances) && SessionsValid(w.instances, w.cfg.session) {
      SumIsUnsettled(w, w.sessions.Keys);
    }
  }

  /** In every reachable state the summed depth is the number of events that the mapped sessions still owe: all they
      have accepted, but for those settled, in flight or dropped. */
  lemma QueueDepthCountsUnsettled(cfg: Settings, actions: seq<Action>)
    requires Workers.CanRun(Init(cfg), actions)
    ensures var w := Reached(cfg, actions);
            && (forall s | s in w.sessions :: w.sessions[s] in w.instances && DepthOf(w, s) == Unsettled(w, s))
            && QueueDepth(w, w.sessions.Keys) == AllUnsettled(w, w.sessions.Keys)
  {
    InitInv(cfg);
    RunKeepsInv(Init(cfg), actions);
    RunKeepsSessionsValid(Init(cfg), actions);
    var w := Reached(cfg, actions);
    InvMapsInstances(w);
    hide Inv, SessionsValid, DepthOf, Unsettled;
    forall s | s in w.sessions ensures DepthOf(w, s) == Unsettled(w, s) {
      DepthIsUnsettled(w, s);
    }
    SumIsUnsettled(w, w.sessions.Keys);
  }

  /** The sum does not depend on the order in which the sessions are visited. */
  lemma {:induction false} QueueDepthPick(w: Worker, streams: set<StreamId>, s: StreamId)
    requires s in streams
    ensures QueueDepth(w, streams) == DepthOf(w, s) + QueueDepth(w, streams - {s})
    decreases streams
  {
    var p :| p in streams && QueueDepth(w, streams) == DepthOf(w, p) + QueueDepth(w, streams - {p});
    if p != s {
      QueueDepthPick(w, streams - {p}, s);
      QueueDepthPick(w, streams - {s}, p);
      assert streams - {p} - {s} == streams - {s} - {p};
    }
  }
}
