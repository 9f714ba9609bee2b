/** What holds in every run of a worker. */
module RegistryRuns {
  import opened LockTable
  import opened Sessions
  import opened Workers
  import opened Registry

  lemma {:induction false} RunKeepsInv(w: Worker, actions: seq<Action>)
    requires Inv(w) && CanRun(w, actions)
    ensures Inv(RunOf(w, actions))
    decreases |actions|
  {
    hide Inv;
    if actions != [] {
      ActionKeepsInv(w, actions[0]);
      RunKeepsInv(Do(w, actions[0]), actions[1..]);
    }
  }

  ghost function Reached(cfg: Settings, actions: seq<Action>): (w: Worker)
    requires CanRun(Init(cfg), actions)
    ensures Inv(w)
  {
    InitInv(cfg);
    RunKeepsInv(Init(cfg), actions);
    RunOf(Init(cfg), actions)
  }

  /** At every yield point of every run: the two maps name the same streams; a stream has at most one armed
      timer, for the token it holds; and every held token has exactly one of an armed timer and a renewal
      whose answer is still to come, so no held lock is left unrenewed. */
  lemma RegistryAgreement(cfg: Settings, actions: seq<Action>, s: StreamId)
    requires CanRun(Init(cfg), actions)
    ensures var w := Reached(cfg, actions);
            && (s in w.sessions <==> s in w.lockTokens)
            && (forall a, b | a in w.timers && b in w.timers && w.timers[a].stream == w.timers[b].stream :: a == b)
            && (forall a | a in w.timers :: HoldsToken(w, w.timers[a].stream, w.timers[a].token))
            && (s in w.lockTokens ==>
                  ((exists a :: a in w.timers && w.timers[a].stream == s)
                   <==> !(exists i :: 0 <= i < |Flow(w)| && IsRenewal(Flow(w)[i], s))))
            && (forall i, j | 0 <= i < j < |Flow(w)| :: !(IsRenewal(Flow(w)[i], s) && IsRenewal(Flow(w)[j], s)))
  {
    var w := Reached(cfg, actions);
    if s in w.heartbeats {
      assert w.heartbeats[s] in w.timers;
    }
    forall i, j | 0 <= i < j < |Flow(w)| ensures !(IsRenewal(Flow(w)[i], s) && IsRenewal(Flow(w)[j], s)) {
      assert !Clash(Flow(w)[i], Flow(w)[j]);
    }
  }

  /** Handling the next answer changes session `sid`. */
  predicate AnswerChanges(w: Worker, now: int, sid: SessionId)
    requires w.replies != []
  {
    sid in w.instances && !(sid in DoDeliver(w, now).instances && DoDeliver(w, now).instances[sid] == w.instances[sid])
  }

  /** Heartbeat isolation: the answer to a renewal changes no session but the one its token was issued for,
      and that one only when it is a refusal. `tick` does not compare tokens here: the order of answers does. */
  lemma HeartbeatIsolation(cfg: Settings, actions: seq<Action>, now: int, sid: SessionId)
    requires CanRun(Init(cfg), actions) && CanDo(Reached(cfg, actions), Deliver(now))
    requires var w := Reached(cfg, actions);
             w.replies[0].call.statement.Renew? && AnswerChanges(w, now, sid)
    ensures var w := Reached(cfg, actions);
            && w.replies[0].answer == No
            && w.instances[sid].token == w.replies[0].call.statement.token
            && w.instances[sid].stream == w.replies[0].call.statement.stream
  {
    var w := Reached(cfg, actions);
    var st := w.replies[0].call.statement;
    if st.stream in w.sessions {
      TakenRenewal(w);
      assert w.instances[w.sessions[st.stream]].stream == st.stream;
      assert w.instances[w.sessions[st.stream]].token == w.lockTokens[st.stream];
    }
    hide Inv, InvWith;
    RenewalTouchesOne(w, now, sid);
  }

  lemma RenewalTouchesOne(w: Worker, now: int, sid: SessionId)
    requires w.replies != [] && w.replies[0].call.statement.Renew?
    requires sid in w.instances
    ensures var s := w.replies[0].call.statement.stream;
            && sid in DoDeliver(w, now).instances
            && (DoDeliver(w, now).instances[sid] != w.instances[sid] ==>
                  w.replies[0].answer == No && s in w.sessions && w.sessions[s] == sid)
  {
    hide StepSession, Apply;
    var s := w.replies[0].call.statement.stream;
    if s in w.sessions && w.sessions[s] in w.instances {
      StepTouchesOne(Taken(w), w.sessions[s], Fail, now, sid);
    }
  }

  lemma StepTouchesOne(w: Worker, sid: SessionId, op: Op, now: int, other: SessionId)
    requires sid in w.instances && Enabled(w.instances[sid].session, op) && other in w.instances
    ensures var w' := StepSession(w, sid, op, now);
            other in w'.instances && (other != sid ==> w'.instances[other] == w.instances[other])
  {
    hide StateListener, Apply;
    ListenerTouchesNoSession(PutSession(w, sid, Apply(w.instances[sid].session, op)), sid, now);
  }

  lemma ListenerTouchesNoSession(w: Worker, sid: SessionId, now: int)
    requires sid in w.instances
    ensures StateListener(w, sid, now).instances == w.instances
  {
    ListenerShape(w, sid, now);
    hide StateListener;
  }

  /** Each session's eviction releases at most once in a run, with the session's own token, and a session that
      has been evicted can go on (even from errored to stopped) without touching anything but itself: not the
      maps, not the timers, not the connection, and so not a successor on the same stream. */
  lemma EvictedSessionsAreInert(cfg: Settings, actions: seq<Action>, sid: SessionId, op: Op, now: int)
    requires CanRun(Init(cfg), actions) && CanDo(Reached(cfg, actions), SessionOp(sid, op, now))
    requires sid in Reached(cfg, actions).released
    ensures var w := Reached(cfg, actions);
            && (forall i, j | 0 <= i < j < |w.released| :: w.released[i] != w.released[j])
            && Do(w, SessionOp(sid, op, now)) == PutSession(w, sid, Apply(w.instances[sid].session, op))
  {
    hide Inv, Apply;
    UnmappedOnceReleased(Reached(cfg, actions), sid);
  }

  lemma UnmappedOnceReleased(w: Worker, sid: SessionId)
    requires Inv(w) && sid in w.released && sid in w.instances
    ensures var s := w.instances[sid].stream; s !in w.sessions || w.sessions[s] != sid
    ensures forall i, j | 0 <= i < j < |w.released| :: w.released[i] != w.released[j]
  {
    var s := w.instances[sid].stream;
    if s in w.sessions && w.sessions[s] == sid {
      assert Mapped(w.sessions, sid);
    }
  }

  /** The release an eviction sends names the evicted session's own claim. */
  lemma EvictionReleasesOwnToken(cfg: Settings, actions: seq<Action>, sid: SessionId, op: Op, now: int)
    requires CanRun(Init(cfg), actions) && CanDo(Reached(cfg, actions), SessionOp(sid, op, now))
    requires Mapped(Reached(cfg, actions).sessions, sid)
    requires Terminal(Apply(Reached(cfg, actions).instances[sid].session, op).status)
    ensures var w := Reached(cfg, actions);
            var w' := Do(w, SessionOp(sid, op, now));
            var i := w.instances[sid];
            && w'.requests == w.requests + [Call(Release(i.stream, w.cfg.workerId, i.token), now)]
            && w'.sessions == w.sessions - {i.stream} && w'.released == w.released + [sid]
  {
    hide Inv, Apply, StepSession;
    var w := Reached(cfg, actions);
    var s := MappedStream(w, sid);
    EvictionSends(w, s, op, now);
  }

  lemma EvictionSends(w: Worker, s: StreamId, op: Op, now: int)
    requires s in w.sessions && s in w.lockTokens && w.sessions[s] in w.instances
    requires w.instances[w.sessions[s]].stream == s && Serving(w.instances[w.sessions[s]].session.status)
    requires Enabled(w.instances[w.sessions[s]].session, op)
    requires Terminal(Apply(w.instances[w.sessions[s]].session, op).status)
    ensures var w' := StepSession(w, w.sessions[s], op, now);
            && w'.requests == w.requests + [Call(Release(s, w.cfg.workerId, w.lockTokens[s]), now)]
            && w'.sessions == w.sessions - {s} && w'.released == w.released + [w.sessions[s]]
  {
    hide Apply;
    EvictionShape(w, s, Apply(w.instances[w.sessions[s]].session, op), now);
  }

  lemma MappedStream(w: Worker, sid: SessionId) returns (s: StreamId)
    requires Inv(w) && Mapped(w.sessions, sid)
    ensures s in w.sessions && w.sessions[s] == sid && sid in w.instances && s in w.lockTokens
    ensures w.instances[sid].stream == s && w.instances[sid].token == w.lockTokens[s]
    ensures Serving(w.instances[sid].session.status)
  {
    s :| s in w.sessions && w.sessions[s] == sid;
  }

  // ----- Sessions inside a worker -----

  /** Every session the worker ever made is accounted for, and configured alike. */
  ghost predicate SessionsValid(instances: map<SessionId, Instance>, cfg: Config) {
    forall sid | sid in instances :: Valid(instances[sid].session) && instances[sid].session.cfg == cfg
  }

  lemma SessionMoves(w: Worker, sid: SessionId, op: Op)
    requires SessionsValid(w.instances, w.cfg.session) && sid in w.instances && Enabled(w.instances[sid].session, op)
    ensures SessionsValid(PutSession(w, sid, Apply(w.instances[sid].session, op)).instances, w.cfg.session)
  {
    StepKeepsValid(w.instances[sid].session, op);
    hide Valid, Apply;
  }

  lemma SpawnKeepsSessionsValid(w: Worker, s: StreamId, token: Token)
    requires SessionsValid(w.instances, w.cfg.session)
    ensures SessionsValid(Spawn(w, s, token).instances, w.cfg.session)
  {
    FreshIsValid(w.cfg.session);
    StepKeepsValid(Fresh(w.cfg.session), Start);
    hide Valid, Apply;
  }

  lemma StepSessionKeepsValid(w: Worker, sid: SessionId, op: Op, now: int)
    requires SessionsValid(w.instances, w.cfg.session) && sid in w.instances && Enabled(w.instances[sid].session, op)
    ensures var w' := StepSession(w, sid, op, now);
            w'.cfg == w.cfg && SessionsValid(w'.instances, w.cfg.session)
  {
    hide SessionsValid, Apply;
    SessionMoves(w, sid, op);
    ListenerTouchesNoSession(PutSession(w, sid, Apply(w.instances[sid].session, op)), sid, now);
  }

  lemma ResumeKeepsValid(w: Worker, e: Event, s: StreamId, token: Token, now: int)
    requires SessionsValid(w.instances, w.cfg.session)
    ensures var w' := ResumeRoute(w, e, s, token, now);
            w'.cfg == w.cfg && SessionsValid(w'.instances, w.cfg.session)
  {
    hide SessionsValid, Apply;
    if s in w.sessions {
      if w.sessions[s] in w.instances {
        SessionMoves(w, w.sessions[s], Enqueue(e));
      }
    } else {
      var armed := ScheduleNext(w.(lockTokens := w.lockTokens[s := token]), s, token, now);
      SpawnKeepsSessionsValid(armed, s, token);
      SessionMoves(Spawn(armed, s, token), w.nextSession, Enqueue(e));
    }
  }

  lemma {:induction false} ResumeAllKeepsValid(w: Worker, events: seq<Event>, s: StreamId, token: Token, now: int)
    requires SessionsValid(w.instances, w.cfg.session)
    ensures var w' := ResumeAll(w, events, s, token, now);
            w'.cfg == w.cfg && SessionsValid(w'.instances, w.cfg.session)
    decreases |events|
  {
    hide SessionsValid, ResumeRoute;
    if events != [] {
      ResumeKeepsValid(w, events[0], s, token, now);
      ResumeAllKeepsValid(ResumeRoute(w, events[0], s, token, now), events[1..], s, token, now);
    }
  }

  lemma DeliverKeepsValid(w: Worker, now: int)
    requires SessionsValid(w.instances, w.cfg.session) && w.replies != []
    ensures DoDeliver(w, now).cfg == w.cfg && SessionsValid(DoDeliver(w, now).instances, w.cfg.session)
  {
    hide SessionsValid, StepSession, ResumeAll;
    var st := w.replies[0].call.statement;
    match st
    case Acquire(s, _, token, _) =>
      ResumeAllKeepsValid(Taken(w).(waiting := w.waiting - {s}), if s in w.waiting then w.waiting[s] else [], s,
          token, now);
    case Renew(s, _, token, _) =>
      if s in w.sessions && w.sessions[s] in w.instances {
        StepSessionKeepsValid(Taken(w), w.sessions[s], Fail, now);
      }
    case _ =>
  }

  lemma RouteKeepsSessionsValid(w: Worker, e: Event, token: Token, now: int, clock: int)
    requires SessionsValid(w.instances, w.cfg.session)
    ensures var w' := DoRoute(w, e, token, now, clock); w'.cfg == w.cfg && SessionsValid(w'.instances, w.cfg.session)
  {
    hide SessionsValid, Apply;
    if e.streamId in w.sessions && w.sessions[e.streamId] in w.instances {
      SessionMoves(w, w.sessions[e.streamId], Enqueue(e));
    }
  }

  lemma ActionKeepsSessionsValid(w: Worker, a: Action)
    requires SessionsValid(w.instances, w.cfg.session) && CanDo(w, a)
    ensures Do(w, a).cfg == w.cfg && SessionsValid(Do(w, a).instances, w.cfg.session)
  {
    hide SessionsValid, StepSession, DoDeliver, DoRoute;
    match a
    case Route(e, token, now, clock) => RouteKeepsSessionsValid(w, e, token, now, clock);
    case Deliver(now) => DeliverKeepsValid(w, now);
    case SessionOp(sid, op, now) => StepSessionKeepsValid(w, sid, op, now);
    case _ =>
  }

  lemma {:induction false} RunKeepsSessionsValid(w: Worker, actions: seq<Action>)
    requires SessionsValid(w.instances, w.cfg.session) && CanRun(w, actions)
    ensures RunOf(w, actions).cfg == w.cfg && SessionsValid(RunOf(w, actions).instances, w.cfg.session)
    decreases |actions|
  {
    hide SessionsValid;
    if actions != [] {
      ActionKeepsSessionsValid(w, actions[0]);
      RunKeepsSessionsValid(Do(w, actions[0]), actions[1..]);
    }
  }

  // ----- Bounded load -----

  /** The worker awaits each `route` before the next, so a claim is never in flight when another starts. */
  predicate Serial(w: Worker, a: Action) {
    a.Route? ==> w.waiting == map[]
  }

  predicate SerialRun(w: Worker, actions: seq<Action>)
    requires CanRun(w, actions)
    decreases |actions|
  {
    actions == [] || (Serial(w, actions[0]) && SerialRun(Do(w, actions[0]), actions[1..]))
  }

  ghost predicate WithinCap(w: Worker) {
    |w.sessions| + |w.waiting| <= w.cfg.maxSessions
  }

  lemma SmallerMap<K, V>(m: map<K, V>, k: K)
    ensures |m - {k}| == if k in m then |m| - 1 else |m|
  {
    assert (m - {k}).Keys == m.Keys - {k};
  }

  lemma LargerMap<K, V>(m: map<K, V>, k: K, v: V)
    ensures |m[k := v]| == if k in m then |m| else |m| + 1
  {
    assert m[k := v].Keys == m.Keys + {k};
  }

  lemma StepSessionKeepsCount(w: Worker, sid: SessionId, op: Op, now: int)
    requires sid in w.instances && Enabled(w.instances[sid].session, op)
    ensures var w' := StepSession(w, sid, op, now);
            |w'.sessions| <= |w.sessions| && w'.waiting == w.waiting && w'.cfg == w.cfg
  {
    hide Apply, StateListener;
    ListenerKeepsCount(PutSession(w, sid, Apply(w.instances[sid].session, op)), sid, now);
  }

  lemma ListenerKeepsCount(w: Worker, sid: SessionId, now: int)
    requires sid in w.instances
    ensures var w' := StateListener(w, sid, now);
            |w'.sessions| <= |w.sessions| && w'.waiting == w.waiting && w'.cfg == w.cfg
  {
    ListenerShape(w, sid, now);
    hide StateListener;
    SmallerMap(w.sessions, w.instances[sid].stream);
  }

  lemma {:induction false} LaterResumesKeepCount(w: Worker, events: seq<Event>, s: StreamId, token: Token, now: int)
    requires s in w.sessions
    ensures var w' := ResumeAll(w, events, s, token, now);
            w'.sessions == w.sessions && w'.waiting == w.waiting && w'.cfg == w.cfg
    decreases |events|
  {
    hide Apply;
    if events != [] {
      LaterResumesKeepCount(ResumeRoute(w, events[0], s, token, now), events[1..], s, token, now);
    }
  }

  lemma FirstResumeMaps(w: Worker, e: Event, s: StreamId, token: Token, now: int)
    requires s !in w.sessions
    ensures var w' := ResumeRoute(w, e, s, token, now);
            w'.sessions == w.sessions[s := w.nextSession] && w'.waiting == w.waiting && w'.cfg == w.cfg
  {
    hide Apply;
  }

  lemma GrantKeepsCap(w: Worker, s: StreamId, token: Token, now: int)
    requires WithinCap(w) && s in w.waiting && w.waiting[s] != [] && s !in w.sessions
    ensures WithinCap(ResumeAll(w.(waiting := w.waiting - {s}), w.waiting[s], s, token, now))
  {
    hide ResumeRoute;
    var w1 := w.(waiting := w.waiting - {s});
    var events := w.waiting[s];
    SmallerMap(w.waiting, s);
    LargerMap(w.sessions, s, w.nextSession);
    FirstResumeMaps(w1, events[0], s, token, now);
    LaterResumesKeepCount(ResumeRoute(w1, events[0], s, token, now), events[1..], s, token, now);
  }

  lemma HeadClaimIsAwaited(w: Worker)
    requires Inv(w) && w.replies != [] && w.replies[0].call.statement.Acquire?
    ensures var s := w.replies[0].call.statement.stream;
            s in w.waiting && w.waiting[s] != [] && s !in w.sessions
  {
    hide SpawnedBy;
    SpawnKeepsInv(w, 0);
  }

  lemma DeliverKeepsCap(w: Worker, now: int)
    requires Inv(w) && WithinCap(w) && w.replies != []
    ensures WithinCap(DoDeliver(w, now))
  {
    hide Inv, WithinCap, DoDeliver;
    if w.replies[0].call.statement.Acquire? {
      HeadClaimIsAwaited(w);
      ClaimAnswerKeepsCap(w, now);
    } else {
      OtherAnswerKeepsCap(w, now);
    }
  }

  lemma ClaimAnswerKeepsCap(w: Worker, now: int)
    requires WithinCap(w) && w.replies != [] && w.replies[0].call.statement.Acquire?
    requires var s := w.replies[0].call.statement.stream; s in w.waiting && w.waiting[s] != [] && s !in w.sessions
    ensures WithinCap(DoDeliver(w, now))
  {
    hide ResumeAll;
    var st := w.replies[0].call.statement;
    SmallerMap(w.waiting, st.stream);
    if w.replies[0].answer.Yes? {
      GrantKeepsCap(Taken(w), st.stream, st.token, now);
    }
  }

  lemma OtherAnswerKeepsCap(w: Worker, now: int)
    requires WithinCap(w) && w.replies != [] && !w.replies[0].call.statement.Acquire?
    ensures WithinCap(DoDeliver(w, now))
  {
    hide StepSession, Apply;
    var st := w.replies[0].call.statement;
    if st.Renew? && st.stream in w.sessions && w.sessions[st.stream] in w.instances {
      StepSessionKeepsCount(Taken(w), w.sessions[st.stream], Fail, now);
    }
  }

  /** The check that the code does not make: a new claim must fit beside the sessions and the claims in flight. */
  predicate Fits(w: Worker, s: StreamId) {
    s in w.sessions || s in w.waiting || |w.sessions| >= w.cfg.maxSessions ||
        |w.sessions| + |w.waiting| < w.cfg.maxSessions
  }

  predicate Guarded(w: Worker, a: Action) {
    a.Route? ==> Fits(w, a.event.streamId)
  }

  /** A `route` call keeps sessions and claims in flight within the cap exactly when its claim fits. */
  lemma RouteKeepsCapIffItFits(w: Worker, e: Event, token: Token, now: int, clock: int)
    requires WithinCap(w)
    ensures WithinCap(DoRoute(w, e, token, now, clock)) <==> Fits(w, e.streamId)
  {
    hide Apply;
    LargerMap(w.waiting, e.streamId, [e]);
  }

  lemma ActionKeepsCap(w: Worker, a: Action)
    requires Inv(w) && WithinCap(w) && CanDo(w, a)
    ensures WithinCap(Do(w, a)) <==> Guarded(w, a)
  {
    hide Inv, StepSession, DoDeliver, DoRoute, Apply, Fits;
    match a
    case Route(e, token, now, clock) => RouteKeepsCapIffItFits(w, e, token, now, clock);
    case Deliver(now) => DeliverKeepsCap(w, now);
    case SessionOp(sid, op, now) => StepSessionKeepsCount(w, sid, op, now);
    case _ =>
  }

  /** Every claim of the run fits when it is made; `route` calls may overlap. */
  predicate GuardedRun(w: Worker, actions: seq<Action>)
    requires CanRun(w, actions)
    decreases |actions|
  {
    actions == [] || (Guarded(w, actions[0]) && GuardedRun(Do(w, actions[0]), actions[1..]))
  }

  ghost predicate AlwaysWithinCap(w: Worker, actions: seq<Action>)
    requires CanRun(w, actions)
    decreases |actions|
  {
    WithinCap(w) && (actions == [] || AlwaysWithinCap(Do(w, actions[0]), actions[1..]))
  }

  /** With overlapping `route` calls, sessions and claims in flight stay within the cap throughout a run if and only if
      every claim fits when it is made. */
  lemma {:induction false} CapIsKeptIffClaimsFit(w: Worker, actions: seq<Action>)
    requires Inv(w) && WithinCap(w) && CanRun(w, actions)
    ensures AlwaysWithinCap(w, actions) <==> GuardedRun(w, actions)
    ensures GuardedRun(w, actions) ==> WithinCap(RunOf(w, actions))
    decreases |actions|
  {
    hide Inv, WithinCap, Guarded, Do, CanDo;
    if actions != [] {
      ActionKeepsInv(w, actions[0]);
      ActionKeepsCap(w, actions[0]);
      var w' := Do(w, actions[0]);
      if WithinCap(w') {
        CapIsKeptIffClaimsFit(w', actions[1..]);
      } else {
        assert !AlwaysWithinCap(w', actions[1..]);
      }
    }
  }

  lemma SerialIsGuarded(w: Worker, a: Action)
    requires Serial(w, a)
    ensures Guarded(w, a)
  {
  }

  lemma {:induction false} SerialRunIsGuarded(w: Worker, actions: seq<Action>)
    requires CanRun(w, actions) && SerialRun(w, actions)
    ensures GuardedRun(w, actions)
    decreases |actions|
  {
    hide Serial, Guarded, Do, CanDo;
    if actions != [] {
      SerialIsGuarded(w, actions[0]);
      SerialRunIsGuarded(Do(w, actions[0]), actions[1..]);
    }
  }

  /** A worker that awaits each `route` call before the next keeps the cap. */
  lemma RunKeepsCap(w: Worker, actions: seq<Action>)
    requires Inv(w) && WithinCap(w) && CanRun(w, actions) && SerialRun(w, actions)
    ensures WithinCap(RunOf(w, actions))
  {
    hide Inv, WithinCap, SerialRun, GuardedRun, CanRun, RunOf;
    SerialRunIsGuarded(w, actions);
    CapIsKeptIffClaimsFit(w, actions);
  }

  /** `totalQueueDepth()` over the sessions of the streams in `streams`. */
  ghost function QueueDepth(w: Worker, streams: set<StreamId>): nat {
    if streams == {} then 0
    else
      var s :| s in streams;
      DepthOf(w, s) + QueueDepth(w, streams - {s})
  }

  function DepthOf(w: Worker, s: StreamId): nat {
    if s in w.sessions && w.sessions[s] in w.instances then |w.instances[w.sessions[s]].session.queue| else 0
  }

  lemma {:induction false} DepthIsBounded(w: Worker, streams: set<StreamId>)
    requires SessionsValid(w.instances, w.cfg.session)
    ensures QueueDepth(w, streams) <= |streams| * w.cfg.session.maxQueueDepth
    decreases streams
  {
    if streams != {} {
      var s :| s in streams && QueueDepth(w, streams) == DepthOf(w, s) + QueueDepth(w, streams - {s});
      DepthIsBounded(w, streams - {s});
      assert DepthOf(w, s) <= w.cfg.session.maxQueueDepth by {
        if s in w.sessions && w.sessions[s] in w.instances {
          assert Valid(w.instances[w.sessions[s]].session);
        }
      }
      OneLess(|streams|, w.cfg.session.maxQueueDepth);
    }
  }

  lemma Monotone(a: nat, b: nat, k: nat)
    requires a <= b
    ensures a * k <= b * k
  {
  }

  /** Under serial routing no run maps more sessions than the cap, and the summed queue depth never exceeds
      the worker's high-watermark, the cap times the depth of one queue. */
  lemma BoundedLoad(cfg: Settings, actions: seq<Action>)
    requires CanRun(Init(cfg), actions) && SerialRun(Init(cfg), actions)
    ensures var w := Reached(cfg, actions);
            && |w.sessions| <= cfg.maxSessions
            && QueueDepth(w, w.sessions.Keys) <= cfg.maxSessions * cfg.session.maxQueueDepth
  {
    hide Inv, QueueDepth;
    InitInv(cfg);
    RunKeepsCap(Init(cfg), actions);
    RunKeepsSessionsValid(Init(cfg), actions);
    var w := Reached(cfg, actions);
    DepthIsBounded(w, w.sessions.Keys);
    Monotone(|w.sessions.Keys|, cfg.maxSessions, cfg.session.maxQueueDepth);
  }
}
