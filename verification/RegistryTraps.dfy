/** Two assumptions the registry rests on, each with a run that shows what happens without it. */
module RegistryTraps {
  import opened LockTable
  import opened Sessions
  import opened Workers
  import opened Registry
  import opened RegistryRuns
  import opened WorkerEffects

  function Sample(maxSessions: nat): Settings {
    Settings("worker", maxSessions, 1000, 3000, Config(1, 0))
  }

  /** A run written as its successive states. */
  ghost predicate Trace(states: seq<Worker>, actions: seq<Action>) {
    |states| == |actions| + 1 &&
    forall i | 0 <= i < |actions| :: CanDo(states[i], actions[i]) && states[i + 1] == Do(states[i], actions[i])
  }

  lemma {:induction false} TraceIsRun(states: seq<Worker>, actions: seq<Action>)
    requires Trace(states, actions)
    ensures CanRun(states[0], actions) && RunOf(states[0], actions) == states[|actions|]
    decreases |actions|
  {
    hide Do, CanDo;
    if actions != [] {
      assert CanDo(states[0], actions[0]) && states[1] == Do(states[0], actions[0]);
      forall i | 0 <= i < |actions[1..]|
        ensures CanDo(states[1..][i], actions[1..][i]) && states[1..][i + 1] == Do(states[1..][i], actions[1..][i])
      {
        assert CanDo(states[i + 1], actions[i + 1]);
      }
      TraceIsRun(states[1..], actions[1..]);
    }
  }

  lemma RouteClaims(w: Worker, e: Event, token: Token, now: int, clock: int)
    requires e.streamId !in w.sessions && e.streamId !in w.waiting && |w.sessions| < w.cfg.maxSessions
    ensures DoRoute(w, e, token, now, clock) ==
            w.(waiting := w.waiting[e.streamId := [e]], minted := w.minted + {token},
               requests := w.requests +
                 [Call(Acquire(e.streamId, w.cfg.workerId, token, clock + w.cfg.ttlMs), now)])
  {
  }

  /** A granted claim with one waiting caller maps a running session and arms its timer. */
  lemma GrantMaps(w: Worker, reply: Reply, e: Event, now: int)
    requires reply.answer.Yes? && reply.call.statement.Acquire? && reply.call.statement.stream == e.streamId
    requires e.streamId in w.waiting && w.waiting[e.streamId] == [e] && e.streamId !in w.sessions
    ensures var w' := Handle(w, reply, now);
            var s, token := e.streamId, reply.call.statement.token;
            && w'.instances.Keys == w.instances.Keys + {w.nextSession}
            && var i := w'.instances[w.nextSession];
               && i.stream == s && i.token == token && i.session.status == Running
               && w' == w.(waiting := w.waiting - {s},
                           sessions := w.sessions[s := w.nextSession], nextSession := w.nextSession + 1,
                           lockTokens := w.lockTokens[s := token],
                           timers := w.timers[w.nextTimer := Timer(s, token, now + w.cfg.heartbeatMs)],
                           heartbeats := w.heartbeats[s := w.nextTimer], nextTimer := w.nextTimer + 1,
                           instances := w.instances[w.nextSession := i])
  {
    var token := reply.call.statement.token;
    var w1 := w.(waiting := w.waiting - {e.streamId});
    OneCallerResumes(w, reply, e, now);
    FirstCallerSpawns(w1, e, token, now);
    StartRuns(w.cfg.session, e);
    hide Handle, ResumeRoute, Apply;
    assert w.instances[w.nextSession := SpawnedWith(w, e, token)].Keys == w.instances.Keys + {w.nextSession};
  }

  lemma OneCallerResumes(w: Worker, reply: Reply, e: Event, now: int)
    requires reply.answer.Yes? && reply.call.statement.Acquire? && reply.call.statement.stream == e.streamId
    requires e.streamId in w.waiting && w.waiting[e.streamId] == [e]
    ensures Handle(w, reply, now) ==
            ResumeRoute(w.(waiting := w.waiting - {e.streamId}), e, e.streamId, reply.call.statement.token, now)
  {
    hide ResumeRoute;
    assert [e][1..] == [];
    var w2 := ResumeRoute(w.(waiting := w.waiting - {e.streamId}), e, e.streamId, reply.call.statement.token, now);
    assert ResumeAll(w2, [], e.streamId, reply.call.statement.token, now) == w2;
  }

  /** The session a first caller spawns, with its event. */
  function SpawnedWith(w: Worker, e: Event, token: Token): Instance {
    Instance(e.streamId, token, Apply(Apply(Fresh(w.cfg.session), Start), Enqueue(e)))
  }

  lemma FirstCallerSpawns(w: Worker, e: Event, token: Token, now: int)
    requires e.streamId !in w.sessions
    ensures var s := e.streamId;
            ResumeRoute(w, e, s, token, now) ==
            w.(sessions := w.sessions[s := w.nextSession], nextSession := w.nextSession + 1,
               lockTokens := w.lockTokens[s := token],
               timers := w.timers[w.nextTimer := Timer(s, token, now + w.cfg.heartbeatMs)],
               heartbeats := w.heartbeats[s := w.nextTimer], nextTimer := w.nextTimer + 1,
               instances := w.instances[w.nextSession := SpawnedWith(w, e, token)])
  {
    hide Apply, ScheduleNext;
    ScheduleShape(w.(lockTokens := w.lockTokens[e.streamId := token]), e.streamId, token, now);
    var started := Instance(e.streamId, token, Apply(Fresh(w.cfg.session), Start));
    assert w.instances[w.nextSession := started][w.nextSession := SpawnedWith(w, e, token)]
           == w.instances[w.nextSession := SpawnedWith(w, e, token)];
  }

  lemma StartRuns(cfg: Config, e: Event)
    ensures var started := Apply(Fresh(cfg), Start);
            started.status == Running && Apply(started, Enqueue(e)).status == Running
  {
  }

  /** Handling the answers of the connection out of order. */
  function DeliverAt(w: Worker, i: nat, now: int): Worker
    requires i < |w.replies|
  {
    Handle(w.(replies := w.replies[..i] + w.replies[i + 1..]), w.replies[i], now)
  }

  /** Failing the session of a stream lets go of the stream and sends the release. */
  lemma FailLetsGo(w: Worker, s: StreamId, now: int)
    requires s in w.sessions && s in w.lockTokens && s !in w.heartbeats && w.sessions[s] in w.instances
    requires w.instances[w.sessions[s]].stream == s && w.instances[w.sessions[s]].session.status == Running
    ensures var sid := w.sessions[s];
            var failed := Apply(w.instances[sid].session, Fail);
            && failed.status == Errored
            && StepSession(w, sid, Fail, now) ==
               PutSession(w, sid, failed).(sessions := w.sessions - {s}, lockTokens := w.lockTokens - {s},
                                           released := w.released + [sid],
                                           requests := w.requests +
                                             [Call(Release(s, w.cfg.workerId, w.lockTokens[s]), now)])
  {
  }

  lemma DeliverShape(w: Worker, now: int)
    requires w.replies != []
    ensures CanDo(w, Deliver(now))
    ensures Do(w, Deliver(now)) == Handle(w.(replies := w.replies[1..]), w.replies[0], now)
  {
  }

  /** Two claims in flight under a cap of one. */
  lemma TwoClaims(a: Event, b: Event) returns (w1: Worker, w: Worker)
    requires a.streamId == "a" && b.streamId == "b"
    ensures CanDo(Init(Sample(1)), Route(a, 1, 0, 0)) && w1 == Do(Init(Sample(1)), Route(a, 1, 0, 0))
    ensures CanDo(w1, Route(b, 2, 0, 0)) && w == Do(w1, Route(b, 2, 0, 0))
    ensures !Serial(w1, Route(b, 2, 0, 0))
    ensures w.waiting == map["a" := [a], "b" := [b]] && w.sessions == map[] && w.replies == []
    ensures |w.requests| == 2
    ensures w.requests[0].statement == Acquire("a", "worker", 1, 3000)
    ensures w.requests[1].statement == Acquire("b", "worker", 2, 3000)
  {
    var w0 := Init(Sample(1));
    RouteClaims(w0, a, 1, 0, 0);
    w1 := w0.(waiting := map["a" := [a]], minted := {1}, requests := [Call(Acquire("a", "worker", 1, 3000), 0)]);
    assert w0.waiting["a" := [a]] == w1.waiting && w0.minted + {1} == w1.minted;
    assert DoRoute(w0, a, 1, 0, 0) == w1;
    hide DoRoute;
    RouteClaims(w1, b, 2, 0, 0);
    w := Do(w1, Route(b, 2, 0, 0));
  }

  lemma TwoSteps(w: Worker, x: Worker, y: Worker, a: Action, b: Action)
    requires CanDo(w, a) && x == Do(w, a) && CanDo(x, b) && y == Do(x, b)
    ensures Trace([w, x, y], [a, b])
  {
    hide Do, CanDo;
  }

  lemma NotSerial(w: Worker, a: Action, b: Action, rest: seq<Action>)
    requires CanRun(w, [a, b] + rest) && !Serial(Do(w, a), b)
    ensures !SerialRun(w, [a, b] + rest)
  {
    hide Do, CanDo, Serial;
    assert ([a, b] + rest)[1..][0] == b;
  }

  lemma BothServed(w2: Worker) returns (w3: Worker, w4: Worker)
    requires w2.replies == [] && |w2.requests| == 2
    ensures Trace([w2, w3, w4], [Serve(Yes), Serve(Yes)])
    ensures w4 == w2.(requests := [], replies := [Reply(w2.requests[0], Yes), Reply(w2.requests[1], Yes)])
  {
    hide Do, CanDo;
    ServeShape(w2, Yes);
    w3 := Do(w2, Serve(Yes));
    ServeShape(w3, Yes);
    w4 := Do(w3, Serve(Yes));
  }

  lemma GrantDelivered(w: Worker, e: Event) returns (w': Worker)
    requires w.replies != [] && w.replies[0].answer.Yes? && w.replies[0].call.statement.Acquire?
    requires w.replies[0].call.statement.stream == e.streamId && e.streamId !in w.sessions
    requires e.streamId in w.waiting && w.waiting[e.streamId] == [e]
    ensures CanDo(w, Deliver(0)) && w' == Do(w, Deliver(0))
    ensures w'.sessions == w.sessions[e.streamId := w.nextSession]
    ensures w'.waiting == w.waiting - {e.streamId} && w'.replies == w.replies[1..]
  {
    DeliverShape(w, 0);
    hide Do, CanDo, Handle;
    w' := Do(w, Deliver(0));
    GrantMaps(w.(replies := w.replies[1..]), w.replies[0], e, 0);
  }

  lemma BothGranted(w4: Worker, a: Event, b: Event) returns (w5: Worker, w6: Worker)
    requires a.streamId == "a" && b.streamId == "b"
    requires w4.waiting == map["a" := [a], "b" := [b]] && w4.sessions == map[] && |w4.replies| == 2
    requires w4.replies[0].answer == w4.replies[1].answer == Yes
    requires w4.replies[0].call.statement == Acquire("a", "worker", 1, 3000)
    requires w4.replies[1].call.statement == Acquire("b", "worker", 2, 3000)
    ensures Trace([w4, w5, w6], [Deliver(0), Deliver(0)]) && |w6.sessions| == 2
  {
    hide Do, CanDo, Handle;
    w5 := GrantDelivered(w4, a);
    w6 := GrantDelivered(w5, b);
    assert w6.sessions.Keys == {"a", "b"};
    assert |w6.sessions| == |w6.sessions.Keys|;
  }

  lemma TraceJoin(states: seq<Worker>, actions: seq<Action>, more: seq<Worker>, further: seq<Action>)
    requires Trace(states, actions) && Trace([states[|actions|]] + more, further)
    ensures Trace(states + more, actions + further)
  {
    hide Do, CanDo;
    var all, acts := states + more, actions + further;
    forall i | 0 <= i < |acts| ensures CanDo(all[i], acts[i]) && all[i + 1] == Do(all[i], acts[i]) {
      if i >= |actions| {
        var k := i - |actions|;
        var tail := [states[|actions|]] + more;
        assert all[i] == tail[k] && all[i + 1] == tail[k + 1] && acts[i] == further[k];
        assert CanDo(tail[k], further[k]);
      } else {
        assert CanDo(states[i], actions[i]);
      }
    }
  }

  /** The capacity check comes before the await: two overlapping `route` calls for different streams pass it
      together and map two sessions under a cap of one. */
  lemma OverlappingRoutesExceedTheCap(a: Event, b: Event) returns (actions: seq<Action>)
    requires a.streamId == "a" && b.streamId == "b"
    ensures CanRun(Init(Sample(1)), actions) && !SerialRun(Init(Sample(1)), actions)
    ensures |RunOf(Init(Sample(1)), actions).sessions| == 2
  {
    hide Do, CanDo, Serial, CanRun, SerialRun, RunOf, Trace, Init;
    var w0 := Init(Sample(1));
    var w1, w2 := TwoClaims(a, b);
    TwoSteps(w0, w1, w2, Route(a, 1, 0, 0), Route(b, 2, 0, 0));
    var w3, w4 := BothServed(w2);
    var w5, w6 := BothGranted(w4, a, b);
    var two := [Route(a, 1, 0, 0), Route(b, 2, 0, 0)];
    assert [w2] + [w3, w4] == [w2, w3, w4] && [w4] + [w5, w6] == [w4, w5, w6];
    TraceJoin([w0, w1, w2], two, [w3, w4], [Serve(Yes), Serve(Yes)]);
    TraceJoin([w0, w1, w2] + [w3, w4], two + [Serve(Yes), Serve(Yes)], [w5, w6], [Deliver(0), Deliver(0)]);
    actions := two + [Serve(Yes), Serve(Yes)] + [Deliver(0), Deliver(0)];
    TraceIsRun([w0, w1, w2] + [w3, w4] + [w5, w6], actions);
    var rest := [Serve(Yes), Serve(Yes)] + [Deliver(0), Deliver(0)];
    assert actions == two + rest;
    NotSerial(w0, Route(a, 1, 0, 0), Route(b, 2, 0, 0), rest);
  }

  /** Session 0 holds "a" under token 1 with its timer armed for time 1000. */
  ghost predicate Holding(w: Worker) {
    && w.sessions == map["a" := 0] && w.lockTokens == map["a" := 1] && w.heartbeats == map["a" := 0]
    && w.timers == map[0 := Timer("a", 1, 1000)] && w.waiting == map[] && w.requests == [] && w.replies == []
    && w.nextSession == 1 && w.cfg == Sample(1) && w.phase == Routing && w.minted == {1}
    && 0 in w.instances && w.instances[0].stream == "a" && w.instances[0].session.status == Running
  }

  lemma ClaimsFirst(e: Event) returns (w1: Worker)
    requires e.streamId == "a"
    ensures Trace([Init(Sample(1)), w1], [Route(e, 1, 0, 0)])
    ensures w1 == Init(Sample(1)).(waiting := map["a" := [e]], minted := {1},
                                   requests := [Call(Acquire("a", "worker", 1, 3000), 0)])
  {
    w1 := Do(Init(Sample(1)), Route(e, 1, 0, 0));
    RouteClaims(Init(Sample(1)), e, 1, 0, 0);
  }

  lemma ThenHolds(w1: Worker, e: Event) returns (w2: Worker, w3: Worker)
    requires e.streamId == "a"
    requires w1 == Init(Sample(1)).(waiting := map["a" := [e]], minted := {1},
                                    requests := [Call(Acquire("a", "worker", 1, 3000), 0)])
    ensures Trace([w1, w2, w3], [Serve(Yes), Deliver(0)]) && Holding(w3)
  {
    hide Do, CanDo, Handle;
    ServeShape(w1, Yes);
    w2 := Do(w1, Serve(Yes));
    assert w2.replies == [Reply(Call(Acquire("a", "worker", 1, 3000), 0), Yes)] && w2.requests == [];
    DeliverShape(w2, 0);
    w3 := Do(w2, Deliver(0));
    GrantMaps(w2.(replies := w2.replies[1..]), w2.replies[0], e, 0);
  }

  /** The renewal and the release of token 1 and the claim of token 2, all sent and none answered. */
  ghost predicate HandingOver(w: Worker, e: Event) {
    && w.replies == [] && w.sessions == map[] && w.lockTokens == map[] && w.waiting == map["a" := [e]]
    && w.nextSession == 1 && w.cfg == Sample(1) && |w.requests| == 3
    && w.requests[0].statement == Renew("a", "worker", 1, 4000)
    && w.requests[1].statement == Release("a", "worker", 1)
    && w.requests[2].statement == Acquire("a", "worker", 2, 4000)
  }

  lemma FireShape(w: Worker)
    requires Holding(w)
    ensures CanDo(w, Fire(0, 1000, 1000))
    ensures Do(w, Fire(0, 1000, 1000)) ==
            w.(timers := map[], heartbeats := map[], requests := [Call(Renew("a", "worker", 1, 4000), 1000)])
  {
    assert w.timers - {0} == map[] && w.heartbeats - {"a"} == map[];
  }

  lemma HandsOver(w3: Worker, e: Event) returns (states: seq<Worker>, actions: seq<Action>)
    requires Holding(w3) && e.streamId == "a"
    ensures Trace([w3] + states, actions) && |actions| == 3 && HandingOver(states[2], e)
  {
    hide Do, CanDo, Trace, Apply;
    FireShape(w3);
    var w4 := Do(w3, Fire(0, 1000, 1000));
    var w5 := HandsOverFails(w4);
    var w6 := HandsOverClaims(w5, e);
    ThreeSteps(w3, w4, w5, w6, Fire(0, 1000, 1000), SessionOp(0, Fail, 1000), Route(e, 2, 1000, 1000));
    states, actions := [w4, w5, w6], [Fire(0, 1000, 1000), SessionOp(0, Fail, 1000), Route(e, 2, 1000, 1000)];
    assert [w3] + states == [w3, w4, w5, w6];
  }

  /** The session fails while its renewal is on its way. */
  lemma HandsOverFails(w4: Worker) returns (w5: Worker)
    requires w4.sessions == map["a" := 0] && w4.lockTokens == map["a" := 1] && w4.heartbeats == map[]
    requires w4.cfg == Sample(1) && 0 in w4.instances && w4.instances[0].stream == "a"
    requires w4.instances[0].session.status == Running
    ensures CanDo(w4, SessionOp(0, Fail, 1000)) && w5 == Do(w4, SessionOp(0, Fail, 1000))
    ensures w5.sessions == map[] && w5.lockTokens == map[]
    ensures w5.requests == w4.requests + [Call(Release("a", "worker", 1), 1000)]
    ensures w5 == w4.(sessions := w5.sessions, lockTokens := w5.lockTokens, requests := w5.requests,
                      released := w5.released, instances := w5.instances)
  {
    FailLetsGo(w4, "a", 1000);
    hide StepSession, Apply;
    w5 := Do(w4, SessionOp(0, Fail, 1000));
  }

  /** And the stream is claimed again. */
  lemma HandsOverClaims(w5: Worker, e: Event) returns (w6: Worker)
    requires w5.sessions == map[] && w5.waiting == map[] && w5.cfg == Sample(1) && w5.phase == Routing &&
            w5.minted == {1}
    requires e.streamId == "a"
    ensures CanDo(w5, Route(e, 2, 1000, 1000)) && w6 == Do(w5, Route(e, 2, 1000, 1000))
    ensures w6.waiting == map["a" := [e]]
    ensures w6.requests == w5.requests + [Call(Acquire("a", "worker", 2, 4000), 1000)]
    ensures w6 == w5.(waiting := w6.waiting, minted := w6.minted, requests := w6.requests)
  {
    RouteClaims(w5, e, 2, 1000, 1000);
    hide DoRoute;
    w6 := Do(w5, Route(e, 2, 1000, 1000));
  }

  lemma ThreeSteps(w: Worker, x: Worker, y: Worker, z: Worker, a: Action, b: Action, c: Action)
    requires CanDo(w, a) && x == Do(w, a) && CanDo(x, b) && y == Do(x, b) && CanDo(y, c) && z == Do(y, c)
    ensures Trace([w, x, y, z], [a, b, c])
  {
    hide Do, CanDo;
  }

  lemma Answered(w6: Worker, e: Event) returns (states: seq<Worker>, actions: seq<Action>)
    requires HandingOver(w6, e)
    ensures Trace([w6] + states, actions) && |actions| == 3
    ensures states[2] == w6.(requests := [], replies := [Reply(w6.requests[0], No), Reply(w6.requests[1], Yes),
                                                          Reply(w6.requests[2], Yes)])
  {
    hide Do, CanDo;
    ServeShape(w6, No);
    var w7 := Do(w6, Serve(No));
    ServeShape(w7, Yes);
    var w8 := Do(w7, Serve(Yes));
    ServeShape(w8, Yes);
    var w9 := Do(w8, Serve(Yes));
    states, actions := [w7, w8, w9], [Serve(No), Serve(Yes), Serve(Yes)];
  }

  /** A session of token 2 is running, and then the refused renewal of token 1 errors it. */
  ghost predicate FailsAStranger(w: Worker) {
    && |w.replies| == 3 && w.replies[0].call.statement.Renew? && w.replies[0].call.statement.token == 1
    && w.replies[0].answer == No
    && var early := DeliverAt(w, 2, 0);
       && |early.replies| == 2 && 1 in early.instances && early.instances[1].token == 2
       && early.instances[1].session.status == Running
       && var late := DeliverAt(early, 0, 0);
          1 in late.instances && late.instances[1].session.status == Errored
  }

  lemma OutOfOrder(w: Worker, e: Event)
    requires e.streamId == "a" && |w.replies| == 3 && w.sessions == map[] && w.waiting == map["a" := [e]]
    requires w.nextSession == 1
    requires w.replies[0].call.statement == Renew("a", "worker", 1, 4000) && w.replies[0].answer == No
    requires w.replies[2].call.statement == Acquire("a", "worker", 2, 4000) && w.replies[2].answer == Yes
    ensures FailsAStranger(w)
  {
    var rest := w.replies[..2] + w.replies[3..];
    assert |rest| == 2 && rest[0] == w.replies[0];
    GrantMaps(w.(replies := rest), w.replies[2], e, 0);
    var early := DeliverAt(w, 2, 0);
    hide Handle, Apply;
    RefusalFailsTheMapped(early, 0);
  }

  lemma RefusalFailsTheMapped(w: Worker, now: int)
    requires w.replies != [] && w.replies[0].call.statement.Renew? && w.replies[0].answer == No
    requires var s := w.replies[0].call.statement.stream;
             s in w.sessions && w.sessions[s] in w.instances && w.instances[w.sessions[s]].session.status == Running
    ensures var late := DeliverAt(w, 0, now);
            var sid := w.sessions[w.replies[0].call.statement.stream];
            sid in late.instances && late.instances[sid].session.status == Errored
  {
    var s := w.replies[0].call.statement.stream;
    var sid := w.sessions[s];
    var rest := w.(replies := w.replies[..0] + w.replies[1..]);
    assert Apply(w.instances[sid].session, Fail).status == Errored;
    hide StateListener, Apply;
    assert DeliverAt(w, 0, now) == StepSession(rest, sid, Fail, now);
    ListenerTouchesNoSession(PutSession(rest, sid, Apply(rest.instances[sid].session, Fail)), sid, now);
  }

  /** A session of another token than the given one is changed. */
  predicate Disturbs(w: Worker, w': Worker, token: Token, sid: SessionId) {
    && sid in w.instances && w.instances[sid].token != token
    && sid in w'.instances && w'.instances[sid] != w.instances[sid]
  }

  lemma RefusalChangesTheMapped(w: Worker, i: nat, now: int)
    requires Inv(w) && i < |w.replies| && w.replies[i].call.statement.Renew? && w.replies[i].answer == No
    ensures var s, w' := w.replies[i].call.statement.stream, DeliverAt(w, i, now);
            if s !in w.sessions then w'.instances == w.instances
            else
              && s in w.lockTokens && w.sessions[s] in w.instances
              && w.instances[w.sessions[s]].token == w.lockTokens[s]
              && w'.instances.Keys == w.instances.Keys
              && forall sid | sid in w.instances :: w'.instances[sid] != w.instances[sid] <==> sid == w.sessions[s]
  {
    var s := w.replies[i].call.statement.stream;
    if s in w.sessions {
      var sid := MappedSession(w, s);
      MappedIsServing(w, s);
      hide Inv;
      FailingChangesOne(w, i, now);
    } else {
      hide Inv;
    }
  }

  lemma FailingChangesOne(w: Worker, i: nat, now: int)
    requires i < |w.replies| && w.replies[i].call.statement.Renew? && w.replies[i].answer == No
    requires var s := w.replies[i].call.statement.stream;
             s in w.sessions && w.sessions[s] in w.instances && Serving(w.instances[w.sessions[s]].session.status)
    ensures var s, w' := w.replies[i].call.statement.stream, DeliverAt(w, i, now);
            && w'.instances.Keys == w.instances.Keys
            && forall sid | sid in w.instances :: w'.instances[sid] != w.instances[sid] <==> sid == w.sessions[s]
  {
    hide StateListener, DeliverAt, Apply;
    var sid := w.sessions[w.replies[i].call.statement.stream];
    var rest := w.(replies := w.replies[..i] + w.replies[i + 1..]);
    FailingErrors(w.instances[sid].session);
    RefusalFails(w, i, now);
    ListenerTouchesNoSession(PutSession(rest, sid, Apply(w.instances[sid].session, Fail)), sid, now);
  }

  lemma FailingErrors(st: State)
    ensures Apply(st, Fail).status.Errored?
  {
  }

  lemma RefusalFails(w: Worker, i: nat, now: int)
    requires i < |w.replies| && w.replies[i].call.statement.Renew? && w.replies[i].answer == No
    requires var s := w.replies[i].call.statement.stream;
             s in w.sessions && w.sessions[s] in w.instances && Serving(w.instances[w.sessions[s]].session.status)
    ensures var rest := w.(replies := w.replies[..i] + w.replies[i + 1..]);
            DeliverAt(w, i, now) == StepSession(rest, w.sessions[w.replies[i].call.statement.stream], Fail, now)
  {
    hide StepSession, Apply;
  }

  /** Out of order, a refused renewal disturbs the session of another token if and only if its stream is held under
      another token at that moment. */
  lemma RefusalDisturbsIff(w: Worker, i: nat, now: int)
    requires Inv(w) && i < |w.replies| && w.replies[i].call.statement.Renew? && w.replies[i].answer == No
    ensures var st := w.replies[i].call.statement;
            (exists sid :: Disturbs(w, DeliverAt(w, i, now), st.token, sid)) <==>
            st.stream in w.lockTokens && w.lockTokens[st.stream] != st.token
  {
    InvFacts(w);
    hide Inv, DeliverAt;
    RefusalChangesTheMapped(w, i, now);
    var st, w' := w.replies[i].call.statement, DeliverAt(w, i, now);
    if st.stream in w.lockTokens && w.lockTokens[st.stream] != st.token {
      assert Disturbs(w, w', st.token, w.sessions[st.stream]);
    }
  }

  /** Without the order of answers a heartbeat can fail a stranger: a refused renewal of token 1, handled after
      the claim of token 2 on the same stream, errors the session spawned under token 2. Every step before the
      reordering is an ordinary run. */
  lemma ReorderedAnswersFailTheSuccessor(e: Event) returns (actions: seq<Action>)
    requires e.streamId == "a"
    ensures CanRun(Init(Sample(1)), actions) && FailsAStranger(RunOf(Init(Sample(1)), actions))
  {
    hide Do, CanDo, FailsAStranger;
    var w1 := ClaimsFirst(e);
    var w2, w3 := ThenHolds(w1, e);
    var s2, a2 := HandsOver(w3, e);
    var s3, a3 := Answered(s2[2], e);
    var start, s1, a1 := [Init(Sample(1))], [w1, w2, w3], [Route(e, 1, 0, 0), Serve(Yes), Deliver(0)];
    assert start + [w1] == [Init(Sample(1)), w1] && [w1] + [w2, w3] == [w1, w2, w3];
    TraceJoin(start + [w1], [Route(e, 1, 0, 0)], [w2, w3], [Serve(Yes), Deliver(0)]);
    assert start + [w1] + [w2, w3] == start + s1;
    TraceJoin(start + s1, a1, s2, a2);
    TraceJoin(start + s1 + s2, a1 + a2, s3, a3);
    actions := a1 + a2 + a3;
    TraceIsRun(start + s1 + s2 + s3, actions);
    OutOfOrder(s3[2], e);
  }
}
