/** What one action of a worker can do to the outside: the calls it sends, the answers it takes, the streams
    it maps. */
module WorkerEffects {
  import opened LockTable
  import opened Sessions
  import opened Workers
  import opened Registry
  import opened RegistryRuns

  /** The answer at the head grants `token` for `s`. */
  predicate GrantsNext(w: Worker, s: StreamId, token: Token) {
    && w.replies != [] && w.replies[0].answer.Yes?
    && w.replies[0].call.statement.Acquire?
    && w.replies[0].call.statement.stream == s && w.replies[0].call.statement.token == token
  }

  /** `token` is the claim of a session that has been evicted. */
  ghost predicate NamesReleased(token: Token, released: seq<SessionId>, instances: map<SessionId, Instance>) {
    exists k :: 0 <= k < |released| && released[k] in instances && instances[released[k]].token == token
  }

  /** A call the worker may send while becoming `w`, at time `now` with its clock reading `clock`. */
  ghost predicate Proper(c: Call, w: Worker, now: int, clock: int) {
    match c.statement
    case Acquire(_, _, _, expires) => c.issuedAt == now && expires == clock + w.cfg.ttlMs
    case Renew(_, _, _, expires) => c.issuedAt == now && expires == clock + w.cfg.ttlMs
    case Release(_, _, token) => NamesReleased(token, w.released, w.instances)
    case ReleaseAll(_) => w.phase.Drained?
  }

  ghost predicate InstancesGrow(before: map<SessionId, Instance>, after: map<SessionId, Instance>) {
    forall sid | sid in before :: sid in after && after[sid].token == before[sid].token
  }

  /** No stream is mapped except one that was, under the same token, or one the answer at the head grants. */
  ghost predicate MapsOnlyGranted(w: Worker, w': Worker) {
    forall s | s in w'.sessions ::
      s in w'.lockTokens &&
      ((s in w.sessions && s in w.lockTokens && w'.lockTokens[s] == w.lockTokens[s])
       || GrantsNext(w, s, w'.lockTokens[s]))
  }

  ghost predicate MapsNothingNew(w: Worker, w': Worker) {
    forall s | s in w'.sessions ::
      s in w'.lockTokens && s in w.sessions && s in w.lockTokens && w'.lockTokens[s] == w.lockTokens[s]
  }

  /** At most one call is sent, and nothing is forgotten. */
  ghost predicate Sends(w: Worker, w': Worker, now: int, clock: int) {
    && w'.cfg == w.cfg
    && w.released <= w'.released
    && InstancesGrow(w.instances, w'.instances)
    && (w.phase.Drained? ==> w'.phase.Drained?)
    && (w'.requests == w.requests ||
        (|w'.requests| == |w.requests| + 1 && w.requests == w'.requests[..|w.requests|]
         && Proper(w'.requests[|w.requests|], w', now, clock)))
  }

  lemma ListenerEffects(w: Worker, sid: SessionId, now: int, clock: int)
    requires sid in w.instances && w.sessions.Keys == w.lockTokens.Keys
    requires w.instances[sid].stream in w.sessions && w.sessions[w.instances[sid].stream] == sid ==>
               w.instances[sid].token == w.lockTokens[w.instances[sid].stream]
    ensures var w' := StateListener(w, sid, now);
            MapsNothingNew(w, w') && Sends(w, w', now, clock) && w'.replies == w.replies
  {
    var w' := StateListener(w, sid, now);
    var s := w.instances[sid].stream;
    if s in w.sessions && w.sessions[s] == sid {
      assert w'.released[|w.released|] == sid;
      assert NamesReleased(w.lockTokens[s], w'.released, w'.instances);
    }
  }

  lemma StepSessionEffects(w: Worker, sid: SessionId, op: Op, now: int, clock: int)
    requires sid in w.instances && Enabled(w.instances[sid].session, op) && w.sessions.Keys == w.lockTokens.Keys
    requires w.instances[sid].stream in w.sessions && w.sessions[w.instances[sid].stream] == sid ==>
               w.instances[sid].token == w.lockTokens[w.instances[sid].stream]
    ensures var w' := StepSession(w, sid, op, now);
            MapsNothingNew(w, w') && Sends(w, w', now, clock) && w'.replies == w.replies
  {
    hide Apply, StateListener, Proper;
    var w1 := PutSession(w, sid, Apply(w.instances[sid].session, op));
    ListenerEffects(w1, sid, now, clock);
  }

  lemma RouteEffects(w: Worker, e: Event, token: Token, now: int, clock: int)
    requires w.sessions.Keys == w.lockTokens.Keys
    ensures var w' := DoRoute(w, e, token, now, clock);
            MapsNothingNew(w, w') && Sends(w, w', now, clock) && w'.replies == w.replies
  {
    var w' := DoRoute(w, e, token, now, clock);
    if Claims(w, e.streamId) {
      hide Apply;
    } else {
      NoClaim(w, e, token, now, clock);
      forall sid | sid in w.instances ensures sid in w'.instances && w'.instances[sid].token == w.instances[sid].token {
        RouteReachesOneSession(w, e, token, now, clock, sid);
      }
      hide DoRoute;
    }
  }

  lemma FireEffects(w: Worker, id: TimerId, now: int, clock: int)
    requires w.sessions.Keys == w.lockTokens.Keys && id in w.timers
    ensures var w' := DoFire(w, id, now, clock);
            MapsNothingNew(w, w') && Sends(w, w', now, clock) && w'.replies == w.replies
  {
  }

  lemma SpawnEffects(w: Worker, s: StreamId, token: Token, now: int, clock: int)
    requires w.sessions.Keys == w.lockTokens.Keys && s !in w.sessions && w.nextSession !in w.instances
    requires GrantsNext(w, s, token)
    ensures var w' := SpawnedBy(w, s, token, now);
            MapsOnlyGranted(w, w') && Sends(w, w', now, clock) && w'.replies == w.replies[1..]
            && HoldsToken(w', s, token) && s in w'.sessions && w'.sessions[s] in w'.instances
  {
    hide Apply;
  }

  /** Enqueueing into mapped sessions sends nothing and maps nothing. */
  lemma {:induction false} LaterResumesSendNothing(w: Worker, events: seq<Event>, s: StreamId, token: Token, now: int)
    requires HoldsToken(w, s, token) && s in w.sessions && w.sessions[s] in w.instances
    ensures var w' := ResumeAll(w, events, s, token, now);
            && w' == w.(instances := w'.instances) && InstancesGrow(w.instances, w'.instances)
    decreases |events|
  {
    hide Apply;
    if events != [] {
      LaterResumesSendNothing(ResumeRoute(w, events[0], s, token, now), events[1..], s, token, now);
    }
  }

  lemma GrantShape(w: Worker, now: int)
    requires w.replies != [] && w.replies[0].call.statement.Acquire? && w.replies[0].answer.Yes?
    requires var s := w.replies[0].call.statement.stream;
             s in w.waiting && w.waiting[s] != [] && s !in w.sessions && w.nextSession !in w.instances
    ensures var st := w.replies[0].call.statement;
            var spawned := SpawnedBy(w, st.stream, st.token, now);
            DoDeliver(w, now) == ResumeAll(spawned, w.waiting[st.stream], st.stream, st.token, now)
  {
    hide Apply;
    var st := w.replies[0].call.statement;
    var s, token := st.stream, st.token;
    var events := w.waiting[s];
    var w1 := Taken(w).(waiting := w.waiting - {s});
    var spawned := SpawnedBy(w, s, token, now);
    assert ResumeRoute(w1, events[0], s, token, now) == EnqueueInto(spawned, w.nextSession, events[0])
           == ResumeRoute(spawned, events[0], s, token, now);
  }

  lemma GrantEffects(w: Worker, now: int, clock: int)
    requires w.replies != [] && w.replies[0].call.statement.Acquire? && w.replies[0].answer.Yes?
    requires w.sessions.Keys == w.lockTokens.Keys && w.nextSession !in w.instances
    requires var s := w.replies[0].call.statement.stream;
             s in w.waiting && w.waiting[s] != [] && s !in w.sessions
    ensures var w' := DoDeliver(w, now);
            MapsOnlyGranted(w, w') && Sends(w, w', now, clock) && w'.replies == w.replies[1..]
  {
    var st := w.replies[0].call.statement;
    GrantShape(w, now);
    SpawnEffects(w, st.stream, st.token, now, clock);
    hide DoDeliver, ResumeAll, SpawnedBy;
    LaterResumesSendNothing(SpawnedBy(w, st.stream, st.token, now), w.waiting[st.stream], st.stream, st.token, now);
  }

  lemma RenewalEffects(w: Worker, now: int, clock: int)
    requires w.sessions.Keys == w.lockTokens.Keys && w.replies != [] && w.replies[0].call.statement.Renew?
    requires var s := w.replies[0].call.statement.stream;
             s in w.sessions ==>
               && w.sessions[s] in w.instances && w.instances[w.sessions[s]].stream == s
               && w.instances[w.sessions[s]].token == w.lockTokens[s]
    ensures var w' := DoDeliver(w, now);
            MapsOnlyGranted(w, w') && Sends(w, w', now, clock) && w'.replies == w.replies[1..]
  {
    hide StepSession, Apply;
    var s := w.replies[0].call.statement.stream;
    if s in w.sessions {
      StepSessionEffects(Taken(w), w.sessions[s], Fail, now, clock);
    }
  }

  lemma MappedSession(w: Worker, s: StreamId) returns (sid: SessionId)
    requires Inv(w) && s in w.sessions
    ensures sid == w.sessions[s] && sid in w.instances && s in w.lockTokens
    ensures w.instances[sid].stream == s && w.instances[sid].token == w.lockTokens[s]
  {
    sid := w.sessions[s];
  }

  /** The times an action carries; an action without them sends nothing that depends on them. */
  predicate At(a: Action, now: int, clock: int) {
    match a
    case Route(_, _, t, c) => t == now && c == clock
    case Serve(_) => true
    case Deliver(t) => t == now
    case Fire(_, t, c) => t == now && c == clock
    case SessionOp(_, _, t) => t == now
    case BeginDrain => true
    case FinishDrain(t) => t == now
  }

  lemma InvFacts(w: Worker)
    requires Inv(w)
    ensures w.sessions.Keys == w.lockTokens.Keys
    ensures forall sid | sid in w.instances :: sid < w.nextSession
    ensures forall sid | sid in w.instances && w.instances[sid].stream in w.sessions ::
              w.sessions[w.instances[sid].stream] == sid ==>
              w.instances[sid].token == w.lockTokens[w.instances[sid].stream]
  {
  }

  /** The effects of any action of the worker itself. */
  lemma ActionEffects(w: Worker, a: Action, now: int, clock: int)
    requires Inv(w) && CanDo(w, a) && !a.Serve? && At(a, now, clock)
    ensures var w' := Do(w, a);
            && MapsOnlyGranted(w, w') && (!a.Deliver? ==> MapsNothingNew(w, w')) && Sends(w, w', now, clock)
            && w'.replies == if a.Deliver? then w.replies[1..] else w.replies
  {
    InvFacts(w);
    hide Inv, DoRoute, DoFire, DoDeliver, StepSession, Apply, Sends;
    match a
    case Route(e, token, _, _) => RouteEffects(w, e, token, now, clock);
    case Fire(id, _, _) => FireEffects(w, id, now, clock);
    case SessionOp(sid, op, _) => StepSessionEffects(w, sid, op, now, clock);
    case Deliver(_) => DeliverEffects(w, now, clock);
    case BeginDrain => BeginDrainEffects(w, now, clock);
    case FinishDrain(_) => FinishDrainEffects(w, now, clock);
  }

  /** A denied claim and the answer to a release map and send nothing. */
  lemma QuietEffects(w: Worker, now: int, clock: int)
    requires w.replies != [] && w.sessions.Keys == w.lockTokens.Keys && !w.replies[0].call.statement.Renew?
    requires w.replies[0].call.statement.Acquire? ==> !w.replies[0].answer.Yes?
    ensures var w' := DoDeliver(w, now);
            MapsOnlyGranted(w, w') && Sends(w, w', now, clock) && w'.replies == w.replies[1..]
  {
    hide ResumeAll;
  }

  lemma DeliverEffects(w: Worker, now: int, clock: int)
    requires Inv(w) && w.replies != []
    ensures var w' := DoDeliver(w, now);
            MapsOnlyGranted(w, w') && Sends(w, w', now, clock) && w'.replies == w.replies[1..]
  {
    hide Inv, DoDeliver, MapsOnlyGranted, Sends;
    InvFacts(w);
    var st := w.replies[0].call.statement;
    if st.Acquire? && w.replies[0].answer.Yes? {
      HeadClaimIsAwaited(w);
      GrantEffects(w, now, clock);
    } else if st.Renew? {
      if st.stream in w.sessions {
        var sid := MappedSession(w, st.stream);
      }
      RenewalEffects(w, now, clock);
    } else {
      QuietEffects(w, now, clock);
    }
  }

  lemma BeginDrainEffects(w: Worker, now: int, clock: int)
    requires CanDo(w, BeginDrain) && w.sessions.Keys == w.lockTokens.Keys
    ensures var w' := Do(w, BeginDrain);
            MapsNothingNew(w, w') && Sends(w, w', now, clock) && w'.replies == w.replies
  {
  }

  lemma FinishDrainEffects(w: Worker, now: int, clock: int)
    requires CanDo(w, FinishDrain(now))
    ensures var w' := DoFinishDrain(w, now);
            MapsNothingNew(w, w') && Sends(w, w', now, clock) && w'.replies == w.replies
  {
  }
}
