/** What every action of a worker keeps, and what follows for every run. */
module Registry {
  import opened LockTable
  import opened Sessions
  import opened Workers

  // ----- The connection -----

  function CallsOf(replies: seq<Reply>): (calls: seq<Call>)
    ensures |calls| == |replies|
  {
    seq(|replies|, i requires 0 <= i < |replies| => replies[i].call)
  }

  /** Every statement whose answer has not been handled yet, oldest first. */
  function Flow(w: Worker): seq<Call> {
    CallsOf(w.replies) + w.requests
  }

  predicate IsClaim(c: Call, s: StreamId) {
    c.statement.Acquire? && c.statement.stream == s
  }

  predicate IsRenewal(c: Call, s: StreamId) {
    c.statement.Renew? && c.statement.stream == s
  }

  ghost predicate HasClaim(q: seq<Call>, s: StreamId) {
    exists i :: 0 <= i < |q| && IsClaim(q[i], s)
  }

  ghost predicate HasRenewal(q: seq<Call>, s: StreamId) {
    exists i :: 0 <= i < |q| && IsRenewal(q[i], s)
  }

  /** `b` may not be behind `a`: two claims or two renewals of one stream, or a renewal sent after a claim. */
  predicate Clash(a: Call, b: Call) {
    && (a.statement.Acquire? || a.statement.Renew?)
    && (b.statement.Acquire? || b.statement.Renew?)
    && a.statement.stream == b.statement.stream
    && !(a.statement.Renew? && b.statement.Acquire?)
  }

  ghost predicate Ordered(q: seq<Call>) {
    forall i, j | 0 <= i < j < |q| :: !Clash(q[i], q[j])
  }

  /** The connection against the registry's maps. Each held token has exactly one of an armed timer and an
      unanswered renewal, and that renewal carries the held token. */
  ghost predicate FlowAgrees(q: seq<Call>, held: map<StreamId, Token>, waiting: set<StreamId>, armed: set<StreamId>) {
    && Ordered(q)
    && (forall s :: s in waiting <==> HasClaim(q, s))
    && waiting !! held.Keys
    && armed <= held.Keys
    && (forall i | 0 <= i < |q| && q[i].statement.Renew? && q[i].statement.stream in held ::
          q[i].statement.token == held[q[i].statement.stream])
    && (forall s | s in held :: s in armed <==> !HasRenewal(q, s))
  }

  lemma SendKeepsCalls(q: seq<Call>, c: Call)
    ensures forall s :: HasClaim(q + [c], s) <==> HasClaim(q, s) || IsClaim(c, s)
    ensures forall s :: HasRenewal(q + [c], s) <==> HasRenewal(q, s) || IsRenewal(c, s)
  {
    var q' := q + [c];
    assert q'[|q|] == c;
    assert forall i | 0 <= i < |q| :: q'[i] == q[i];
  }

  lemma AnswerDropsHead(q: seq<Call>)
    requires q != [] && Ordered(q)
    ensures Ordered(q[1..])
    ensures forall s :: HasClaim(q[1..], s) <==> HasClaim(q, s) && !IsClaim(q[0], s)
    ensures forall s :: HasRenewal(q[1..], s) <==> HasRenewal(q, s) && !IsRenewal(q[0], s) && !IsClaim(q[0], s)
  {
    assert forall i | 0 <= i < |q| - 1 :: q[1..][i] == q[i + 1];
    forall s
      ensures HasClaim(q[1..], s) <==> HasClaim(q, s) && !IsClaim(q[0], s)
      ensures HasRenewal(q[1..], s) <==> HasRenewal(q, s) && !IsRenewal(q[0], s) && !IsClaim(q[0], s)
    {
      if HasClaim(q, s) && !IsClaim(q[0], s) {
        var i :| 0 <= i < |q| && IsClaim(q[i], s);
        assert IsClaim(q[1..][i - 1], s);
      }
      if HasRenewal(q, s) && !IsRenewal(q[0], s) && !IsClaim(q[0], s) {
        var i :| 0 <= i < |q| && IsRenewal(q[i], s);
        assert IsRenewal(q[1..][i - 1], s);
      }
    }
  }

  lemma ClaimSent(q: seq<Call>, held: map<StreamId, Token>, waiting: set<StreamId>, armed: set<StreamId>, c: Call)
    requires FlowAgrees(q, held, waiting, armed)
    requires c.statement.Acquire? && c.statement.stream !in held && c.statement.stream !in waiting
    ensures FlowAgrees(q + [c], held, waiting + {c.statement.stream}, armed)
  {
    SendKeepsCalls(q, c);
    forall i | 0 <= i < |q| ensures !Clash(q[i], c) {
      assert !IsClaim(q[i], c.statement.stream);
    }
  }

  lemma RenewalSent(q: seq<Call>, held: map<StreamId, Token>, waiting: set<StreamId>, armed: set<StreamId>, c: Call)
    requires FlowAgrees(q, held, waiting, armed)
    requires c.statement.Renew? && c.statement.stream in armed && c.statement.token == held[c.statement.stream]
    ensures FlowAgrees(q + [c], held, waiting, armed - {c.statement.stream})
  {
    SendKeepsCalls(q, c);
    forall i | 0 <= i < |q| ensures !Clash(q[i], c) {
      assert !IsClaim(q[i], c.statement.stream) && !IsRenewal(q[i], c.statement.stream);
    }
  }

  lemma ReleaseSent(q: seq<Call>, held: map<StreamId, Token>, waiting: set<StreamId>, armed: set<StreamId>,
                    c: Call, gone: StreamId)
    requires FlowAgrees(q, held, waiting, armed)
    requires c.statement.Release? || c.statement.ReleaseAll?
    ensures FlowAgrees(q + [c], held - {gone}, waiting, armed - {gone})
  {
    SendKeepsCalls(q, c);
  }

  lemma AnswerHandled(q: seq<Call>, held: map<StreamId, Token>, waiting: set<StreamId>, armed: set<StreamId>)
    requires FlowAgrees(q, held, waiting, armed) && q != []
    ensures var head := q[0].statement;
            match head
            case Acquire(s, _, token, _) =>
              && s !in held && FlowAgrees(q[1..], held, waiting - {s}, armed)
              && FlowAgrees(q[1..], held[s := token], waiting - {s}, armed + {s})
            case Renew(s, _, token, _) =>
              if s in held then token == held[s] && s !in armed && FlowAgrees(q[1..], held, waiting, armed + {s})
              else FlowAgrees(q[1..], held, waiting, armed)
            case _ => FlowAgrees(q[1..], held, waiting, armed)
  {
    AnswerDropsHead(q);
    var head := q[0].statement;
    assert head.Acquire? ==> IsClaim(q[0], head.stream);
    assert head.Renew? ==> IsRenewal(q[0], head.stream);
    assert forall i | 0 <= i < |q| - 1 :: q[1..][i] == q[i + 1];
    if head.Acquire? {
      forall i | 0 <= i < |q[1..]| ensures !IsRenewal(q[1..][i], head.stream) {
        assert !Clash(q[0], q[i + 1]);
      }
    }
  }

  // ----- The registry's maps -----

  predicate Mapped(sessions: map<StreamId, SessionId>, sid: SessionId) {
    exists s | s in sessions :: sessions[s] == sid
  }

  /** The maps name the same streams, and each mapped session is live, of that stream, and holds that claim. */
  ghost predicate SessionsAgree(sessions: map<StreamId, SessionId>, held: map<StreamId, Token>,
                                instances: map<SessionId, Instance>) {
    && sessions.Keys == held.Keys
    && (forall s | s in sessions ::
          && sessions[s] in instances
          && instances[sessions[s]].stream == s
          && instances[sessions[s]].token == held[s]
          && Serving(instances[sessions[s]].session.status))
  }

  ghost predicate InstancesAgree(instances: map<SessionId, Instance>, next: SessionId, minted: set<Token>) {
    && (forall sid | sid in instances :: sid < next && instances[sid].token in minted)
    && (forall a, b | a in instances && b in instances && a != b :: instances[a].token != instances[b].token)
  }

  /** At most one armed timer a stream; it is the one in `heartbeats` and belongs to the held token. */
  ghost predicate TimersAgree(timers: map<TimerId, Timer>, heartbeats: map<StreamId, TimerId>,
                              held: map<StreamId, Token>, next: TimerId) {
    && (forall id | id in timers ::
          && id < next
          && timers[id].stream in held
          && held[timers[id].stream] == timers[id].token
          && timers[id].stream in heartbeats
          && heartbeats[timers[id].stream] == id)
    && (forall s | s in heartbeats :: heartbeats[s] in timers && timers[heartbeats[s]].stream == s)
  }

  /** Claims in flight carry pairwise different tokens that no session has. */
  ghost predicate ClaimsAreNew(q: seq<Call>, me: WorkerId, instances: map<SessionId, Instance>, minted: set<Token>) {
    && (forall i | 0 <= i < |q| :: q[i].statement.worker == me)
    && (forall i | 0 <= i < |q| && q[i].statement.Acquire? ::
          q[i].statement.token in minted &&
          forall sid | sid in instances :: instances[sid].token != q[i].statement.token)
    && (forall i, j | 0 <= i < j < |q| && q[i].statement.Acquire? && q[j].statement.Acquire? ::
          q[i].statement.token != q[j].statement.token)
  }

  /** A session is evicted at most once, and never mapped again. */
  ghost predicate ReleasedOnce(released: seq<SessionId>, sessions: map<StreamId, SessionId>, next: SessionId) {
    && (forall i, j | 0 <= i < j < |released| :: released[i] != released[j])
    && (forall i | 0 <= i < |released| :: released[i] < next && !Mapped(sessions, released[i]))
  }

  ghost predicate PhaseAgrees(phase: Phase, waiting: map<StreamId, seq<Event>>, sessions: map<StreamId, SessionId>) {
    && (!phase.Routing? ==> waiting == map[])
    && (forall s | s in waiting :: waiting[s] != [])
    && (phase.StoppingAll? ==> forall s | s in sessions :: sessions[s] in phase.members)
    && (phase.Drained? ==> sessions == map[])
  }

  ghost predicate Inv(w: Worker) {
    InvWith(w, w.heartbeats.Keys)
  }

  /** The invariant, with `armed` for the streams whose held token is not waiting for a renewal. */
  ghost predicate InvWith(w: Worker, armed: set<StreamId>) {
    && FlowAgrees(Flow(w), w.lockTokens, w.waiting.Keys, armed)
    && SessionsAgree(w.sessions, w.lockTokens, w.instances)
    && InstancesAgree(w.instances, w.nextSession, w.minted)
    && TimersAgree(w.timers, w.heartbeats, w.lockTokens, w.nextTimer)
    && ClaimsAreNew(Flow(w), w.cfg.workerId, w.instances, w.minted)
    && ReleasedOnce(w.released, w.sessions, w.nextSession)
    && PhaseAgrees(w.phase, w.waiting, w.sessions)
  }

  lemma InitInv(cfg: Settings)
    ensures Inv(Init(cfg))
  {
  }

  lemma FlowOfHandled(w: Worker)
    requires w.replies != []
    ensures Flow(w) != [] && Flow(w)[0] == w.replies[0].call
    ensures Flow(w.(replies := w.replies[1..])) == Flow(w)[1..]
  {
  }

  // ----- Each action keeps the invariant -----

  /** Replacing a session's state by another valid one that has not ended, or that is not mapped. */
  lemma PutKeepsInv(w: Worker, sid: SessionId, after: State)
    requires Inv(w) && sid in w.instances
    requires Serving(after.status) || !Mapped(w.sessions, sid)
    ensures Inv(PutSession(w, sid, after))
  {
    hide FlowAgrees, TimersAgree, SessionsAgree, InstancesAgree, ClaimsAreNew, ReleasedOnce;
    var w' := PutSession(w, sid, after);
    assert Flow(w') == Flow(w);
    hide Flow;
    PutKeepsSessions(w.sessions, w.lockTokens, w.instances, sid, after);
    PutKeepsOthers(w, sid, after);
  }

  lemma PutKeepsSessions(sessions: map<StreamId, SessionId>, held: map<StreamId, Token>,
                         instances: map<SessionId, Instance>, sid: SessionId, after: State)
    requires SessionsAgree(sessions, held, instances) && sid in instances
    requires Serving(after.status) || !Mapped(sessions, sid)
    ensures SessionsAgree(sessions, held, instances[sid := instances[sid].(session := after)])
  {
    assert forall s | s in sessions && sessions[s] == sid :: Mapped(sessions, sid);
  }

  // ----- What the invariant says about a timer, and about a mapped stream -----

  lemma TimerHolds(w: Worker, id: TimerId)
    requires Inv(w) && id in w.timers
    ensures HoldsToken(w, w.timers[id].stream, w.timers[id].token) && w.timers[id].stream in w.heartbeats
  {
  }

  lemma MappedIsServing(w: Worker, s: StreamId)
    requires Inv(w) && s in w.sessions
    ensures w.sessions[s] in w.instances && Serving(w.instances[w.sessions[s]].session.status)
  {
  }

  lemma ClaimsStayNew(q: seq<Call>, c: Call, me: WorkerId, instances: map<SessionId, Instance>, minted: set<Token>)
    requires ClaimsAreNew(q, me, instances, minted) && c.statement.worker == me && !c.statement.Acquire?
    ensures ClaimsAreNew(q + [c], me, instances, minted)
  {
  }

  lemma UnmapKeepsReleasedOnce(released: seq<SessionId>, sessions: map<StreamId, SessionId>, next: SessionId,
                               s: StreamId)
    requires ReleasedOnce(released, sessions, next) && s in sessions && sessions[s] < next
    requires forall r | r in sessions && r != s :: sessions[r] != sessions[s]
    ensures ReleasedOnce(released + [sessions[s]], sessions - {s}, next)
  {
    var sessions' := sessions - {s};
    forall sid | Mapped(sessions', sid) ensures Mapped(sessions, sid) && sid != sessions[s] {
      var r :| r in sessions' && sessions'[r] == sid;
      assert sessions[r] == sid;
    }
    assert Mapped(sessions, sessions[s]);
  }

  lemma ListenerShape(w: Worker, sid: SessionId, now: int)
    requires sid in w.instances
    ensures var s := w.instances[sid].stream;
            StateListener(w, sid, now) ==
            if s !in w.sessions || w.sessions[s] != sid then w
            else if s !in w.lockTokens then w.(sessions := w.sessions - {s})
            else
              w.(sessions := w.sessions - {s}, lockTokens := w.lockTokens - {s}, released := w.released + [sid],
                 timers := if s in w.heartbeats then w.timers - {w.heartbeats[s]} else w.timers,
                 heartbeats := if s in w.heartbeats then w.heartbeats - {s} else w.heartbeats,
                 requests := w.requests + [Call(Release(s, w.cfg.workerId, w.lockTokens[s]), now)])
  {
  }

  lemma EvictionShape(w: Worker, s: StreamId, after: State, now: int)
    requires s in w.sessions && w.sessions[s] in w.instances && w.instances[w.sessions[s]].stream == s
    requires s in w.lockTokens
    ensures var w1 := PutSession(w, w.sessions[s], after);
            var w2 := StateListener(w1, w.sessions[s], now);
            && Flow(w2) == Flow(w) + [Call(Release(s, w.cfg.workerId, w.lockTokens[s]), now)]
            && w2.requests == w.requests + [Call(Release(s, w.cfg.workerId, w.lockTokens[s]), now)]
            && w2.sessions == w.sessions - {s} && w2.lockTokens == w.lockTokens - {s}
            && w2.heartbeats == w.heartbeats - {s}
            && w2.timers == (if s in w.heartbeats then w.timers - {w.heartbeats[s]} else w.timers)
            && w2 == w1.(sessions := w2.sessions, lockTokens := w2.lockTokens, heartbeats := w2.heartbeats,
                         timers := w2.timers, requests := w2.requests, released := w.released + [w.sessions[s]])
  {
  }

  lemma UnmapKeepsTimers(timers: map<TimerId, Timer>, heartbeats: map<StreamId, TimerId>,
                         held: map<StreamId, Token>, next: TimerId, s: StreamId)
    requires TimersAgree(timers, heartbeats, held, next)
    ensures var timers' := if s in heartbeats then timers - {heartbeats[s]} else timers;
            TimersAgree(timers', heartbeats - {s}, held - {s}, next)
  {
  }

  lemma PutKeepsOthers(w: Worker, sid: SessionId, after: State)
    requires sid in w.instances
    requires InstancesAgree(w.instances, w.nextSession, w.minted)
    requires ClaimsAreNew(Flow(w), w.cfg.workerId, w.instances, w.minted)
    ensures var w1 := PutSession(w, sid, after);
            && InstancesAgree(w1.instances, w.nextSession, w.minted)
            && ClaimsAreNew(Flow(w), w.cfg.workerId, w1.instances, w.minted)
  {
  }

  lemma UnmapKeepsSessions(sessions: map<StreamId, SessionId>, held: map<StreamId, Token>,
                           instances: map<SessionId, Instance>, s: StreamId, after: State)
    requires SessionsAgree(sessions, held, instances) && s in sessions
    ensures SessionsAgree(sessions - {s}, held - {s},
                          instances[sessions[s] := instances[sessions[s]].(session := after)])
  {
  }

  lemma EvictedFacts(w: Worker, armed: set<StreamId>, s: StreamId)
    requires InvWith(w, armed) && s in w.sessions
    ensures var sid := w.sessions[s];
            && sid in w.instances && w.instances[sid].stream == s && s in w.lockTokens && sid < w.nextSession
            && forall r | r in w.sessions && r != s :: w.sessions[r] != sid
  {
  }

  /** A mapped session ends: the listener unmaps it, clears its timer and releases its own token. */
  lemma EvictionKeepsInv(w: Worker, armed: set<StreamId>, s: StreamId, after: State, now: int)
    requires InvWith(w, armed) && s in w.sessions && armed - {s} == w.heartbeats.Keys - {s}
    ensures w.sessions[s] in w.instances
    ensures Inv(StateListener(PutSession(w, w.sessions[s], after), w.sessions[s], now))
  {
    hide FlowAgrees, TimersAgree, SessionsAgree, InstancesAgree, ClaimsAreNew, ReleasedOnce;
    var sid := w.sessions[s];
    EvictedFacts(w, armed, s);
    EvictionShape(w, s, after, now);
    hide Flow, StateListener;
    var c := Call(Release(s, w.cfg.workerId, w.lockTokens[s]), now);
    ReleaseSent(Flow(w), w.lockTokens, w.waiting.Keys, armed, c, s);
    PutKeepsOthers(w, sid, after);
    ClaimsStayNew(Flow(w), c, w.cfg.workerId, PutSession(w, sid, after).instances, w.minted);
    UnmapKeepsReleasedOnce(w.released, w.sessions, w.nextSession, s);
    UnmapKeepsTimers(w.timers, w.heartbeats, w.lockTokens, w.nextTimer, s);
    UnmapKeepsSessions(w.sessions, w.lockTokens, w.instances, s, after);
    assert (w.heartbeats - {s}).Keys == w.heartbeats.Keys - {s};
  }

  lemma StepFacts(st: State, op: Op)
    requires Enabled(st, op)
    ensures Serving(st.status) && !Terminal(Apply(st, op).status) ==> Serving(Apply(st, op).status)
    ensures op.Enqueue? ==> Apply(st, op).status == st.status
  {
  }

  lemma SessionStepKeepsInv(w: Worker, sid: SessionId, op: Op, now: int)
    requires Inv(w) && sid in w.instances && Enabled(w.instances[sid].session, op)
    ensures Inv(StepSession(w, sid, op, now))
  {
    var before := w.instances[sid].session;
    var after := Apply(before, op);
    StepFacts(before, op);
    if Mapped(w.sessions, sid) {
      var s :| s in w.sessions && w.sessions[s] == sid;
      if after.status != before.status && Terminal(after.status) {
        EvictionKeepsInv(w, w.heartbeats.Keys, s, after, now);
      } else {
        PutKeepsInv(w, sid, after);
      }
    } else {
      PutKeepsInv(w, sid, after);
    }
  }

  lemma EnqueueKeepsInv(w: Worker, s: StreamId, e: Event)
    requires Inv(w) && s in w.sessions
    ensures w.sessions[s] in w.instances && Inv(EnqueueInto(w, w.sessions[s], e))
  {
    var st := w.instances[w.sessions[s]].session;
    StepFacts(st, Enqueue(e));
    PutKeepsInv(w, w.sessions[s], Apply(st, Enqueue(e)));
  }

  lemma NewClaimIsNew(q: seq<Call>, c: Call, me: WorkerId, instances: map<SessionId, Instance>, minted: set<Token>)
    requires ClaimsAreNew(q, me, instances, minted) && c.statement.worker == me
    requires c.statement.Acquire? && c.statement.token !in minted
    requires forall sid | sid in instances :: instances[sid].token in minted
    ensures ClaimsAreNew(q + [c], me, instances, minted + {c.statement.token})
  {
  }

  lemma InstancesKeepMinted(instances: map<SessionId, Instance>, next: SessionId, minted: set<Token>, token: Token)
    requires InstancesAgree(instances, next, minted)
    ensures InstancesAgree(instances, next, minted + {token})
  {
  }

  lemma HeldAreMinted(w: Worker)
    requires Inv(w)
    ensures w.sessions.Keys == w.lockTokens.Keys
    ensures forall sid | sid in w.instances :: w.instances[sid].token in w.minted
  {
  }

  /** The first `route` for an unowned stream sends a claim. */
  lemma ClaimKeepsInv(w: Worker, s: StreamId, e: Event, c: Call)
    requires Inv(w) && w.phase.Routing? && s !in w.sessions && s !in w.waiting
    requires c.statement.Acquire? && c.statement.stream == s && c.statement.worker == w.cfg.workerId
    requires c.statement.token !in w.minted
    ensures Inv(w.(waiting := w.waiting[s := [e]], minted := w.minted + {c.statement.token},
                   requests := w.requests + [c]))
  {
    hide FlowAgrees, TimersAgree, SessionsAgree, InstancesAgree, ClaimsAreNew, ReleasedOnce;
    var token := c.statement.token;
    var w' := w.(waiting := w.waiting[s := [e]], minted := w.minted + {token}, requests := w.requests + [c]);
    HeldAreMinted(w);
    assert Flow(w') == Flow(w) + [c];
    hide Flow;
    ClaimSent(Flow(w), w.lockTokens, w.waiting.Keys, w.heartbeats.Keys, c);
    assert w'.waiting.Keys == w.waiting.Keys + {s};
    NewClaimIsNew(Flow(w), c, w.cfg.workerId, w.instances, w.minted);
    InstancesKeepMinted(w.instances, w.nextSession, w.minted, token);
  }

  /** A further `route` joins the claim in flight. */
  lemma JoinKeepsInv(w: Worker, s: StreamId, events: seq<Event>)
    requires Inv(w) && s in w.waiting && events != []
    ensures Inv(w.(waiting := w.waiting[s := events]))
  {
    var w' := w.(waiting := w.waiting[s := events]);
    hide FlowAgrees, TimersAgree, SessionsAgree, InstancesAgree, ClaimsAreNew, ReleasedOnce;
    assert w'.waiting.Keys == w.waiting.Keys;
    assert Flow(w') == Flow(w);
  }

  /** A new claim is due: no session, no claim in flight, and the cap allows one. */
  predicate Claims(w: Worker, s: StreamId) {
    s !in w.sessions && |w.sessions| < w.cfg.maxSessions && s !in w.waiting
  }

  /** A `route` call sends a claim exactly when one is due, and then under its new token. It maps and unmaps nothing,
      and has a caller wait exactly when a claim for its stream is then in flight. */
  lemma RouteOutcome(w: Worker, e: Event, token: Token, now: int, clock: int)
    ensures var w' := DoRoute(w, e, token, now, clock);
            && w'.requests == w.requests +
                 (if Claims(w, e.streamId)
                  then [Call(Acquire(e.streamId, w.cfg.workerId, token, clock + w.cfg.ttlMs), now)] else [])
            && w'.sessions == w.sessions && w'.lockTokens == w.lockTokens && w'.timers == w.timers
            && (e.streamId in w'.waiting <==> e.streamId in w.waiting || Claims(w, e.streamId))
            && (forall s | s != e.streamId :: s in w'.waiting <==> s in w.waiting)
  {
    hide Apply;
    if !Claims(w, e.streamId) {
      NoClaim(w, e, token, now, clock);
      hide DoRoute;
      assert w.requests + [] == w.requests;
    }
  }

  lemma NoClaim(w: Worker, e: Event, token: Token, now: int, clock: int)
    requires !Claims(w, e.streamId)
    ensures var w' := DoRoute(w, e, token, now, clock);
            w' == w.(waiting := w'.waiting, instances := w'.instances) && w'.waiting.Keys == w.waiting.Keys
  {
    hide Apply;
    if e.streamId in w.waiting {
      assert w.waiting[e.streamId := w.waiting[e.streamId] + [e]].Keys == w.waiting.Keys;
    }
  }

  /** It changes no session but the one mapped for its stream, which gets the event. */
  lemma RouteReachesOneSession(w: Worker, e: Event, token: Token, now: int, clock: int, sid: SessionId)
    requires sid in w.instances
    ensures var w' := DoRoute(w, e, token, now, clock);
            && sid in w'.instances
            && w'.instances[sid] ==
               if e.streamId in w.sessions && w.sessions[e.streamId] == sid
               then w.instances[sid].(session := Apply(w.instances[sid].session, Enqueue(e))) else w.instances[sid]
  {
    hide Apply;
    if e.streamId !in w.sessions || w.sessions[e.streamId] !in w.instances {
      assert DoRoute(w, e, token, now, clock).instances == w.instances;
      hide DoRoute;
    } else {
      assert DoRoute(w, e, token, now, clock) == EnqueueInto(w, w.sessions[e.streamId], e);
      hide DoRoute;
    }
  }

  lemma RouteKeepsInv(w: Worker, e: Event, token: Token, now: int, clock: int)
    requires Inv(w) && CanDo(w, Route(e, token, now, clock))
    ensures Inv(DoRoute(w, e, token, now, clock))
  {
    hide FlowAgrees, TimersAgree, InstancesAgree, ClaimsAreNew, ReleasedOnce, Inv;
    var s := e.streamId;
    if s in w.sessions {
      EnqueueKeepsInv(w, s, e);
    } else if |w.sessions| >= w.cfg.maxSessions {
    } else if s in w.waiting {
      JoinKeepsInv(w, s, w.waiting[s] + [e]);
    } else {
      ClaimKeepsInv(w, s, e, Call(Acquire(s, w.cfg.workerId, token, clock + w.cfg.ttlMs), now));
    }
  }

  lemma FiredTimerIsForgotten(timers: map<TimerId, Timer>, heartbeats: map<StreamId, TimerId>,
                              held: map<StreamId, Token>, next: TimerId, id: TimerId)
    requires TimersAgree(timers, heartbeats, held, next) && id in timers
    ensures TimersAgree(timers - {id}, heartbeats - {timers[id].stream}, held, next)
  {
  }

  lemma FireKeepsInv(w: Worker, id: TimerId, now: int, clock: int)
    requires Inv(w) && CanDo(w, Fire(id, now, clock))
    ensures Inv(DoFire(w, id, now, clock))
  {
    hide FlowAgrees, TimersAgree, SessionsAgree, InstancesAgree, ClaimsAreNew, ReleasedOnce;
    var t := w.timers[id];
    var w' := DoFire(w, id, now, clock);
    var c := Call(Renew(t.stream, w.cfg.workerId, t.token, clock + w.cfg.ttlMs), now);
    TimerHolds(w, id);
    assert Flow(w') == Flow(w) + [c];
    hide Flow;
    RenewalSent(Flow(w), w.lockTokens, w.waiting.Keys, w.heartbeats.Keys, c);
    ClaimsStayNew(Flow(w), c, w.cfg.workerId, w.instances, w.minted);
    FiredTimerIsForgotten(w.timers, w.heartbeats, w.lockTokens, w.nextTimer, id);
    assert w'.heartbeats.Keys == w.heartbeats.Keys - {t.stream};
  }

  // ----- Handling an answer -----

  lemma ArmKeepsTimers(timers: map<TimerId, Timer>, heartbeats: map<StreamId, TimerId>,
                       held: map<StreamId, Token>, next: TimerId, t: Timer)
    requires TimersAgree(timers, heartbeats, held, next)
    requires t.stream !in heartbeats && t.stream in held && held[t.stream] == t.token
    ensures TimersAgree(timers[next := t], heartbeats[t.stream := next], held, next + 1)
  {
  }

  lemma HoldKeepsTimers(timers: map<TimerId, Timer>, heartbeats: map<StreamId, TimerId>,
                        held: map<StreamId, Token>, next: TimerId, s: StreamId, token: Token)
    requires TimersAgree(timers, heartbeats, held, next) && s !in held
    ensures s !in heartbeats && TimersAgree(timers, heartbeats, held[s := token], next)
  {
  }

  lemma TailStaysNew(q: seq<Call>, me: WorkerId, instances: map<SessionId, Instance>, minted: set<Token>)
    requires ClaimsAreNew(q, me, instances, minted) && q != []
    ensures ClaimsAreNew(q[1..], me, instances, minted)
  {
    assert forall i | 0 <= i < |q| - 1 :: q[1..][i] == q[i + 1];
  }

  /** The spawned session takes the token of the claim at the head; no other claim or session has it. */
  lemma SpawnKeepsTokens(q: seq<Call>, me: WorkerId, instances: map<SessionId, Instance>, next: SessionId,
                         minted: set<Token>, i: Instance)
    requires ClaimsAreNew(q, me, instances, minted) && InstancesAgree(instances, next, minted)
    requires q != [] && q[0].statement.Acquire? && q[0].statement.token == i.token
    ensures ClaimsAreNew(q[1..], me, instances[next := i], minted)
    ensures InstancesAgree(instances[next := i], next + 1, minted)
  {
    assert forall k | 0 <= k < |q| - 1 :: q[1..][k] == q[k + 1];
  }

  lemma SpawnKeepsSessions(sessions: map<StreamId, SessionId>, held: map<StreamId, Token>,
                           instances: map<SessionId, Instance>, next: SessionId, i: Instance)
    requires SessionsAgree(sessions, held, instances) && i.stream !in sessions && Serving(i.session.status)
    requires forall sid | sid in instances :: sid < next
    ensures SessionsAgree(sessions[i.stream := next], held[i.stream := i.token], instances[next := i])
  {
  }

  lemma SpawnKeepsReleased(released: seq<SessionId>, sessions: map<StreamId, SessionId>, next: SessionId, s: StreamId)
    requires ReleasedOnce(released, sessions, next) && s !in sessions
    ensures ReleasedOnce(released, sessions[s := next], next + 1)
  {
    forall sid | Mapped(sessions[s := next], sid) ensures sid == next || Mapped(sessions, sid) {
      var r :| r in sessions[s := next] && sessions[s := next][r] == sid;
      if r != s {
        assert sessions[r] == sid;
      }
    }
  }

  /** The worker after the answer at the head has been taken off. */
  function Taken(w: Worker): Worker
    requires w.replies != []
  {
    w.(replies := w.replies[1..])
  }

  function SpawnedBy(w: Worker, s: StreamId, token: Token, now: int): Worker
    requires w.replies != []
  {
    var held := Taken(w).(waiting := w.waiting - {s}, lockTokens := w.lockTokens[s := token]);
    Spawn(ScheduleNext(held, s, token, now), s, token)
  }

  lemma SpawnShape(w: Worker, s: StreamId, token: Token, now: int)
    requires w.replies != []
    ensures var i := Instance(s, token, Apply(Fresh(w.cfg.session), Start));
            var t := Timer(s, token, now + w.cfg.heartbeatMs);
            var w2 := SpawnedBy(w, s, token, now);
            && w2 == w.(replies := w.replies[1..], waiting := w.waiting - {s},
                        lockTokens := w.lockTokens[s := token], sessions := w.sessions[s := w.nextSession],
                        instances := w.instances[w.nextSession := i], nextSession := w.nextSession + 1,
                        timers := w.timers[w.nextTimer := t], heartbeats := w.heartbeats[s := w.nextTimer],
                        nextTimer := w.nextTimer + 1)
            && w2.heartbeats.Keys == w.heartbeats.Keys + {s}
            && w2.waiting.Keys == w.waiting.Keys - {s}
            && Flow(w2) == Flow(w)[1..]
  {
    hide Apply;
    FlowOfHandled(w);
  }

  lemma ClaimHandled(q: seq<Call>, held: map<StreamId, Token>, waiting: set<StreamId>, armed: set<StreamId>)
    requires FlowAgrees(q, held, waiting, armed) && q != [] && q[0].statement.Acquire?
    ensures var s, token := q[0].statement.stream, q[0].statement.token;
            && s in waiting && s !in held
            && FlowAgrees(q[1..], held, waiting - {s}, armed)
            && FlowAgrees(q[1..], held[s := token], waiting - {s}, armed + {s})
  {
    AnswerHandled(q, held, waiting, armed);
    assert IsClaim(q[0], q[0].statement.stream);
  }

  lemma SpawnPieces(w: Worker, i: Instance, t: Timer)
    requires Inv(w) && w.replies != [] && w.replies[0].call.statement.Acquire?
    requires i.stream == t.stream == w.replies[0].call.statement.stream
    requires i.token == t.token == w.replies[0].call.statement.token && Serving(i.session.status)
    ensures i.stream in w.waiting && i.stream !in w.sessions
    ensures FlowAgrees(Flow(w)[1..], w.lockTokens[i.stream := i.token], w.waiting.Keys - {i.stream},
                       w.heartbeats.Keys + {i.stream})
    ensures ClaimsAreNew(Flow(w)[1..], w.cfg.workerId, w.instances[w.nextSession := i], w.minted)
    ensures InstancesAgree(w.instances[w.nextSession := i], w.nextSession + 1, w.minted)
    ensures SessionsAgree(w.sessions[i.stream := w.nextSession], w.lockTokens[i.stream := i.token],
                          w.instances[w.nextSession := i])
    ensures ReleasedOnce(w.released, w.sessions[i.stream := w.nextSession], w.nextSession + 1)
    ensures TimersAgree(w.timers[w.nextTimer := t], w.heartbeats[i.stream := w.nextTimer],
                        w.lockTokens[i.stream := i.token], w.nextTimer + 1)
  {
    assert forall sid | sid in w.instances :: sid < w.nextSession;
    assert w.sessions.Keys == w.lockTokens.Keys;
    hide FlowAgrees, TimersAgree, SessionsAgree, InstancesAgree, ClaimsAreNew, ReleasedOnce;
    FlowOfHandled(w);
    hide Flow;
    ClaimHandled(Flow(w), w.lockTokens, w.waiting.Keys, w.heartbeats.Keys);
    SpawnKeepsTokens(Flow(w), w.cfg.workerId, w.instances, w.nextSession, w.minted, i);
    SpawnKeepsSessions(w.sessions, w.lockTokens, w.instances, w.nextSession, i);
    SpawnKeepsReleased(w.released, w.sessions, w.nextSession, i.stream);
    HoldKeepsTimers(w.timers, w.heartbeats, w.lockTokens, w.nextTimer, i.stream, i.token);
    ArmKeepsTimers(w.timers, w.heartbeats, w.lockTokens[i.stream := i.token], w.nextTimer, t);
  }

  lemma SpawnKeepsInv(w: Worker, now: int)
    requires Inv(w) && w.replies != [] && w.replies[0].call.statement.Acquire?
    ensures var st := w.replies[0].call.statement;
            && st.stream in w.waiting && st.stream !in w.sessions
            && Inv(SpawnedBy(w, st.stream, st.token, now))
  {
    hide FlowAgrees, TimersAgree, SessionsAgree, InstancesAgree, ClaimsAreNew, ReleasedOnce, Flow, ScheduleNext, Spawn;
    var st := w.replies[0].call.statement;
    SpawnPieces(w, Instance(st.stream, st.token, Apply(Fresh(w.cfg.session), Start)),
                Timer(st.stream, st.token, now + w.cfg.heartbeatMs));
    assert w.phase.Routing?;
    SpawnShape(w, st.stream, st.token, now);
    hide SpawnedBy;
  }

  /** Callers that awaited one claim: the first spawns the session, the others enqueue into it. No duplicate
      release is ever sent, because the stored token is the one they all awaited. */
  lemma {:induction false} LaterResumesKeepInv(w: Worker, events: seq<Event>, s: StreamId, token: Token, now: int)
    requires Inv(w) && HoldsToken(w, s, token)
    ensures Inv(ResumeAll(w, events, s, token, now))
    ensures ResumeAll(w, events, s, token, now).requests == w.requests
    decreases |events|
  {
    if events != [] {
      assert s in w.sessions;
      EnqueueKeepsInv(w, s, events[0]);
      LaterResumesKeepInv(ResumeRoute(w, events[0], s, token, now), events[1..], s, token, now);
    }
  }

  lemma GrantKeepsInv(w: Worker, now: int)
    requires Inv(w) && w.replies != [] && w.replies[0].call.statement.Acquire? && w.replies[0].answer.Yes?
    ensures Inv(DoDeliver(w, now))
  {
    hide FlowAgrees, TimersAgree, SessionsAgree, InstancesAgree, ClaimsAreNew, ReleasedOnce;
    var st := w.replies[0].call.statement;
    var s, token := st.stream, st.token;
    SpawnKeepsInv(w, now);
    var events := w.waiting[s];
    var w2 := SpawnedBy(w, s, token, now);
    var first := ResumeRoute(Taken(w).(waiting := w.waiting - {s}), events[0], s, token, now);
    EnqueueKeepsInv(w2, s, events[0]);
    assert first == EnqueueInto(w2, w.nextSession, events[0]);
    LaterResumesKeepInv(first, events[1..], s, token, now);
  }

  lemma DenialKeepsInv(w: Worker, now: int)
    requires Inv(w) && w.replies != [] && w.replies[0].call.statement.Acquire? && !w.replies[0].answer.Yes?
    ensures Inv(DoDeliver(w, now))
  {
    var s := w.replies[0].call.statement.stream;
    var w' := DoDeliver(w, now);
    assert w'.waiting.Keys == w.waiting.Keys - {s};
    hide FlowAgrees, TimersAgree, SessionsAgree, InstancesAgree, ClaimsAreNew, ReleasedOnce;
    FlowOfHandled(w);
    assert Flow(w') == Flow(w)[1..];
    ClaimHandled(Flow(w), w.lockTokens, w.waiting.Keys, w.heartbeats.Keys);
    TailStaysNew(Flow(w), w.cfg.workerId, w.instances, w.minted);
  }

  lemma TakenShape(w: Worker)
    requires w.replies != []
    ensures Flow(w) != [] && Flow(w)[0] == w.replies[0].call && Flow(Taken(w)) == Flow(w)[1..]
  {
    FlowOfHandled(w);
  }

  lemma RenewalHandled(q: seq<Call>, held: map<StreamId, Token>, waiting: set<StreamId>, armed: set<StreamId>)
    requires FlowAgrees(q, held, waiting, armed) && q != [] && q[0].statement.Renew?
    ensures var s, token := q[0].statement.stream, q[0].statement.token;
            if s in held then token == held[s] && s !in armed && FlowAgrees(q[1..], held, waiting, armed + {s})
            else FlowAgrees(q[1..], held, waiting, armed)
  {
    AnswerHandled(q, held, waiting, armed);
  }

  lemma ScheduleShape(w: Worker, s: StreamId, token: Token, now: int)
    requires HoldsToken(w, s, token)
    ensures var t := Timer(s, token, now + w.cfg.heartbeatMs);
            var w' := ScheduleNext(w, s, token, now);
            && w' == w.(timers := w.timers[w.nextTimer := t], heartbeats := w.heartbeats[s := w.nextTimer],
                        nextTimer := w.nextTimer + 1)
            && w'.heartbeats.Keys == w.heartbeats.Keys + {s} && Flow(w') == Flow(w)
  {
  }

  /** A renewal answered for a token that is no longer held does nothing, whatever the answer. */
  lemma StaleRenewalKeepsInv(w: Worker)
    requires Inv(w) && w.replies != [] && w.replies[0].call.statement.Renew?
    requires w.replies[0].call.statement.stream !in w.lockTokens
    ensures Inv(Taken(w))
  {
    hide FlowAgrees, TimersAgree, SessionsAgree, InstancesAgree, ClaimsAreNew, ReleasedOnce, Flow;
    TakenShape(w);
    RenewalHandled(Flow(w), w.lockTokens, w.waiting.Keys, w.heartbeats.Keys);
    TailStaysNew(Flow(w), w.cfg.workerId, w.instances, w.minted);
  }

  /** A renewal that succeeded, or threw, re-arms the timer of the held token. */
  lemma RearmKeepsInv(w: Worker, now: int)
    requires Inv(w) && w.replies != [] && w.replies[0].call.statement.Renew?
    requires w.replies[0].call.statement.stream in w.lockTokens
    ensures var st := w.replies[0].call.statement;
            HoldsToken(w, st.stream, st.token) && Inv(ScheduleNext(Taken(w), st.stream, st.token, now))
  {
    hide FlowAgrees, TimersAgree, SessionsAgree, InstancesAgree, ClaimsAreNew, ReleasedOnce, Flow;
    var st := w.replies[0].call.statement;
    TakenShape(w);
    RenewalHandled(Flow(w), w.lockTokens, w.waiting.Keys, w.heartbeats.Keys);
    TailStaysNew(Flow(w), w.cfg.workerId, w.instances, w.minted);
    ScheduleShape(Taken(w), st.stream, st.token, now);
    hide ScheduleNext;
    ArmKeepsTimers(w.timers, w.heartbeats, w.lockTokens, w.nextTimer,
                   Timer(st.stream, st.token, now + w.cfg.heartbeatMs));
  }

  lemma TakenRenewal(w: Worker)
    requires Inv(w) && w.replies != [] && w.replies[0].call.statement.Renew?
    requires w.replies[0].call.statement.stream in w.sessions
    ensures var st := w.replies[0].call.statement;
            && HoldsToken(w, st.stream, st.token)
            && InvWith(Taken(w), w.heartbeats.Keys + {st.stream})
  {
    assert w.sessions.Keys == w.lockTokens.Keys;
    hide FlowAgrees, TimersAgree, SessionsAgree, InstancesAgree, ClaimsAreNew, ReleasedOnce, Flow;
    TakenShape(w);
    RenewalHandled(Flow(w), w.lockTokens, w.waiting.Keys, w.heartbeats.Keys);
    TailStaysNew(Flow(w), w.cfg.workerId, w.instances, w.minted);
  }

  lemma RefusalShape(w: Worker, s: StreamId, now: int)
    requires w.replies != [] && w.replies[0].call.statement.Renew? && w.replies[0].answer == No
    requires s == w.replies[0].call.statement.stream && s in w.sessions && w.sessions[s] in w.instances
    requires Serving(w.instances[w.sessions[s]].session.status)
    ensures var sid := w.sessions[s];
            DoDeliver(w, now) ==
            StateListener(PutSession(Taken(w), sid, Apply(w.instances[sid].session, Fail)), sid, now)
  {
    hide StateListener;
  }

  /** A refused renewal of the held token fails the mapped session, whose listener lets go of the stream. */
  lemma RefusalKeepsInv(w: Worker, now: int)
    requires Inv(w) && w.replies != [] && w.replies[0].call.statement.Renew?
    requires w.replies[0].call.statement.stream in w.sessions && w.replies[0].answer == No
    ensures Inv(DoDeliver(w, now))
  {
    hide Inv, InvWith, DoDeliver, StateListener, Apply, PutSession;
    var s := w.replies[0].call.statement.stream;
    var sid := w.sessions[s];
    MappedIsServing(w, s);
    TakenRenewal(w);
    RefusalShape(w, s, now);
    EvictionKeepsInv(Taken(w), w.heartbeats.Keys + {s}, s, Apply(w.instances[sid].session, Fail), now);
  }

  lemma RenewalKeepsInv(w: Worker, now: int)
    requires Inv(w) && w.replies != [] && w.replies[0].call.statement.Renew?
    ensures Inv(DoDeliver(w, now))
  {
    var s := w.replies[0].call.statement.stream;
    assert w.sessions.Keys == w.lockTokens.Keys;
    hide Inv, InvWith, StepSession;
    if s !in w.lockTokens {
      StaleRenewalKeepsInv(w);
    } else if w.replies[0].answer != No {
      RearmKeepsInv(w, now);
    } else {
      RefusalKeepsInv(w, now);
    }
  }

  lemma DeliverKeepsInv(w: Worker, now: int)
    requires Inv(w) && CanDo(w, Deliver(now))
    ensures Inv(DoDeliver(w, now))
  {
    hide Inv, InvWith;
    var reply := w.replies[0];
    match reply.call.statement
    case Acquire(_, _, _, _) =>
      if reply.answer.Yes? {
        GrantKeepsInv(w, now);
      } else {
        DenialKeepsInv(w, now);
      }
    case Renew(_, _, _, _) => RenewalKeepsInv(w, now);
    case Release(_, _, _) => OtherAnswerKeepsInv(w);
    case ReleaseAll(_) => OtherAnswerKeepsInv(w);
  }

  lemma OtherAnswerKeepsInv(w: Worker)
    requires Inv(w) && w.replies != []
    requires w.replies[0].call.statement.Release? || w.replies[0].call.statement.ReleaseAll?
    ensures Inv(Taken(w))
  {
    AnswerHandled(Flow(w), w.lockTokens, w.waiting.Keys, w.heartbeats.Keys);
    TakenShape(w);
    TailStaysNew(Flow(w), w.cfg.workerId, w.instances, w.minted);
    hide FlowAgrees, TimersAgree, SessionsAgree, InstancesAgree, ClaimsAreNew, ReleasedOnce, Flow;
  }

  lemma ServeShape(w: Worker, answer: Answer)
    requires w.requests != []
    ensures CanDo(w, Serve(answer))
    ensures Do(w, Serve(answer)) ==
            w.(requests := w.requests[1..], replies := w.replies + [Reply(w.requests[0], answer)])
  {
  }

  lemma ServeKeepsInv(w: Worker, answer: Answer)
    requires Inv(w) && CanDo(w, Serve(answer))
    ensures Inv(Do(w, Serve(answer)))
  {
    var w' := Do(w, Serve(answer));
    assert Flow(w') == Flow(w);
    hide FlowAgrees, TimersAgree, SessionsAgree, InstancesAgree, ClaimsAreNew, ReleasedOnce;
  }

  /** When every `stop()` has resolved, the listeners have already emptied the maps: the clears of `drainAll`
      find nothing, no timer is left armed, and the one thing it still does is `releaseAll`. */
  lemma DrainFindsNothing(w: Worker, now: int)
    requires Inv(w) && CanDo(w, FinishDrain(now))
    ensures w.sessions == map[] && w.lockTokens == map[] && w.heartbeats == map[] && w.timers == map[]
    ensures w.waiting == map[]
  {
    assert forall s :: s !in w.sessions;
    assert w.sessions == map[];
    assert w.lockTokens.Keys == {};
    assert w.heartbeats.Keys == {};
  }

  lemma FinishDrainKeepsInv(w: Worker, now: int)
    requires Inv(w) && CanDo(w, FinishDrain(now))
    ensures Inv(DoFinishDrain(w, now))
  {
    DrainFindsNothing(w, now);
    var w' := DoFinishDrain(w, now);
    var c := Call(ReleaseAll(w.cfg.workerId), now);
    assert w' == w.(requests := w.requests + [c], phase := Drained);
    hide FlowAgrees, TimersAgree, SessionsAgree, InstancesAgree, ClaimsAreNew, ReleasedOnce;
    assert Flow(w') == Flow(w) + [c];
    ReleaseSent(Flow(w), w.lockTokens, w.waiting.Keys, w.heartbeats.Keys, c, "");
    assert w.lockTokens - {""} == w.lockTokens && w.heartbeats.Keys - {""} == w.heartbeats.Keys;
    ClaimsStayNew(Flow(w), c, w.cfg.workerId, w.instances, w.minted);
  }

  lemma BeginDrainKeepsInv(w: Worker)
    requires Inv(w) && CanDo(w, BeginDrain)
    ensures Inv(Do(w, BeginDrain))
  {
    hide FlowAgrees, TimersAgree, SessionsAgree, InstancesAgree, ClaimsAreNew, ReleasedOnce;
    assert Flow(Do(w, BeginDrain)) == Flow(w);
  }

  /** Every action of a worker, in any order and with any answers, keeps the registry in agreement. */
  lemma ActionKeepsInv(w: Worker, a: Action)
    requires Inv(w) && CanDo(w, a)
    ensures Inv(Do(w, a))
  {
    hide Inv, InvWith;
    match a
    case Route(e, token, now, clock) => RouteKeepsInv(w, e, token, now, clock);
    case Serve(answer) => ServeKeepsInv(w, answer);
    case Deliver(now) => DeliverKeepsInv(w, now);
    case Fire(id, now, clock) => FireKeepsInv(w, id, now, clock);
    case SessionOp(sid, op, now) => SessionStepKeepsInv(w, sid, op, now);
    case BeginDrain => BeginDrainKeepsInv(w);
    case FinishDrain(now) => FinishDrainKeepsInv(w, now);
  }
}
