/** When a heartbeat cadence is enough: workers whose calls are instant and whose timers are on time keep every
    lease, as long as no more than `tolerated` renewals of one stream in a row are lost. */
module Cadence {
  import opened LockTable
  import opened Sessions
  import opened Workers
  import opened Registry
  import opened RegistryRuns
  import opened WorkerEffects
  import opened RegistryOutcomes
  import opened Cluster

  type Misses = map<(WorkerId, StreamId), nat>

  function MissesOf(misses: Misses, who: WorkerId, s: StreamId): nat {
    if (who, s) in misses then misses[(who, s)] else 0
  }

  /** Renewals lost in a row, per worker and stream. */
  function MissesAfter(misses: Misses, st: Statement, answer: Answer): Misses {
    match st
    case Acquire(s, who, _, _) => if answer.Yes? then misses[(who, s) := 0] else misses
    case Renew(s, who, _, _) =>
      if answer.Yes? then misses[(who, s) := 0]
      else if answer.Threw? then misses[(who, s) := MissesOf(misses, who, s) + 1]
      else misses
    case _ => misses
  }

  /** Time passes only when no call is in flight, and never past a timer that is due. */
  ghost predicate OnTime(sys: System, step: Step) {
    step.Wait? ==>
      forall who | who in sys.workers ::
        && sys.workers[who].requests == [] && sys.workers[who].replies == []
        && forall id | id in sys.workers[who].timers :: sys.now + step.ms <= sys.workers[who].timers[id].due
  }

  function MissesNext(sys: System, misses: Misses, step: Step): Misses
    requires CanStep(sys, step)
  {
    if !step.Execute? then misses
    else
      var st := sys.workers[step.who].requests[0].statement;
      MissesAfter(misses, st, AnswerOf(sys.table, st, sys.now, step.fault))
  }

  ghost predicate AtMost(misses: Misses, tolerated: nat) {
    forall k | k in misses :: misses[k] <= tolerated
  }

  ghost predicate Punctual(sys: System, misses: Misses, steps: seq<Step>, tolerated: nat)
    requires CanRunSystem(sys, steps)
    decreases |steps|
  {
    steps == [] ||
    (OnTime(sys, steps[0]) && AtMost(MissesNext(sys, misses, steps[0]), tolerated)
     && Punctual(Next(sys, steps[0]), MissesNext(sys, misses, steps[0]), steps[1..], tolerated))
  }

  // ----- Where the timers of a worker come from -----

  predicate FromAnswer(w: Worker, t: Timer, now: int) {
    && w.replies != [] && t.due == now + w.cfg.heartbeatMs
    && (GrantsNext(w, t.stream, t.token)
        || (w.replies[0].call.statement.Renew? && w.replies[0].call.statement.stream == t.stream
            && w.replies[0].answer != No && t.stream in w.lockTokens))
  }

  /** A timer is an old one, or is armed by the answer being handled; a renewal is sent by a timer that is due. */
  ghost predicate TimersFrom(w: Worker, w': Worker, now: int) {
    && (forall id | id in w'.timers ::
          (id in w.timers && w'.timers[id] == w.timers[id]) || FromAnswer(w, w'.timers[id], now))
    && (|w'.requests| > |w.requests| && w'.requests[|w.requests|].statement.Renew? ==>
          exists id :: id in w.timers && w.timers[id].due <= now
                       && w.timers[id].stream == w'.requests[|w.requests|].statement.stream)
  }

  lemma StepSessionTimers(w: Worker, sid: SessionId, op: Op, now: int)
    requires sid in w.instances && Enabled(w.instances[sid].session, op)
    ensures var w' := StepSession(w, sid, op, now);
            && (forall id | id in w'.timers :: id in w.timers && w'.timers[id] == w.timers[id])
            && (|w'.requests| > |w.requests| ==> w'.requests[|w.requests|].statement.Release?)
  {
    hide Apply;
  }

  lemma GrantTimers(w: Worker, now: int)
    requires Inv(w) && w.replies != [] && w.replies[0].call.statement.Acquire? && w.replies[0].answer.Yes?
    ensures TimersFrom(w, DoDeliver(w, now), now)
  {
    hide Inv, DoDeliver;
    GrantOutcome(w, now);
  }

  lemma RenewalTimers(w: Worker, now: int)
    requires w.replies != [] && w.replies[0].call.statement.Renew?
    ensures TimersFrom(w, DoDeliver(w, now), now)
  {
    hide StepSession, Apply;
    var s := w.replies[0].call.statement.stream;
    if s in w.sessions && w.sessions[s] in w.instances {
      StepSessionTimers(Taken(w), w.sessions[s], Fail, now);
    }
  }

  lemma DeliverTimers(w: Worker, now: int)
    requires Inv(w) && w.replies != []
    ensures TimersFrom(w, DoDeliver(w, now), now)
  {
    var reply := w.replies[0];
    if reply.call.statement.Acquire? && reply.answer.Yes? {
      GrantTimers(w, now);
    } else if reply.call.statement.Renew? {
      hide Inv, TimersFrom;
      RenewalTimers(w, now);
    } else {
      hide Inv, ResumeAll, RenewalReturns;
    }
  }

  lemma RouteTimers(w: Worker, e: Event, token: Token, now: int, clock: int)
    ensures TimersFrom(w, DoRoute(w, e, token, now, clock), now)
  {
    RouteOutcome(w, e, token, now, clock);
    hide DoRoute;
  }

  lemma FireTimers(w: Worker, id: TimerId, now: int, clock: int)
    requires id in w.timers && w.timers[id].due <= now
    ensures TimersFrom(w, DoFire(w, id, now, clock), now)
  {
  }

  lemma DrainTimers(w: Worker, now: int)
    ensures TimersFrom(w, DoFinishDrain(w, now), now)
  {
  }

  lemma ActionTimers(w: Worker, a: Action, now: int, clock: int)
    requires Inv(w) && CanDo(w, a) && !a.Serve? && At(a, now, clock)
    ensures TimersFrom(w, Do(w, a), now)
  {
    hide Inv, TimersFrom, Apply, DoRoute, DoFire, DoFinishDrain, DoDeliver, StepSession;
    match a
    case Deliver(_) => DeliverTimers(w, now);
    case SessionOp(sid, op, _) => SessionTimers(w, sid, op, now);
    case Route(e, token, _, _) => RouteTimers(w, e, token, now, clock);
    case Fire(id, _, _) => FireTimers(w, id, now, clock);
    case BeginDrain => BeginDrainTimers(w, now);
    case FinishDrain(_) => DrainTimers(w, now);
  }

  lemma SessionTimers(w: Worker, sid: SessionId, op: Op, now: int)
    requires sid in w.instances && Enabled(w.instances[sid].session, op)
    ensures TimersFrom(w, StepSession(w, sid, op, now), now)
  {
    hide StepSession, Apply;
    StepSessionTimers(w, sid, op, now);
  }

  lemma BeginDrainTimers(w: Worker, now: int)
    requires CanDo(w, BeginDrain)
    ensures TimersFrom(w, Do(w, BeginDrain), now)
  {
  }

  // ----- The timed invariant -----

  /** When the lease would run out of patience: one heartbeat after the last success, and one more for each
      renewal lost since. */
  function Deadline(lease: Lease, misses: Misses, who: WorkerId, s: StreamId, heartbeatMs: int): int
    requires (who, s) in lease
  {
    lease[(who, s)] + (MissesOf(misses, who, s) + 1) * heartbeatMs
  }

  predicate Before(lease: Lease, misses: Misses, who: WorkerId, s: StreamId, heartbeatMs: int, t: int) {
    (who, s) in lease && t <= Deadline(lease, misses, who, s, heartbeatMs)
  }

  /** Calls are fresh, timers lie ahead and within the deadline, and so is every answer that will re-arm one. */
  ghost predicate WorkerOnTime(w: Worker, who: WorkerId, lease: Lease, misses: Misses, now: int) {
    && (forall i | 0 <= i < |w.requests| ::
          w.requests[i].issuedAt == now || !(w.requests[i].statement.Acquire? || w.requests[i].statement.Renew?))
    && (forall id | id in w.timers ::
          now <= w.timers[id].due &&
          Before(lease, misses, who, w.timers[id].stream, w.cfg.heartbeatMs, w.timers[id].due))
    && (forall i | 0 <= i < |w.requests| && w.requests[i].statement.Renew? &&
        w.requests[i].statement.stream in w.sessions ::
          Before(lease, misses, who, w.requests[i].statement.stream, w.cfg.heartbeatMs, now))
    && (forall i | 0 <= i < |w.replies| :: ReplyOnTime(w, w.replies[i], who, lease, misses, now))
  }

  predicate ReplyOnTime(w: Worker, r: Reply, who: WorkerId, lease: Lease, misses: Misses, now: int) {
    var st := r.call.statement;
    && (IsGrant(r) ==> Before(lease, misses, who, st.stream, w.cfg.heartbeatMs, now + w.cfg.heartbeatMs))
    && (st.Renew? && st.stream in w.sessions ==>
          Before(lease, misses, who, st.stream, w.cfg.heartbeatMs,
                 if r.answer == No then now else now + w.cfg.heartbeatMs))
  }

  /** Nothing else on the connection, and no timer, concerns a stream whose claim is being granted. */
  lemma GrantedStreamIsQuiet(w: Worker, s: StreamId, token: Token)
    requires Inv(w) && GrantsNext(w, s, token)
    ensures forall i | 0 <= i < |w.requests| :: !IsRenewal(w.requests[i], s)
    ensures forall i | 1 <= i < |w.replies| :: !IsRenewal(w.replies[i].call, s)
    ensures forall id | id in w.timers :: w.timers[id].stream != s
  {
    var q := Flow(w);
    assert q[0] == w.replies[0].call && IsClaim(q[0], s) && HasClaim(q, s);
    forall i | 0 <= i < |w.requests| ensures !IsRenewal(w.requests[i], s) {
      assert q[|w.replies| + i] == w.requests[i];
      assert !Clash(q[0], q[|w.replies| + i]);
    }
    forall i | 1 <= i < |w.replies| ensures !IsRenewal(w.replies[i].call, s) {
      assert q[i] == w.replies[i].call;
      assert !Clash(q[0], q[i]);
    }
  }

  /** `w'` has no renewal in flight for a stream that `w` did not map. */
  ghost predicate QuietForNew(w: Worker, w': Worker) {
    forall s | s in w'.sessions && s !in w.sessions ::
      && (forall i | 0 <= i < |w.requests| :: !IsRenewal(w.requests[i], s))
      && (forall i | 1 <= i < |w.replies| :: !IsRenewal(w.replies[i].call, s))
  }

  lemma MappingIsQuiet(w: Worker, w': Worker)
    requires Inv(w) && MapsOnlyGranted(w, w')
    ensures QuietForNew(w, w')
  {
    forall s | s in w'.sessions && s !in w.sessions
      ensures forall i | 0 <= i < |w.requests| :: !IsRenewal(w.requests[i], s)
      ensures forall i | 1 <= i < |w.replies| :: !IsRenewal(w.replies[i].call, s)
    {
      GrantedStreamIsQuiet(w, s, w'.lockTokens[s]);
    }
  }

  lemma RequestsOnTime(w: Worker, w': Worker, who: WorkerId, lease: Lease, misses: Misses,
                       now: int, clock: int)
    requires WorkerOnTime(w, who, lease, misses, now) && QuietForNew(w, w')
    requires TimersFrom(w, w', now) && Sends(w, w', now, clock)
    ensures forall i | 0 <= i < |w'.requests| ::
              w'.requests[i].issuedAt == now || !(w'.requests[i].statement.Acquire? || w'.requests[i].statement.Renew?)
    ensures forall i | 0 <= i < |w'.requests| && w'.requests[i].statement.Renew? &&
            w'.requests[i].statement.stream in w'.sessions ::
              Before(lease, misses, who, w'.requests[i].statement.stream, w'.cfg.heartbeatMs, now)
  {
    forall i | 0 <= i < |w'.requests|
      ensures w'.requests[i].issuedAt == now || !(w'.requests[i].statement.Acquire? || w'.requests[i].statement.Renew?)
      ensures w'.requests[i].statement.Renew? && w'.requests[i].statement.stream in w'.sessions ==>
                Before(lease, misses, who, w'.requests[i].statement.stream, w'.cfg.heartbeatMs, now)
    {
      if i < |w.requests| {
        assert w'.requests[i] == w.requests[i];
        assert w.requests[i].statement.Renew? ==> IsRenewal(w.requests[i], w.requests[i].statement.stream);
      } else {
        assert Proper(w'.requests[i], w', now, clock);
      }
    }
  }

  lemma TimersOnTime(w: Worker, w': Worker, who: WorkerId, lease: Lease, misses: Misses, now: int)
    requires WorkerOnTime(w, who, lease, misses, now) && TimersFrom(w, w', now) && w.cfg.heartbeatMs >= 0
    requires w'.cfg == w.cfg && w.sessions.Keys == w.lockTokens.Keys
    ensures forall id | id in w'.timers ::
              now <= w'.timers[id].due &&
                  Before(lease, misses, who, w'.timers[id].stream, w'.cfg.heartbeatMs, w'.timers[id].due)
  {
    forall id | id in w'.timers
      ensures now <= w'.timers[id].due &&
              Before(lease, misses, who, w'.timers[id].stream, w'.cfg.heartbeatMs, w'.timers[id].due)
    {
      if FromAnswer(w, w'.timers[id], now) {
        assert ReplyOnTime(w, w.replies[0], who, lease, misses, now);
      }
    }
  }

  lemma RepliesOnTime(w: Worker, w': Worker, who: WorkerId, lease: Lease, misses: Misses, now: int)
    requires WorkerOnTime(w, who, lease, misses, now) && QuietForNew(w, w') && w'.cfg == w.cfg
    requires (w'.replies == w.replies && MapsNothingNew(w, w'))
             || (w.replies != [] && w'.replies == w.replies[1..])
    ensures forall i | 0 <= i < |w'.replies| :: ReplyOnTime(w', w'.replies[i], who, lease, misses, now)
  {
    forall i | 0 <= i < |w'.replies| ensures ReplyOnTime(w', w'.replies[i], who, lease, misses, now) {
      var k := if w'.replies == w.replies then i else i + 1;
      assert w'.replies[i] == w.replies[k] && ReplyOnTime(w, w.replies[k], who, lease, misses, now);
      var st := w.replies[k].call.statement;
      assert st.Renew? ==> IsRenewal(w.replies[k].call, st.stream);
    }
  }

  lemma ActKeepsOnTime(w: Worker, a: Action, who: WorkerId, lease: Lease, misses: Misses,
                       now: int, clock: int)
    requires Inv(w) && CanDo(w, a) && !a.Serve? && At(a, now, clock) && w.cfg.heartbeatMs >= 0
    requires WorkerOnTime(w, who, lease, misses, now)
    ensures Do(w, a).cfg == w.cfg && WorkerOnTime(Do(w, a), who, lease, misses, now)
  {
    InvFacts(w);
    assert a.Deliver? ==> w.replies != [];
    hide Inv, Do, CanDo, At, WorkerOnTime, Sends, TimersFrom, QuietForNew, MapsOnlyGranted, MapsNothingNew;
    var w' := Do(w, a);
    ActionEffects(w, a, now, clock);
    ActionTimers(w, a, now, clock);
    MappingIsQuiet(w, w');
    RequestsOnTime(w, w', who, lease, misses, now, clock);
    CfgKept(w, w', now, clock);
    TimersOnTime(w, w', who, lease, misses, now);
    RepliesOnTime(w, w', who, lease, misses, now);
    AllOnTime(w', who, lease, misses, now);
  }

  lemma CfgKept(w: Worker, w': Worker, now: int, clock: int)
    requires Sends(w, w', now, clock)
    ensures w'.cfg == w.cfg
  {
  }

  lemma AllOnTime(w: Worker, who: WorkerId, lease: Lease, misses: Misses, now: int)
    requires forall i | 0 <= i < |w.requests| ::
               w.requests[i].issuedAt == now || !(w.requests[i].statement.Acquire? || w.requests[i].statement.Renew?)
    requires forall i | 0 <= i < |w.requests| && w.requests[i].statement.Renew? &&
            w.requests[i].statement.stream in w.sessions ::
               Before(lease, misses, who, w.requests[i].statement.stream, w.cfg.heartbeatMs, now)
    requires forall id | id in w.timers ::
               now <= w.timers[id].due &&
                   Before(lease, misses, who, w.timers[id].stream, w.cfg.heartbeatMs, w.timers[id].due)
    requires forall i | 0 <= i < |w.replies| :: ReplyOnTime(w, w.replies[i], who, lease, misses, now)
    ensures WorkerOnTime(w, who, lease, misses, now)
  {
  }

  // ----- Steps of the table and of the clock -----

  predicate Concerns(c: Call, s: StreamId) {
    (c.statement.Acquire? || c.statement.Renew?) && c.statement.stream == s
  }

  /** The claim or renewal about to be executed is the only thing that can set a deadline for its stream. */
  lemma HeadIsAlone(w: Worker, r: StreamId)
    requires Inv(w) && w.requests != [] && Concerns(w.requests[0], r)
    ensures forall id | id in w.timers :: w.timers[id].stream != r
    ensures forall i | 1 <= i < |w.requests| :: !IsRenewal(w.requests[i], r)
    ensures forall i | 0 <= i < |w.replies| :: !IsClaim(w.replies[i].call, r)
    ensures forall i | 0 <= i < |w.replies| && IsRenewal(w.replies[i].call, r) :: r !in w.sessions
  {
    var q, n := Flow(w), |w.replies|;
    assert q[n] == w.requests[0];
    assert w.sessions.Keys == w.lockTokens.Keys;
    if IsClaim(q[n], r) {
      assert HasClaim(q, r);
    } else {
      assert IsRenewal(q[n], r) && HasRenewal(q, r);
    }
    forall i | 1 <= i < |w.requests| ensures !IsRenewal(w.requests[i], r) {
      assert q[n + i] == w.requests[i] && !Clash(q[n], q[n + i]);
    }
    forall i | 0 <= i < |w.replies|
      ensures !IsClaim(w.replies[i].call, r) && (IsRenewal(w.replies[i].call, r) ==> r !in w.sessions)
    {
      assert q[i] == w.replies[i].call && !Clash(q[i], q[n]);
    }
  }

  /** Deadlines of the streams `c` does not concern only move later. */
  ghost predicate KeepsOthers(c: Call, who: WorkerId, heartbeatMs: int, lease: Lease, misses: Misses,
                              lease': Lease, misses': Misses) {
    forall s, t | !Concerns(c, s) && Before(lease, misses, who, s, heartbeatMs, t) ::
      Before(lease', misses', who, s, heartbeatMs, t)
  }

  lemma ServeKeepsTimers(w: Worker, who: WorkerId, lease: Lease, misses: Misses,
                         lease': Lease, misses': Misses, now: int)
    requires Inv(w) && w.requests != [] && WorkerOnTime(w, who, lease, misses, now)
    requires KeepsOthers(w.requests[0], who, w.cfg.heartbeatMs, lease, misses, lease', misses')
    ensures forall id | id in w.timers ::
              now <= w.timers[id].due &&
                  Before(lease', misses', who, w.timers[id].stream, w.cfg.heartbeatMs, w.timers[id].due)
    ensures forall i | 1 <= i < |w.requests| && w.requests[i].statement.Renew? &&
            w.requests[i].statement.stream in w.sessions ::
              Before(lease', misses', who, w.requests[i].statement.stream, w.cfg.heartbeatMs, now)
  {
    var c := w.requests[0];
    if c.statement.Acquire? || c.statement.Renew? {
      HeadIsAlone(w, c.statement.stream);
    }
    hide Inv, Before;
    forall id | id in w.timers
      ensures now <= w.timers[id].due &&
              Before(lease', misses', who, w.timers[id].stream, w.cfg.heartbeatMs, w.timers[id].due)
    {
      assert !Concerns(c, w.timers[id].stream);
    }
    forall i | 1 <= i < |w.requests| && w.requests[i].statement.Renew? && w.requests[i].statement.stream in w.sessions
      ensures Before(lease', misses', who, w.requests[i].statement.stream, w.cfg.heartbeatMs, now)
    {
      assert IsRenewal(w.requests[i], w.requests[i].statement.stream);
      assert !Concerns(c, w.requests[i].statement.stream);
    }
  }

  lemma ServeKeepsReplies(w: Worker, who: WorkerId, lease: Lease, misses: Misses,
                          lease': Lease, misses': Misses, now: int)
    requires Inv(w) && w.requests != [] && WorkerOnTime(w, who, lease, misses, now)
    requires KeepsOthers(w.requests[0], who, w.cfg.heartbeatMs, lease, misses, lease', misses')
    ensures forall i | 0 <= i < |w.replies| :: ReplyOnTime(w, w.replies[i], who, lease', misses', now)
  {
    var c := w.requests[0];
    if c.statement.Acquire? || c.statement.Renew? {
      HeadIsAlone(w, c.statement.stream);
    }
    hide Inv, Before, HasClaim, InvWith;
    forall i | 0 <= i < |w.replies| ensures ReplyOnTime(w, w.replies[i], who, lease', misses', now) {
      var st := w.replies[i].call.statement;
      if st.Acquire? {
        assert IsClaim(w.replies[i].call, st.stream) && !Concerns(c, st.stream);
      } else if st.Renew? && st.stream in w.sessions {
        assert IsRenewal(w.replies[i].call, st.stream) && !Concerns(c, st.stream);
      }
      ReplyStaysOnTime(w, w.replies[i], c, who, lease, misses, lease', misses', now);
    }
  }

  lemma ReplyStaysOnTime(w: Worker, r: Reply, c: Call, who: WorkerId, lease: Lease, misses: Misses,
                         lease': Lease, misses': Misses, now: int)
    requires KeepsOthers(c, who, w.cfg.heartbeatMs, lease, misses, lease', misses')
    requires ReplyOnTime(w, r, who, lease, misses, now)
    requires r.call.statement.Acquire? || (r.call.statement.Renew? && r.call.statement.stream in w.sessions) ==>
               !Concerns(c, r.call.statement.stream)
    ensures ReplyOnTime(w, r, who, lease', misses', now)
  {
    hide Before;
  }

  lemma ReplyReadsSessions(w: Worker, w': Worker, r: Reply, who: WorkerId, lease: Lease, misses: Misses,
                           now: int)
    requires w.sessions == w'.sessions && w.cfg == w'.cfg
    ensures ReplyOnTime(w', r, who, lease, misses, now) == ReplyOnTime(w, r, who, lease, misses, now)
  {
  }

  lemma ServeKeepsOnTime(w: Worker, who: WorkerId, lease: Lease, misses: Misses,
                         lease': Lease, misses': Misses, now: int, answer: Answer)
    requires Inv(w) && w.requests != [] && WorkerOnTime(w, who, lease, misses, now)
    requires KeepsOthers(w.requests[0], who, w.cfg.heartbeatMs, lease, misses, lease', misses')
    requires ReplyOnTime(w, Reply(w.requests[0], answer), who, lease', misses', now)
    ensures WorkerOnTime(Do(w, Serve(answer)), who, lease', misses', now)
  {
    hide Inv, KeepsOthers, Before, WorkerOnTime, Do, CanDo, ReplyOnTime;
    ServeShape(w, answer);
    ServeKeepsTimers(w, who, lease, misses, lease', misses', now);
    ServeKeepsReplies(w, who, lease, misses, lease', misses', now);
    FreshRequests(w, who, lease, misses, now);
    var w' := w.(requests := w.requests[1..], replies := w.replies + [Reply(w.requests[0], answer)]);
    assert forall i | 0 <= i < |w'.requests| :: w'.requests[i] == w.requests[i + 1];
    forall i | 0 <= i < |w'.replies| ensures ReplyOnTime(w', w'.replies[i], who, lease', misses', now) {
      if i < |w.replies| {
        assert ReplyOnTime(w, w.replies[i], who, lease', misses', now);
      }
      ReplyReadsSessions(w, w', w'.replies[i], who, lease', misses', now);
    }
    AllOnTime(w', who, lease', misses', now);
  }

  lemma FreshRequests(w: Worker, who: WorkerId, lease: Lease, misses: Misses, now: int)
    requires WorkerOnTime(w, who, lease, misses, now)
    ensures forall i | 0 <= i < |w.requests| ::
              w.requests[i].issuedAt == now || !(w.requests[i].statement.Acquire? || w.requests[i].statement.Renew?)
  {
  }

  lemma Distribute(m: nat, h: int)
    ensures (m + 1 + 1) * h == (m + 1) * h + h
  {
  }

  /** What executing `c` does to the deadlines of its own worker. */
  lemma OwnCallDeadlines(t: Table, lease: Lease, misses: Misses, c: Call, now: int,
                         applied: bool, answer: Answer, w: Worker)
    requires w.cfg.heartbeatMs >= 0
    requires (answer == AnswerOf(t, c.statement, now, NoFault) && applied) || answer == Threw
    requires c.statement.Acquire? || c.statement.Renew? ==> c.issuedAt == now
    requires c.statement.Renew? && c.statement.stream in w.sessions ==>
               Before(lease, misses, c.statement.worker, c.statement.stream, w.cfg.heartbeatMs, now)
    ensures var lease' := if applied then LeaseAfter(lease, t, c, now) else lease;
            var misses' := MissesAfter(misses, c.statement, answer);
            && KeepsOthers(c, c.statement.worker, w.cfg.heartbeatMs, lease, misses, lease', misses')
            && ReplyOnTime(w, Reply(c, answer), c.statement.worker, lease', misses', now)
  {
    var who := c.statement.worker;
    var lease' := if applied then LeaseAfter(lease, t, c, now) else lease;
    var misses' := MissesAfter(misses, c.statement, answer);
    if c.statement.Renew? {
      Distribute(MissesOf(misses, who, c.statement.stream), w.cfg.heartbeatMs);
    }
    hide Succeeds, LockTable.Execute;
    assert ReplyOnTime(w, Reply(c, answer), who, lease', misses', now);
  }

  // ----- Whole runs -----

  ghost predicate AllWorkersOnTime(sys: System, misses: Misses) {
    forall who | who in sys.workers ::
      sys.workers[who].cfg.heartbeatMs >= 0 && WorkerOnTime(sys.workers[who], who, sys.lease, misses, sys.now)
  }

  lemma ExecuteKeepsOnTime(sys: System, misses: Misses, who: WorkerId, fault: Fault)
    requires SystemOk(sys) && AllWorkersOnTime(sys, misses) && CanStep(sys, Execute(who, fault))
    ensures AllWorkersOnTime(Next(sys, Execute(who, fault)), MissesNext(sys, misses, Execute(who, fault)))
  {
    hide Inv, CallsOk, Leased, Do, LockTable.Execute, Succeeds;
    var sys' := Next(sys, Execute(who, fault));
    var misses' := MissesNext(sys, misses, Execute(who, fault));
    var w := sys.workers[who];
    var c := w.requests[0];
    var answer := AnswerOf(sys.table, c.statement, sys.now, fault);
    assert WorkerOk(sys, who, w);
    HeadIsOurs(w);
    FreshRequests(w, who, sys.lease, misses, sys.now);
    HeadRenewalBefore(w, who, sys.lease, misses, sys.now);
    OwnCallDeadlines(sys.table, sys.lease, misses, c, sys.now, !fault.LostRequest?, answer, w);
    ServeKeepsOnTime(w, who, sys.lease, misses, sys'.lease, misses', sys.now, answer);
    ServeShape(w, answer);
    hide WorkerOk, WorkerOnTime;
    forall other | other in sys'.workers
      ensures sys'.workers[other].cfg.heartbeatMs >= 0 &&
              WorkerOnTime(sys'.workers[other], other, sys'.lease, misses', sys'.now)
    {
      if other != who {
        OthersDeadlinesStay(sys.workers[other], other, sys.table, sys.lease, misses, c, sys.now,
            !fault.LostRequest?, answer);
      }
    }
  }

  lemma HeadRenewalBefore(w: Worker, who: WorkerId, lease: Lease, misses: Misses, now: int)
    requires w.requests != [] && WorkerOnTime(w, who, lease, misses, now)
    ensures var c := w.requests[0];
            c.statement.Renew? && c.statement.stream in w.sessions ==>
              Before(lease, misses, who, c.statement.stream, w.cfg.heartbeatMs, now)
  {
  }

  lemma OthersDeadlinesStay(w: Worker, who: WorkerId, t: Table, lease: Lease, misses: Misses,
                            c: Call, now: int, applied: bool, answer: Answer)
    requires WorkerOnTime(w, who, lease, misses, now) && c.statement.worker != who
    ensures WorkerOnTime(w, who, if applied then LeaseAfter(lease, t, c, now) else lease,
                         MissesAfter(misses, c.statement, answer), now)
  {
    var lease' := if applied then LeaseAfter(lease, t, c, now) else lease;
    var misses' := MissesAfter(misses, c.statement, answer);
    assert forall s :: (who, s) in lease' <==> (who, s) in lease;
    assert forall s | (who, s) in lease :: lease'[(who, s)] == lease[(who, s)];
    assert forall s :: MissesOf(misses', who, s) == MissesOf(misses, who, s);
    assert forall s, t ::
        Before(lease', misses', who, s, w.cfg.heartbeatMs, t) <==> Before(lease, misses, who, s, w.cfg.heartbeatMs, t);
    hide Before, MissesAfter, LeaseAfter;
  }

  lemma WaitKeepsOnTime(w: Worker, who: WorkerId, lease: Lease, misses: Misses, now: int, later: int)
    requires WorkerOnTime(w, who, lease, misses, now) && w.requests == [] && w.replies == []
    requires forall id | id in w.timers :: later <= w.timers[id].due
    ensures WorkerOnTime(w, who, lease, misses, later)
  {
  }

  lemma OneWorkerActs(sys: System, misses: Misses, who: WorkerId, w': Worker)
    requires AllWorkersOnTime(sys, misses) && who in sys.workers
    requires w'.cfg == sys.workers[who].cfg && WorkerOnTime(w', who, sys.lease, misses, sys.now)
    ensures AllWorkersOnTime(sys.(workers := sys.workers[who := w']), misses)
  {
    hide WorkerOnTime;
  }

  lemma ActStepKeepsOnTime(sys: System, misses: Misses, who: WorkerId, a: Action, clock: int)
    requires SystemOk(sys) && AllWorkersOnTime(sys, misses) && CanStep(sys, Act(who, a, clock))
    ensures AllWorkersOnTime(Next(sys, Act(who, a, clock)), misses)
  {
    var w := sys.workers[who];
    assert WorkerOk(sys, who, w);
    hide WorkerOnTime, Do, CanDo, Inv, CallsOk, Leased, At, SystemOk;
    ActKeepsOnTime(w, a, who, sys.lease, misses, sys.now, clock);
    OneWorkerActs(sys, misses, who, Do(w, a));
  }

  lemma WaitStepKeepsOnTime(sys: System, misses: Misses, ms: nat)
    requires AllWorkersOnTime(sys, misses) && OnTime(sys, Wait(ms))
    ensures AllWorkersOnTime(sys.(now := sys.now + ms), misses)
  {
    forall who | who in sys.workers ensures WorkerOnTime(sys.workers[who], who, sys.lease, misses, sys.now + ms) {
      WaitKeepsOnTime(sys.workers[who], who, sys.lease, misses, sys.now, sys.now + ms);
    }
  }

  lemma StepKeepsOnTime(sys: System, misses: Misses, step: Step)
    requires SystemOk(sys) && AllWorkersOnTime(sys, misses) && CanStep(sys, step) && OnTime(sys, step)
    ensures AllWorkersOnTime(Next(sys, step), MissesNext(sys, misses, step))
  {
    hide AllWorkersOnTime, SystemOk, OnTime, MissesAfter, AnswerOf;
    match step
    case Wait(ms) => WaitStepKeepsOnTime(sys, misses, ms);
    case Act(who, a, clock) => ActStepKeepsOnTime(sys, misses, who, a, clock);
    case Execute(who, fault) => ExecuteKeepsOnTime(sys, misses, who, fault);
  }

  /** Every worker's heartbeat leaves room for `tolerated` lost renewals within its time-to-live. */
  ghost predicate CadenceFits(sys: System, tolerated: nat) {
    forall who | who in sys.workers ::
      0 <= sys.workers[who].cfg.heartbeatMs &&
          (tolerated + 1) * sys.workers[who].cfg.heartbeatMs < sys.workers[who].cfg.ttlMs
  }

  /** Every mapped stream of every worker is inside its lease, and its row in the table is its own. */
  ghost predicate AllTimely(sys: System) {
    forall who, s | who in sys.workers && s in sys.workers[who].sessions :: Timely(sys, who, s)
  }

  lemma AtMostMonotone(m: nat, tolerated: nat, h: int)
    requires m <= tolerated && 0 <= h
    ensures (m + 1) * h <= (tolerated + 1) * h
  {
  }

  /** A held token is backed by an armed timer or an unanswered renewal, and either bounds the time. */
  lemma HeldIsBefore(w: Worker, who: WorkerId, lease: Lease, misses: Misses, now: int, s: StreamId)
    requires Inv(w) && WorkerOnTime(w, who, lease, misses, now) && w.cfg.heartbeatMs >= 0 && s in w.sessions
    ensures Before(lease, misses, who, s, w.cfg.heartbeatMs, now)
  {
    ArmedOrRenewing(w, s);
    hide Inv, HasRenewal, Before;
    if s !in w.heartbeats {
      if i :| 0 <= i < |w.replies| && IsRenewal(w.replies[i].call, s) {
        RenewedBefore(w, w.replies[i], who, lease, misses, now, s);
      }
    }
  }

  lemma RenewedBefore(w: Worker, r: Reply, who: WorkerId, lease: Lease, misses: Misses, now: int,
                      s: StreamId)
    requires ReplyOnTime(w, r, who, lease, misses, now) && IsRenewal(r.call, s) && s in w.sessions &&
            w.cfg.heartbeatMs >= 0
    ensures Before(lease, misses, who, s, w.cfg.heartbeatMs, now)
  {
  }

  /** A mapped stream has an armed timer, or a renewal among the answers or the requests. */
  lemma ArmedOrRenewing(w: Worker, s: StreamId)
    requires Inv(w) && s in w.sessions
    ensures s in w.heartbeats ==> w.heartbeats[s] in w.timers && w.timers[w.heartbeats[s]].stream == s
    ensures s !in w.heartbeats ==>
              (exists i :: 0 <= i < |w.replies| && IsRenewal(w.replies[i].call, s)) ||
              (exists i :: 0 <= i < |w.requests| && IsRenewal(w.requests[i], s))
  {
    hide Inv, HasRenewal, Flow;
    MappedIsArmedOrRenewing(w, s);
    if s !in w.heartbeats {
      RenewalInFlow(w, s);
    }
  }

  lemma RenewalInFlow(w: Worker, s: StreamId)
    requires HasRenewal(Flow(w), s)
    ensures (exists i :: 0 <= i < |w.replies| && IsRenewal(w.replies[i].call, s)) ||
            (exists i :: 0 <= i < |w.requests| && IsRenewal(w.requests[i], s))
  {
    var q := Flow(w);
    var i :| 0 <= i < |q| && IsRenewal(q[i], s);
    if i < |w.replies| {
      assert q[i] == w.replies[i].call;
    } else {
      assert q[i] == w.requests[i - |w.replies|];
    }
  }

  lemma MappedIsArmedOrRenewing(w: Worker, s: StreamId)
    requires Inv(w) && s in w.sessions
    ensures s in w.heartbeats ==> w.heartbeats[s] in w.timers && w.timers[w.heartbeats[s]].stream == s
    ensures s !in w.heartbeats ==> HasRenewal(Flow(w), s)
  {
    hide HasRenewal, Flow;
    assert w.sessions.Keys == w.lockTokens.Keys;
  }

  lemma MappedIsTimely(sys: System, misses: Misses, tolerated: nat, who: WorkerId, s: StreamId)
    requires who in sys.workers && s in sys.workers[who].sessions && Inv(sys.workers[who])
    requires WorkerOnTime(sys.workers[who], who, sys.lease, misses, sys.now) && AtMost(misses, tolerated)
    requires CadenceFits(sys, tolerated) && sys.skew == 0
    ensures Timely(sys, who, s)
  {
    hide Inv, WorkerOnTime;
    var w := sys.workers[who];
    HeldIsBefore(w, who, sys.lease, misses, sys.now, s);
    AtMostMonotone(MissesOf(misses, who, s), tolerated, w.cfg.heartbeatMs);
  }

  lemma OnTimeIsTimely(sys: System, misses: Misses, tolerated: nat)
    requires SystemOk(sys) && AllWorkersOnTime(sys, misses) && AtMost(misses, tolerated)
    requires CadenceFits(sys, tolerated) && sys.skew == 0
    ensures AllTimely(sys)
  {
    hide Inv, WorkerOnTime, CadenceFits, AtMost, CallsOk, Leased, Timely;
    forall who, s | who in sys.workers && s in sys.workers[who].sessions ensures Timely(sys, who, s) {
      assert WorkerOk(sys, who, sys.workers[who]);
      MappedIsTimely(sys, misses, tolerated, who, s);
    }
  }

  lemma ActKeepsCfg(w: Worker, a: Action, now: int, clock: int)
    requires Inv(w) && CanDo(w, a) && !a.Serve? && At(a, now, clock)
    ensures Do(w, a).cfg == w.cfg
  {
    hide Inv, Do, CanDo, At, Sends, MapsOnlyGranted, MapsNothingNew;
    ActionEffects(w, a, now, clock);
    CfgKept(w, Do(w, a), now, clock);
  }

  lemma StepKeepsSettings(sys: System, step: Step)
    requires SystemOk(sys) && CanStep(sys, step)
    ensures var sys' := Next(sys, step);
            sys'.skew == sys.skew && sys'.workers.Keys == sys.workers.Keys &&
            forall who | who in sys.workers :: sys'.workers[who].cfg == sys.workers[who].cfg
  {
    match step
    case Wait(_) =>
      hide SystemOk;
    case Act(who, a, clock) => ActKeepsSettings(sys, who, a, clock);
    case Execute(who, fault) => ExecuteKeepsSettings(sys, who, fault);
  }

  lemma OkWorkersAgree(sys: System, who: WorkerId)
    requires SystemOk(sys) && who in sys.workers
    ensures Inv(sys.workers[who])
  {
    hide Inv, CallsOk, Leased;
    assert WorkerOk(sys, who, sys.workers[who]);
  }

  lemma ActKeepsSettings(sys: System, who: WorkerId, a: Action, clock: int)
    requires SystemOk(sys) && CanStep(sys, Act(who, a, clock))
    ensures var sys' := Next(sys, Act(who, a, clock));
            sys'.skew == sys.skew && sys'.workers.Keys == sys.workers.Keys &&
            forall o | o in sys.workers :: sys'.workers[o].cfg == sys.workers[o].cfg
  {
    hide Inv, Do, CanDo, At, SystemOk;
    OkWorkersAgree(sys, who);
    ActKeepsCfg(sys.workers[who], a, sys.now, clock);
  }

  lemma ExecuteKeepsSettings(sys: System, who: WorkerId, fault: Fault)
    requires CanStep(sys, Execute(who, fault))
    ensures var sys' := Next(sys, Execute(who, fault));
            sys'.skew == sys.skew && sys'.workers.Keys == sys.workers.Keys &&
            forall o | o in sys.workers :: sys'.workers[o].cfg == sys.workers[o].cfg
  {
    hide Do, LockTable.Execute, LeaseAfter, Succeeds;
    ServeShape(sys.workers[who], AnswerOf(sys.table, sys.workers[who].requests[0].statement, sys.now, fault));
  }

  lemma StepKeepsCadence(sys: System, step: Step, tolerated: nat)
    requires SystemOk(sys) && CanStep(sys, step) && CadenceFits(sys, tolerated)
    ensures CadenceFits(Next(sys, step), tolerated) && Next(sys, step).skew == sys.skew
  {
    hide SystemOk, CanStep, Next;
    StepKeepsSettings(sys, step);
  }

  lemma {:induction false} PunctualKeepsTimely(sys: System, misses: Misses, steps: seq<Step>, tolerated: nat)
    requires CanRunSystem(sys, steps) && Punctual(sys, misses, steps, tolerated)
    requires SystemOk(sys) && AllWorkersOnTime(sys, misses) && AtMost(misses, tolerated)
    requires CadenceFits(sys, tolerated) && sys.skew == 0
    ensures AllTimely(RunSystem(sys, steps)) && SystemOk(RunSystem(sys, steps))
    decreases |steps|
  {
    hide SystemOk, AllWorkersOnTime, AtMost, CadenceFits, OnTime, MissesNext, Next, CanStep, AllTimely;
    if steps == [] {
      OnTimeIsTimely(sys, misses, tolerated);
    } else {
      StepKeepsOk(sys, steps[0]);
      StepKeepsOnTime(sys, misses, steps[0]);
      StepKeepsCadence(sys, steps[0], tolerated);
      PunctualKeepsTimely(Next(sys, steps[0]), MissesNext(sys, misses, steps[0]), steps[1..], tolerated);
    }
  }

  lemma InitialIsOnTime(sys: System)
    requires Initial(sys) && forall who | who in sys.workers :: 0 <= sys.workers[who].cfg.heartbeatMs
    ensures AllWorkersOnTime(sys, map[])
  {
  }

  /** Instant calls, timers on time, no clock skew and at most `tolerated` renewals of one stream lost in a row:
      if the cadence fits, then in every reachable state no stream has two sessions, and the row of every
      mapped stream is still its owner's and unexpired, so the next renewal is not refused. */
  lemma CadenceSurvives(sys: System, steps: seq<Step>, tolerated: nat)
    requires Initial(sys) && sys.skew == 0 && CadenceFits(sys, tolerated)
    requires CanRunSystem(sys, steps) && Punctual(sys, map[], steps, tolerated)
    ensures var end := RunSystem(sys, steps);
            && (forall a, b, s | a in end.workers && b in end.workers && s in end.workers[a].sessions
                                 && s in end.workers[b].sessions :: a == b)
            && (forall who, s | who in end.workers && s in end.workers[who].sessions ::
                  && s in end.workers[who].lockTokens
                  && Matches(end.table, s, who, end.workers[who].lockTokens[s]) && end.now < end.table[s].expires)
  {
    InitialIsOk(sys);
    InitialIsOnTime(sys);
    PunctualKeepsTimely(sys, map[], steps, tolerated);
    var end := RunSystem(sys, steps);
    hide SystemOk;
    forall a, b, s | a in end.workers && b in end.workers && s in end.workers[a].sessions &&
        s in end.workers[b].sessions
      ensures a == b
    {
      assert Timely(end, a, s) && Timely(end, b, s);
      if a != b {
        Exclusion(sys, steps, a, b, s);
      }
    }
    forall who, s | who in end.workers && s in end.workers[who].sessions
      ensures && s in end.workers[who].lockTokens
              && Matches(end.table, s, who, end.workers[who].lockTokens[s]) && end.now < end.table[s].expires
    {
      assert Timely(end, who, s);
      TimelyOwnerHasTheRow(sys, steps, who, s);
    }
  }

  // ----- The default cadence -----

  /** The cadence used when none is configured: a third of the time-to-live, but no less than a second. */
  function DefaultHeartbeat(ttlMs: nat): nat {
    if ttlMs / 3 < 1000 then 1000 else ttlMs / 3
  }

  /** The constructor's check on the cadence, configured or defaulted. */
  datatype Cadence = Chosen(heartbeatMs: int) | Throws

  function ChooseHeartbeat(configured: int, isConfigured: bool, ttlMs: nat): Cadence {
    var heartbeatMs := if isConfigured then configured else DefaultHeartbeat(ttlMs);
    if heartbeatMs >= ttlMs then Throws else Chosen(heartbeatMs)
  }

  /** A configured cadence is used exactly if it is below the time-to-live. */
  lemma ConfiguredIsUsed(configured: int, ttlMs: nat)
    ensures ChooseHeartbeat(configured, true, ttlMs) == Chosen(configured) <==> configured < ttlMs
    ensures ChooseHeartbeat(configured, true, ttlMs).Throws? <==> configured >= ttlMs
  {
  }

  /** The default is accepted exactly when the time-to-live exceeds a second; it is a third of it, rounded down, from
      three seconds on, and a second below. So it leaves room for one lost renewal exactly when the time-to-live exceeds
      two seconds: between the two the registry starts, and one loss can cost a lock. */
  lemma DefaultToleratesOneMiss(ttlMs: nat, configured: int)
    ensures ChooseHeartbeat(configured, false, ttlMs).Throws? <==> ttlMs <= 1000
    ensures ttlMs > 1000 ==>
              var h := ChooseHeartbeat(configured, false, ttlMs).heartbeatMs;
              && h >= 1000 && (3 * h <= ttlMs < 3 * h + 3 <==> ttlMs >= 3000) && (ttlMs < 3003 ==> h <= 1000)
              && (2 * h < ttlMs <==> ttlMs > 2000)
              && (3 * h < ttlMs <==> ttlMs > 3000 && ttlMs % 3 != 0)
  {
  }

  /** Every worker runs on the cadence its constructor chose without one being configured. */
  ghost predicate OnDefaultCadence(sys: System) {
    forall who | who in sys.workers ::
      && sys.workers[who].cfg.ttlMs > 2000
      && ChooseHeartbeat(0, false, sys.workers[who].cfg.ttlMs) == Chosen(sys.workers[who].cfg.heartbeatMs)
  }

  /** With the default cadence and a time-to-live above two seconds, one lost renewal in a row is survived. */
  lemma DefaultCadenceSurvivesOneMiss(sys: System, steps: seq<Step>)
    requires Initial(sys) && sys.skew == 0 && OnDefaultCadence(sys)
    requires CanRunSystem(sys, steps) && Punctual(sys, map[], steps, 1)
    ensures var end := RunSystem(sys, steps);
            forall a, b, s | a in end.workers && b in end.workers && s in end.workers[a].sessions
                             && s in end.workers[b].sessions :: a == b
  {
    forall who | who in sys.workers
      ensures 0 <= sys.workers[who].cfg.heartbeatMs && 2 * sys.workers[who].cfg.heartbeatMs < sys.workers[who].cfg.ttlMs
    {
      DefaultToleratesOneMiss(sys.workers[who].cfg.ttlMs, 0);
    }
    assert CadenceFits(sys, 1);
    hide Initial, Punctual;
    CadenceSurvives(sys, steps, 1);
  }
}
