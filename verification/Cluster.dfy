/** Several workers, one lock table, one clock. The table executes each worker's statements in the order they
    were sent, at any later time; a statement may also fail, before or after it has taken effect. */
module Cluster {
  import opened LockTable
  import opened Workers
  import opened Registry
  import opened RegistryRuns
  import opened WorkerEffects

  type Lease = map<(WorkerId, StreamId), int>

  /** `skew` bounds the difference between a worker's clock and the table's. `lease` is history: for a worker
      and a stream, when its last successful claim or renewal of that stream was sent. */
  datatype System = System(
    table: Table,
    workers: map<WorkerId, Worker>,
    now: int,
    skew: nat,
    lease: Lease)

  datatype Fault = NoFault | LostReply | LostRequest

  datatype Step =
    | Wait(ms: nat)
    | Act(who: WorkerId, action: Action, clock: int)
    | Execute(who: WorkerId, fault: Fault)

  predicate CanStep(sys: System, step: Step) {
    match step
    case Wait(_) => true
    case Act(who, a, clock) =>
      && who in sys.workers && !a.Serve? && CanDo(sys.workers[who], a) && At(a, sys.now, clock)
      && sys.now - sys.skew <= clock <= sys.now + sys.skew
    case Execute(who, _) => who in sys.workers && sys.workers[who].requests != []
  }

  function AnswerOf(t: Table, st: Statement, now: int, fault: Fault): Answer {
    if !fault.NoFault? then Threw else if Succeeds(t, st, now) then Yes else No
  }

  /** Only a claim or a renewal that took effect starts a new lease. */
  function LeaseAfter(lease: Lease, t: Table, c: Call, now: int): Lease {
    if (c.statement.Acquire? || c.statement.Renew?) && Succeeds(t, c.statement, now)
    then lease[(c.statement.worker, c.statement.stream) := c.issuedAt]
    else lease
  }

  function Next(sys: System, step: Step): System
    requires CanStep(sys, step)
  {
    match step
    case Wait(ms) => sys.(now := sys.now + ms)
    case Act(who, a, _) => sys.(workers := sys.workers[who := Do(sys.workers[who], a)])
    case Execute(who, fault) =>
      var w := sys.workers[who];
      var c := w.requests[0];
      var served := sys.(workers := sys.workers[who := Do(w, Serve(AnswerOf(sys.table, c.statement, sys.now, fault)))]);
      if fault.LostRequest? then served
      else
        served.(table := LockTable.Execute(sys.table, c.statement, sys.now),
                lease := LeaseAfter(sys.lease, sys.table, c, sys.now))
  }

  /** What a worker hears is what happened: a call that goes through is granted exactly if it took effect and refused
      exactly if it did not; one that is lost on either way throws, and then the table has executed it exactly if only
      the reply was lost. */
  lemma ReplyTells(sys: System, who: WorkerId, fault: Fault)
    requires CanStep(sys, Execute(who, fault))
    ensures var w, sys' := sys.workers[who], Next(sys, Execute(who, fault));
            var st, replies := w.requests[0].statement, sys'.workers[who].replies;
            && |replies| == |w.replies| + 1 && replies[..|w.replies|] == w.replies
            && replies[|w.replies|].call == w.requests[0]
            && (replies[|w.replies|].answer == Yes <==> fault == NoFault && Succeeds(sys.table, st, sys.now))
            && (replies[|w.replies|].answer == No <==> fault == NoFault && !Succeeds(sys.table, st, sys.now))
            && sys'.table == if fault == LostRequest then sys.table else LockTable.Execute(sys.table, st, sys.now)
  {
    hide LockTable.Execute, Succeeds;
  }

  predicate CanRunSystem(sys: System, steps: seq<Step>)
    decreases |steps|
  {
    steps == [] || (CanStep(sys, steps[0]) && CanRunSystem(Next(sys, steps[0]), steps[1..]))
  }

  function RunSystem(sys: System, steps: seq<Step>): System
    requires CanRunSystem(sys, steps)
    decreases |steps|
  {
    if steps == [] then sys else RunSystem(Next(sys, steps[0]), steps[1..])
  }

  /** Any set of workers with nothing started; the table may hold anything. */
  predicate Initial(sys: System) {
    forall who | who in sys.workers ::
      sys.workers[who].cfg.workerId == who && sys.workers[who] == Init(sys.workers[who].cfg)
  }

  // ----- The invariant -----

  /** Either the row is this claim's and lives at least as long as the lease, or the lease has run out. */
  predicate Covered(t: Table, lease: Lease, now: int, margin: int,
                    who: WorkerId, s: StreamId, token: Token) {
    && (who, s) in lease
    && ((Matches(t, s, who, token) && lease[(who, s)] + margin <= t[s].expires) || lease[(who, s)] + margin <= now)
  }

  predicate IsGrant(r: Reply) {
    r.answer.Yes? && r.call.statement.Acquire?
  }

  /** Every mapped stream, and every granted claim whose answer is on its way, is covered. */
  ghost predicate Leased(t: Table, lease: Lease, now: int, margin: int, who: WorkerId,
                         w: Worker) {
    && (forall s | s in w.sessions :: s in w.lockTokens && Covered(t, lease, now, margin, who, s, w.lockTokens[s]))
    && (forall i | 0 <= i < |w.replies| && IsGrant(w.replies[i]) ::
          Covered(t, lease, now, margin, who, w.replies[i].call.statement.stream, w.replies[i].call.statement.token))
  }

  /** What each call on the connection says about itself. */
  ghost predicate CallOk(c: Call, margin: int, w: Worker) {
    match c.statement
    case Acquire(_, _, _, expires) => c.issuedAt + margin <= expires
    case Renew(_, _, _, expires) => c.issuedAt + margin <= expires
    case Release(_, _, token) => NamesReleased(token, w.released, w.instances)
    case ReleaseAll(_) => w.phase.Drained?
  }

  ghost predicate CallsOk(margin: int, w: Worker) {
    forall i | 0 <= i < |w.requests| :: CallOk(w.requests[i], margin, w)
  }

  function Margin(w: Worker, skew: nat): int {
    w.cfg.ttlMs - skew
  }

  ghost predicate WorkerOk(sys: System, who: WorkerId, w: Worker) {
    && Inv(w) && w.cfg.workerId == who
    && CallsOk(Margin(w, sys.skew), w)
    && Leased(sys.table, sys.lease, sys.now, Margin(w, sys.skew), who, w)
  }

  ghost predicate SystemOk(sys: System) {
    forall who | who in sys.workers :: WorkerOk(sys, who, sys.workers[who])
  }

  // ----- Steps of the worker itself -----

  lemma CallStaysOk(c: Call, margin: int, w: Worker, w': Worker, now: int, clock: int)
    requires CallOk(c, margin, w) && Sends(w, w', now, clock)
    ensures CallOk(c, margin, w')
  {
    if c.statement.Release? {
      var k :| 0 <= k < |w.released| && w.released[k] in w.instances
               && w.instances[w.released[k]].token == c.statement.token;
      assert w'.released[k] == w.released[k];
    }
  }

  lemma CallsStayOk(skew: nat, w: Worker, w': Worker, now: int, clock: int)
    requires CallsOk(Margin(w, skew), w) && Sends(w, w', now, clock) && now - skew <= clock
    ensures CallsOk(Margin(w', skew), w')
  {
    var margin := Margin(w, skew);
    forall i | 0 <= i < |w'.requests| ensures CallOk(w'.requests[i], margin, w') {
      if i < |w.requests| {
        assert w'.requests[i] == w.requests[i];
        CallStaysOk(w.requests[i], margin, w, w', now, clock);
      } else {
        assert Proper(w'.requests[i], w', now, clock);
      }
    }
  }

  lemma StaysLeased(t: Table, lease: Lease, now: int, margin: int, who: WorkerId,
                    w: Worker, w': Worker)
    requires Leased(t, lease, now, margin, who, w) && MapsOnlyGranted(w, w')
    requires w'.replies == w.replies || (w.replies != [] && w'.replies == w.replies[1..])
    ensures Leased(t, lease, now, margin, who, w')
  {
    forall s | s in w'.sessions
      ensures s in w'.lockTokens && Covered(t, lease, now, margin, who, s, w'.lockTokens[s])
    {
      if GrantsNext(w, s, w'.lockTokens[s]) {
        assert IsGrant(w.replies[0]);
      }
    }
    forall i | 0 <= i < |w'.replies| && IsGrant(w'.replies[i])
      ensures Covered(t, lease, now, margin, who, w'.replies[i].call.statement.stream,
          w'.replies[i].call.statement.token)
    {
      assert w'.replies[i] == w.replies[i] || w'.replies[i] == w.replies[i + 1];
    }
  }

  lemma ActionKeepsOk(t: Table, lease: Lease, now: int, skew: nat, who: WorkerId,
                      w: Worker, a: Action, clock: int)
    requires Inv(w) && CanDo(w, a) && !a.Serve? && At(a, now, clock) && now - skew <= clock
    requires CallsOk(Margin(w, skew), w) && Leased(t, lease, now, Margin(w, skew), who, w)
    ensures var w' := Do(w, a);
            && Inv(w') && w'.cfg == w.cfg
            && CallsOk(Margin(w, skew), w') && Leased(t, lease, now, Margin(w, skew), who, w')
  {
    assert a.Deliver? ==> w.replies != [];
    hide Inv, Do, CanDo, CallsOk, Leased, MapsOnlyGranted;
    var w' := Do(w, a);
    ActionKeepsInv(w, a);
    ActionEffects(w, a, now, clock);
    assert w'.cfg == w.cfg;
    hide Sends;
    CallsStayOk(skew, w, w', now, clock);
    StaysLeased(t, lease, now, Margin(w, skew), who, w, w');
  }

  lemma ActKeepsWorkerOk(sys: System, who: WorkerId, a: Action, clock: int)
    requires who in sys.workers && WorkerOk(sys, who, sys.workers[who]) && CanStep(sys, Act(who, a, clock))
    ensures WorkerOk(sys, who, Do(sys.workers[who], a))
  {
    hide Inv, Do, CanDo, CallsOk, Leased, At;
    ActionKeepsOk(sys.table, sys.lease, sys.now, sys.skew, who, sys.workers[who], a, clock);
  }

  // ----- Steps of the table -----

  /** A statement of another worker takes a covered row only once the lease has run out. */
  lemma OthersCannotUncover(t: Table, lease: Lease, now: int, margin: int,
                            who: WorkerId, s: StreamId, token: Token, c: Call)
    requires Covered(t, lease, now, margin, who, s, token) && c.statement.worker != who
    ensures Covered(LockTable.Execute(t, c.statement, now), LeaseAfter(lease, t, c, now), now, margin, who, s, token)
  {
  }

  /** The worker's own next statement keeps a claim covered, if it is a renewal of that claim or touches
      neither the claim's row nor its stream. */
  lemma OwnCallKeepsCovered(t: Table, lease: Lease, now: int, margin: int,
                            who: WorkerId, s: StreamId, token: Token, c: Call)
    requires Covered(t, lease, now, margin, who, s, token) && c.statement.worker == who
    requires HarmlessTo(c, margin, s, token)
    ensures Covered(LockTable.Execute(t, c.statement, now), LeaseAfter(lease, t, c, now), now, margin, who, s, token)
  {
  }

  lemma GrantIsCovered(t: Table, lease: Lease, now: int, margin: int, c: Call)
    requires c.statement.Acquire? && Succeeds(t, c.statement, now) && c.issuedAt + margin <= c.statement.expires
    ensures var st := c.statement;
            Covered(LockTable.Execute(t, st, now), LeaseAfter(lease, t, c, now), now, margin,
                    st.worker, st.stream, st.token)
  {
  }

  /** What the order of the connection says about the call at the head of the requests. */
  lemma HeadRequest(w: Worker, margin: int)
    requires Inv(w) && w.requests != [] && CallsOk(margin, w)
    ensures var c := w.requests[0];
            && c.statement.worker == w.cfg.workerId && CallOk(c, margin, w)
            && (forall s | s in w.sessions :: s in w.lockTokens && HarmlessTo(c, margin, s, w.lockTokens[s]))
            && (forall i | 0 <= i < |w.replies| && w.replies[i].call.statement.Acquire? ::
                  HarmlessTo(c, margin, w.replies[i].call.statement.stream, w.replies[i].call.statement.token))
  {
    var q, n, c := Flow(w), |w.replies|, w.requests[0];
    assert q[n] == c;
    assert CallOk(c, margin, w);
    forall s | s in w.sessions ensures s in w.lockTokens && HarmlessTo(c, margin, s, w.lockTokens[s]) {
      assert !HasClaim(q, s);
      assert !IsClaim(q[n], s);
      if c.statement.Release? {
        ReleasedTokenIsNotHeld(w, c.statement.token, s);
      }
    }
    forall i | 0 <= i < |w.replies| && w.replies[i].call.statement.Acquire?
      ensures HarmlessTo(c, margin, w.replies[i].call.statement.stream, w.replies[i].call.statement.token)
    {
      assert q[i] == w.replies[i].call;
      assert !Clash(q[i], q[n]);
      assert IsClaim(q[i], q[i].statement.stream);
      assert HasClaim(q, q[i].statement.stream) && q[i].statement.stream in w.waiting;
    }
  }

  predicate HarmlessTo(c: Call, margin: int, s: StreamId, token: Token) {
    match c.statement
    case Acquire(r, _, _, _) => r != s
    case Renew(r, _, k, expires) => r == s ==> k == token && c.issuedAt + margin <= expires
    case Release(_, _, k) => k != token
    case ReleaseAll(_) => false
  }

  lemma ReleasedTokenIsNotHeld(w: Worker, token: Token, s: StreamId)
    requires Inv(w) && NamesReleased(token, w.released, w.instances) && s in w.sessions
    ensures s in w.lockTokens && w.lockTokens[s] != token
  {
    var k :| 0 <= k < |w.released| && w.released[k] in w.instances && w.instances[w.released[k]].token == token;
    assert Mapped(w.sessions, w.sessions[s]);
  }

  lemma OwnExecuteKeepsLeased(sys: System, who: WorkerId)
    requires who in sys.workers && WorkerOk(sys, who, sys.workers[who]) && sys.workers[who].requests != []
    ensures var w := sys.workers[who];
            var c := w.requests[0];
            var t', lease' := LockTable.Execute(sys.table, c.statement, sys.now),
                LeaseAfter(sys.lease, sys.table, c, sys.now);
            forall answer | answer == AnswerOf(sys.table, c.statement, sys.now, NoFault) || answer == Threw ::
              Leased(t', lease', sys.now, Margin(w, sys.skew), who, Do(w, Serve(answer)))
  {
    hide Inv, CallsOk, LockTable.Execute, Succeeds, LeaseAfter, Covered, HarmlessTo, CallOk;
    var w := sys.workers[who];
    var margin, c := Margin(w, sys.skew), w.requests[0];
    HeadRequest(w, margin);
    var t', lease' := LockTable.Execute(sys.table, c.statement, sys.now), LeaseAfter(sys.lease, sys.table, c, sys.now);
    forall s | s in w.sessions ensures Covered(t', lease', sys.now, margin, who, s, w.lockTokens[s]) {
      OwnCallKeepsCovered(sys.table, sys.lease, sys.now, margin, who, s, w.lockTokens[s], c);
    }
    forall i | 0 <= i < |w.replies| && IsGrant(w.replies[i])
      ensures Covered(t', lease', sys.now, margin, who, w.replies[i].call.statement.stream,
          w.replies[i].call.statement.token)
    {
      var st := w.replies[i].call.statement;
      OwnCallKeepsCovered(sys.table, sys.lease, sys.now, margin, who, st.stream, st.token, c);
    }
    if c.statement.Acquire? && Succeeds(sys.table, c.statement, sys.now) {
      ClaimAllowsMargin(c, margin, w);
      GrantIsCovered(sys.table, sys.lease, sys.now, margin, c);
    }
    forall answer | answer == AnswerOf(sys.table, c.statement, sys.now, NoFault) || answer == Threw
      ensures Leased(t', lease', sys.now, margin, who, Do(w, Serve(answer)))
    {
      ServeKeepsLeased(t', lease', sys.now, margin, who, w, answer);
    }
  }

  lemma ClaimAllowsMargin(c: Call, margin: int, w: Worker)
    requires CallOk(c, margin, w) && c.statement.Acquire?
    ensures c.issuedAt + margin <= c.statement.expires
  {
  }

  lemma ServeKeepsLeased(t: Table, lease: Lease, now: int, margin: int, who: WorkerId, w: Worker,
                         answer: Answer)
    requires w.requests != [] && Leased(t, lease, now, margin, who, w)
    requires var st := w.requests[0].statement;
             answer.Yes? && st.Acquire? ==> Covered(t, lease, now, margin, who, st.stream, st.token)
    ensures Leased(t, lease, now, margin, who, Do(w, Serve(answer)))
  {
    ServeShape(w, answer);
    hide Do, Covered;
  }

  lemma OthersExecuteKeepsLeased(sys: System, who: WorkerId, c: Call)
    requires who in sys.workers && WorkerOk(sys, who, sys.workers[who]) && c.statement.worker != who
    ensures var w := sys.workers[who];
            Leased(LockTable.Execute(sys.table, c.statement, sys.now), LeaseAfter(sys.lease, sys.table, c, sys.now),
                   sys.now, Margin(w, sys.skew), who, w)
  {
    var w := sys.workers[who];
    var margin := Margin(w, sys.skew);
    hide Inv, CallsOk, LockTable.Execute, Succeeds, LeaseAfter;
    var t', lease' := LockTable.Execute(sys.table, c.statement, sys.now), LeaseAfter(sys.lease, sys.table, c, sys.now);
    forall s | s in w.sessions ensures Covered(t', lease', sys.now, margin, who, s, w.lockTokens[s]) {
      OthersCannotUncover(sys.table, sys.lease, sys.now, margin, who, s, w.lockTokens[s], c);
    }
    forall i | 0 <= i < |w.replies| && IsGrant(w.replies[i])
      ensures Covered(t', lease', sys.now, margin, who, w.replies[i].call.statement.stream,
          w.replies[i].call.statement.token)
    {
      var st := w.replies[i].call.statement;
      OthersCannotUncover(sys.table, sys.lease, sys.now, margin, who, st.stream, st.token, c);
    }
  }

  lemma ServeKeepsCallsOk(w: Worker, margin: int, answer: Answer)
    requires w.requests != [] && CallsOk(margin, w)
    ensures CallsOk(margin, Do(w, Serve(answer))) && Do(w, Serve(answer)).cfg == w.cfg
  {
    var w' := Do(w, Serve(answer));
    forall i | 0 <= i < |w'.requests| ensures CallOk(w'.requests[i], margin, w') {
      assert CallOk(w.requests[i + 1], margin, w);
    }
  }

  lemma ServeWithoutEffect(t: Table, lease: Lease, now: int, margin: int, who: WorkerId, w: Worker)
    requires w.requests != [] && Leased(t, lease, now, margin, who, w)
    ensures Leased(t, lease, now, margin, who, Do(w, Serve(Threw)))
  {
  }

  lemma ExecuteKeepsOwner(sys: System, who: WorkerId, fault: Fault)
    requires CanStep(sys, Execute(who, fault)) && WorkerOk(sys, who, sys.workers[who])
    ensures var sys' := Next(sys, Execute(who, fault));
            WorkerOk(sys', who, sys'.workers[who])
  {
    hide Inv, CallsOk, Leased, LockTable.Execute, LeaseAfter, Succeeds, Do;
    var w := sys.workers[who];
    var answer := AnswerOf(sys.table, w.requests[0].statement, sys.now, fault);
    hide AnswerOf;
    ServeKeepsInv(w, answer);
    ServeKeepsCallsOk(w, Margin(w, sys.skew), answer);
    if fault.LostRequest? {
      ServeWithoutEffect(sys.table, sys.lease, sys.now, Margin(w, sys.skew), who, w);
    } else {
      OwnExecuteKeepsLeased(sys, who);
    }
  }

  lemma ExecuteKeepsOther(sys: System, who: WorkerId, fault: Fault, other: WorkerId)
    requires CanStep(sys, Execute(who, fault)) && WorkerOk(sys, who, sys.workers[who])
    requires other in sys.workers && other != who && WorkerOk(sys, other, sys.workers[other])
    ensures WorkerOk(Next(sys, Execute(who, fault)), other, sys.workers[other])
  {
    var c := sys.workers[who].requests[0];
    hide Inv, CallsOk, Leased, LockTable.Execute, LeaseAfter, Succeeds, Do;
    HeadIsOurs(sys.workers[who]);
    OthersExecuteKeepsLeased(sys, other, c);
  }

  lemma HeadIsOurs(w: Worker)
    requires Inv(w) && w.requests != []
    ensures w.requests[0].statement.worker == w.cfg.workerId
  {
    assert Flow(w)[|w.replies|] == w.requests[0];
  }

  lemma WaitKeepsLeased(t: Table, lease: Lease, now: int, later: int, margin: int,
                        who: WorkerId, w: Worker)
    requires Leased(t, lease, now, margin, who, w) && now <= later
    ensures Leased(t, lease, later, margin, who, w)
  {
  }

  lemma StepKeepsOk(sys: System, step: Step)
    requires SystemOk(sys) && CanStep(sys, step)
    ensures SystemOk(Next(sys, step))
  {
    match step
    case Wait(ms) => WaitKeepsOk(sys, ms);
    case Act(who, a, clock) => ActKeepsOk(sys, who, a, clock);
    case Execute(who, fault) => ExecuteKeepsOk(sys, who, fault);
  }

  lemma WaitKeepsOk(sys: System, ms: nat)
    requires SystemOk(sys)
    ensures SystemOk(Next(sys, Wait(ms)))
  {
    hide Inv, CallsOk, Leased;
    forall who | who in sys.workers ensures WorkerOk(Next(sys, Wait(ms)), who, sys.workers[who]) {
      var w := sys.workers[who];
      assert WorkerOk(sys, who, w);
      WaitKeepsLeased(sys.table, sys.lease, sys.now, sys.now + ms, Margin(w, sys.skew), who, w);
    }
  }

  lemma ActKeepsOk(sys: System, who: WorkerId, a: Action, clock: int)
    requires SystemOk(sys) && CanStep(sys, Act(who, a, clock))
    ensures SystemOk(Next(sys, Act(who, a, clock)))
  {
    hide Inv, CallsOk, Leased, Do, CanDo, At;
    var sys' := Next(sys, Act(who, a, clock));
    assert WorkerOk(sys, who, sys.workers[who]);
    ActKeepsWorkerOk(sys, who, a, clock);
    forall other | other in sys'.workers ensures WorkerOk(sys', other, sys'.workers[other]) {
      assert other != who ==> WorkerOk(sys, other, sys.workers[other]);
    }
  }

  lemma ExecuteKeepsOk(sys: System, who: WorkerId, fault: Fault)
    requires SystemOk(sys) && CanStep(sys, Execute(who, fault))
    ensures SystemOk(Next(sys, Execute(who, fault)))
  {
    hide WorkerOk, LockTable.Execute, LeaseAfter, Do, CanDo;
    var sys' := Next(sys, Execute(who, fault));
    assert WorkerOk(sys, who, sys.workers[who]);
    ExecuteKeepsOwner(sys, who, fault);
    forall other | other in sys'.workers ensures WorkerOk(sys', other, sys'.workers[other]) {
      if other != who {
        assert WorkerOk(sys, other, sys.workers[other]);
        ExecuteKeepsOther(sys, who, fault, other);
      }
    }
  }

  lemma InitialIsOk(sys: System)
    requires Initial(sys)
    ensures SystemOk(sys)
  {
    forall who | who in sys.workers ensures WorkerOk(sys, who, sys.workers[who]) {
      InitInv(sys.workers[who].cfg);
    }
  }

  lemma {:induction false} RunKeepsOk(sys: System, steps: seq<Step>)
    requires SystemOk(sys) && CanRunSystem(sys, steps)
    ensures SystemOk(RunSystem(sys, steps))
    decreases |steps|
  {
    hide SystemOk, CanStep, Next;
    if steps != [] {
      StepKeepsOk(sys, steps[0]);
      RunKeepsOk(Next(sys, steps[0]), steps[1..]);
    }
  }

  // ----- Exclusion -----

  /** The worker's last successful claim or renewal of `s` was sent less than ttl minus skew ago. */
  predicate Timely(sys: System, who: WorkerId, s: StreamId)
    requires who in sys.workers
  {
    (who, s) in sys.lease && sys.now < sys.lease[(who, s)] + sys.workers[who].cfg.ttlMs - sys.skew
  }

  /** In every reachable state, two workers that both map a session for one stream cannot both be timely:
      a duplicate session exists only while one of its owners has overstayed its lease. */
  lemma Exclusion(sys: System, steps: seq<Step>, a: WorkerId, b: WorkerId, s: StreamId)
    requires Initial(sys) && CanRunSystem(sys, steps)
    requires var end := RunSystem(sys, steps);
             && a in end.workers && b in end.workers && a != b
             && s in end.workers[a].sessions && s in end.workers[b].sessions
    ensures var end := RunSystem(sys, steps);
            !Timely(end, a, s) || !Timely(end, b, s)
  {
    hide RunSystem, CanRunSystem, Initial, SystemOk, Timely;
    InitialIsOk(sys);
    RunKeepsOk(sys, steps);
    OkExcludes(RunSystem(sys, steps), a, b, s);
  }

  lemma OkExcludes(sys: System, a: WorkerId, b: WorkerId, s: StreamId)
    requires SystemOk(sys) && a in sys.workers && b in sys.workers && a != b
    requires s in sys.workers[a].sessions && s in sys.workers[b].sessions
    ensures !Timely(sys, a, s) || !Timely(sys, b, s)
  {
    hide Inv, CallsOk;
    assert WorkerOk(sys, a, sys.workers[a]) && WorkerOk(sys, b, sys.workers[b]);
  }

  /** A timely owner's row is its own: the table agrees with every timely registry. */
  lemma TimelyOwnerHasTheRow(sys: System, steps: seq<Step>, who: WorkerId, s: StreamId)
    requires Initial(sys) && CanRunSystem(sys, steps)
    requires var end := RunSystem(sys, steps);
             who in end.workers && s in end.workers[who].sessions && Timely(end, who, s)
    ensures var end := RunSystem(sys, steps);
            && s in end.workers[who].lockTokens
            && Matches(end.table, s, who, end.workers[who].lockTokens[s]) && end.now < end.table[s].expires
  {
    InitialIsOk(sys);
    RunKeepsOk(sys, steps);
    var end := RunSystem(sys, steps);
    assert WorkerOk(end, who, end.workers[who]);
  }
}
