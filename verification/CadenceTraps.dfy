/** A cadence that leaves no room for the tolerated losses is not safe: a punctual run in which renewals are lost one
    after another until the row expires and another worker takes the stream. */
module CadenceTraps {
  import opened LockTable
  import opened Sessions
  import opened Workers
  import opened Registry
  import opened WorkerEffects
  import opened Cluster
  import opened Cadence
  import opened ClusterTraps

  // ----- One renewal is lost -----

  /** Nothing is in flight; only `who` maps anything, and its timer is not late. */
  ghost predicate Holding(sys: System, who: WorkerId, cfg: Settings, s: StreamId, token: Token, id: TimerId, due: int) {
    && cfg.workerId == who && who in sys.workers && Owns(sys.workers[who], cfg, s, token, id, due)
    && sys.now <= due
    && forall o | o in sys.workers && o != who ::
         sys.workers[o].requests == [] && sys.workers[o].replies == [] && sys.workers[o].timers == map[]
  }

  function RenewalOf(cfg: Settings, s: StreamId, token: Token, now: int): Call {
    Call(Renew(s, cfg.workerId, token, now + cfg.ttlMs), now)
  }

  function Renewing(w: Worker, s: StreamId, token: Token, now: int): Worker {
    w.(timers := map[], heartbeats := map[], requests := [RenewalOf(w.cfg, s, token, now)])
  }

  function Unanswered(w: Worker, s: StreamId, token: Token, now: int): Worker {
    Renewing(w, s, token, now).(requests := [], replies := [Reply(RenewalOf(w.cfg, s, token, now), Threw)])
  }

  function Rearmed(w: Worker, s: StreamId, token: Token, id: TimerId, now: int): Worker {
    w.(timers := map[id + 1 := Timer(s, token, now + w.cfg.heartbeatMs)], heartbeats := map[s := id + 1],
       nextTimer := id + 2)
  }

  lemma TimerFires(w: Worker, cfg: Settings, s: StreamId, token: Token, id: TimerId, due: int)
    requires Owns(w, cfg, s, token, id, due)
    ensures CanDo(w, Fire(id, due, due)) && Do(w, Fire(id, due, due)) == Renewing(w, s, token, due)
  {
    assert w.timers - {id} == map[] && w.heartbeats - {s} == map[];
    assert [] + [RenewalOf(w.cfg, s, token, due)] == [RenewalOf(w.cfg, s, token, due)];
  }

  lemma RenewalIsLost(w: Worker, s: StreamId, token: Token, now: int)
    requires w.replies == []
    ensures var r := Renewing(w, s, token, now);
            r.requests != [] && CanDo(r, Serve(Threw)) && Do(r, Serve(Threw)) == Unanswered(w, s, token, now)
  {
    var c := RenewalOf(w.cfg, s, token, now);
    assert [c][1..] == [] && [] + [Reply(c, Threw)] == [Reply(c, Threw)];
  }

  lemma TimerIsRearmed(w: Worker, cfg: Settings, s: StreamId, token: Token, id: TimerId, due: int)
    requires Owns(w, cfg, s, token, id, due)
    ensures var u, r := Unanswered(w, s, token, due), Rearmed(w, s, token, id, due);
            && CanDo(u, Deliver(due)) && Do(u, Deliver(due)) == r &&
                Owns(r, cfg, s, token, id + 1, due + cfg.heartbeatMs)
  {
    var u := Unanswered(w, s, token, due);
    assert u.replies[1..] == [];
    assert HoldsToken(u, s, token);
    assert map[][id + 1 := Timer(s, token, due + cfg.heartbeatMs)] ==
        map[id + 1 := Timer(s, token, due + cfg.heartbeatMs)];
    assert map[][s := id + 1] == map[s := id + 1];
  }

  function With(sys: System, who: WorkerId, w: Worker): System {
    sys.(workers := sys.workers[who := w])
  }

  /** Where the system stands after the renewal due at `due` was lost and its failure was handled. */
  function AfterLoss(sys: System, who: WorkerId, s: StreamId, token: Token, id: TimerId, due: int): System
    requires who in sys.workers
  {
    With(sys, who, Rearmed(sys.workers[who], s, token, id, due)).(now := due)
  }

  /** The wait for the timer, and the loss of its renewal. */
  function LossSteps(sys: System, who: WorkerId, id: TimerId, due: int, rest: seq<Step>): seq<Step>
    requires sys.now <= due
  {
    [Wait(due - sys.now)] + ([Act(who, Fire(id, due, due), due)] +
      ([Execute(who, LostRequest)] + ([Act(who, Deliver(due), due)] + rest)))
  }

  lemma WaitsForTimer(sys: System, who: WorkerId, cfg: Settings, s: StreamId, token: Token, id: TimerId, due: int,
                      ms: nat)
    requires Holding(sys, who, cfg, s, token, id, due) && sys.now + ms <= due
    ensures CanStep(sys, Wait(ms)) && OnTime(sys, Wait(ms)) && Next(sys, Wait(ms)) == sys.(now := sys.now + ms)
  {
  }

  lemma Acts(sys: System, who: WorkerId, a: Action, w: Worker)
    requires who in sys.workers && !a.Serve? && CanDo(sys.workers[who], a) && At(a, sys.now, sys.now)
    requires Do(sys.workers[who], a) == w
    ensures var step := Act(who, a, sys.now);
            CanStep(sys, step) && OnTime(sys, step) && Next(sys, step) == With(sys, who, w)
  {
    hide Do, CanDo, At;
  }

  lemma LosesRequest(sys: System, who: WorkerId, w: Worker)
    requires who in sys.workers && sys.workers[who].requests != []
    requires Do(sys.workers[who], Serve(Threw)) == w
    ensures var step := Execute(who, LostRequest);
            CanStep(sys, step) && OnTime(sys, step) && Next(sys, step) == With(sys, who, w)
  {
    hide Do;
  }

  lemma CountsMiss(sys: System, who: WorkerId, misses: Misses)
    requires who in sys.workers && sys.workers[who].requests != []
    requires var st := sys.workers[who].requests[0].statement; st.Renew? && st.worker == who
    ensures var s := sys.workers[who].requests[0].statement.stream;
            MissesNext(sys, misses, Execute(who, LostRequest)) == misses[(who, s) := MissesOf(misses, who, s) + 1]
  {
  }

  lemma HoldsOn(sys: System, who: WorkerId, cfg: Settings, s: StreamId, token: Token, id: TimerId, due: int)
    requires Holding(sys, who, cfg, s, token, id, due) && cfg.heartbeatMs >= 0
    requires Owns(Rearmed(sys.workers[who], s, token, id, due), cfg, s, token, id + 1, due + cfg.heartbeatMs)
    ensures Holding(AfterLoss(sys, who, s, token, id, due), who, cfg, s, token, id + 1, due + cfg.heartbeatMs)
  {
    hide Owns, Rearmed;
  }

  /** Losing the renewal that is due next, and then `rest`, is punctual if one more loss is tolerated. */
  lemma LosesOne(sys: System, misses: Misses, who: WorkerId, cfg: Settings, s: StreamId, token: Token, id: TimerId,
                 due: int, rest: seq<Step>, tolerated: nat)
    requires Holding(sys, who, cfg, s, token, id, due) && cfg.heartbeatMs >= 0
    requires AtMost(misses, tolerated) && MissesOf(misses, who, s) + 1 <= tolerated
    requires var after := AfterLoss(sys, who, s, token, id, due);
             CanRunSystem(after, rest)
             && Punctual(after, misses[(who, s) := MissesOf(misses, who, s) + 1], rest, tolerated)
    ensures Holding(AfterLoss(sys, who, s, token, id, due), who, cfg, s, token, id + 1, due + cfg.heartbeatMs)
    ensures var steps := LossSteps(sys, who, id, due, rest);
            && CanRunSystem(sys, steps) && Punctual(sys, misses, steps, tolerated)
            && RunSystem(sys, steps) == RunSystem(AfterLoss(sys, who, s, token, id, due), rest)
  {
    hide *;
    HoldFacts(sys, who, cfg, s, token, id, due);
    var s1, s2, s3 := LossRun(sys, misses, who, cfg, s, token, id, due);
    HoldsRearmed(sys, who, cfg, s, token, id, due);
    OneMoreMiss(misses, (who, s), MissesOf(misses, who, s) + 1, tolerated);
    LossIsPunctual(sys, s1, s2, s3, misses, misses[(who, s) := MissesOf(misses, who, s) + 1], who, id, due, rest,
        tolerated);
  }

  lemma HoldsRearmed(sys: System, who: WorkerId, cfg: Settings, s: StreamId, token: Token, id: TimerId, due: int)
    requires Holding(sys, who, cfg, s, token, id, due) && cfg.heartbeatMs >= 0
    ensures Holding(AfterLoss(sys, who, s, token, id, due), who, cfg, s, token, id + 1, due + cfg.heartbeatMs)
  {
    hide *;
    HoldFacts(sys, who, cfg, s, token, id, due);
    TimerIsRearmed(sys.workers[who], cfg, s, token, id, due);
    HoldsOn(sys, who, cfg, s, token, id, due);
  }

  /** The four steps of one lost renewal. */
  lemma LossRun(sys: System, misses: Misses, who: WorkerId, cfg: Settings, s: StreamId, token: Token, id: TimerId,
                due: int)
    returns (s1: System, s2: System, s3: System)
    requires Holding(sys, who, cfg, s, token, id, due) && sys.now <= due && who in sys.workers
    ensures var wait := Wait(due - sys.now); CanStep(sys, wait) && OnTime(sys, wait) && Next(sys, wait) == s1
    ensures var fire := Act(who, Fire(id, due, due), due); CanStep(s1, fire) && OnTime(s1, fire) && Next(s1, fire) == s2
    ensures var lose := Execute(who, LostRequest);
            && CanStep(s2, lose) && OnTime(s2, lose) && Next(s2, lose) == s3
            && MissesNext(s2, misses, lose) == misses[(who, s) := MissesOf(misses, who, s) + 1]
    ensures var handle := Act(who, Deliver(due), due);
            && CanStep(s3, handle) && OnTime(s3, handle) && Next(s3, handle) == AfterLoss(sys, who, s, token, id, due)
  {
    hide *;
    HoldFacts(sys, who, cfg, s, token, id, due);
    var w := sys.workers[who];
    var r, u, w' := Renewing(w, s, token, due), Unanswered(w, s, token, due), Rearmed(w, s, token, id, due);
    s1 := sys.(now := due);
    LossStates(sys, who, s, token, id, due);
    WaitsForTimer(sys, who, cfg, s, token, id, due, due - sys.now);
    TimerFires(w, cfg, s, token, id, due);
    s2, s3 := With(s1, who, r), With(s1, who, u);
    Acts(s1, who, Fire(id, due, due), r);
    RenewalIsLost(w, s, token, due);
    LosesRequest(s2, who, u);
    TimerIsRearmed(w, cfg, s, token, id, due);
    Acts(s3, who, Deliver(due), w');
    CountsMiss(s2, who, misses);
  }

  lemma HoldFacts(sys: System, who: WorkerId, cfg: Settings, s: StreamId, token: Token, id: TimerId, due: int)
    requires Holding(sys, who, cfg, s, token, id, due)
    ensures cfg.workerId == who && who in sys.workers && sys.now <= due &&
            Owns(sys.workers[who], cfg, s, token, id, due)
    ensures sys.workers[who].replies == [] && sys.workers[who].cfg == cfg
    ensures At(Fire(id, due, due), due, due) && At(Deliver(due), due, due)
  {
  }

  /** The four states of one lost renewal, step by step in the place of one worker. */
  lemma LossStates(sys: System, who: WorkerId, s: StreamId, token: Token, id: TimerId, due: int)
    requires who in sys.workers
    ensures var w, s1 := sys.workers[who], sys.(now := due);
            var r, u := Renewing(w, s, token, due), Unanswered(w, s, token, due);
            && who in With(s1, who, r).workers && who in With(s1, who, u).workers
            && With(s1, who, r).workers[who] == r && With(s1, who, r).now == due
            && With(s1, who, u).workers[who] == u && With(s1, who, u).now == due
            && With(With(s1, who, r), who, u) == With(s1, who, u)
            && With(With(s1, who, u), who, Rearmed(w, s, token, id, due)) == AfterLoss(sys, who, s, token, id, due)
            && r.requests != [] && r.requests[0].statement == Renew(s, w.cfg.workerId, token, due + w.cfg.ttlMs)
  {
  }

  lemma LossIsPunctual(s0: System, s1: System, s2: System, s3: System, misses: Misses, missed: Misses, who: WorkerId,
                       id: TimerId, due: int, rest: seq<Step>, tolerated: nat)
    requires s0.now <= due && AtMost(misses, tolerated)
    requires CanStep(s0, Wait(due - s0.now)) && OnTime(s0, Wait(due - s0.now)) && Next(s0, Wait(due - s0.now)) == s1
    requires var fire := Act(who, Fire(id, due, due), due);
             CanStep(s1, fire) && OnTime(s1, fire) && Next(s1, fire) == s2
    requires var lose := Execute(who, LostRequest); CanStep(s2, lose) && OnTime(s2, lose) && Next(s2, lose) == s3
    requires MissesNext(s2, misses, Execute(who, LostRequest)) == missed && AtMost(missed, tolerated)
    requires var handle := Act(who, Deliver(due), due);
             && CanStep(s3, handle) && OnTime(s3, handle) && CanRunSystem(Next(s3, handle), rest)
             && Punctual(Next(s3, handle), missed, rest, tolerated)
    ensures var steps := LossSteps(s0, who, id, due, rest);
            && CanRunSystem(s0, steps) && Punctual(s0, misses, steps, tolerated)
            && RunSystem(s0, steps) == RunSystem(Next(s3, Act(who, Deliver(due), due)), rest)
  {
    hide CanStep, OnTime, Next, MissesNext, AtMost, CanRunSystem, RunSystem, Punctual;
    var fire, lose, handle := Act(who, Fire(id, due, due), due), Execute(who, LostRequest), Act(who, Deliver(due), due);
    NoMissHere(s3, missed, handle);
    PrependPunctual(s3, missed, handle, rest, tolerated);
    PrependPunctual(s2, misses, lose, [handle] + rest, tolerated);
    NoMissHere(s1, misses, fire);
    PrependPunctual(s1, misses, fire, [lose] + ([handle] + rest), tolerated);
    NoMissHere(s0, misses, Wait(due - s0.now));
    PrependPunctual(s0, misses, Wait(due - s0.now), [fire] + ([lose] + ([handle] + rest)), tolerated);
  }

  lemma OneMoreMiss(misses: Misses, k: (WorkerId, StreamId), n: nat, tolerated: nat)
    requires AtMost(misses, tolerated) && n <= tolerated
    ensures AtMost(misses[k := n], tolerated)
  {
  }

  // ----- Lost until the row expires -----

  /** The owner's row expires, at the latest, when the timer after the last tolerated loss is due; `other` is new. */
  ghost predicate Doomed(sys: System, misses: Misses, who: WorkerId, cfg: Settings, e: Event, token: Token, id: TimerId,
                         due: int, other: WorkerId, theirs: Settings, left: nat, tolerated: nat) {
    && Holding(sys, who, cfg, e.streamId, token, id, due) && cfg.heartbeatMs >= 0
    && AtMost(misses, tolerated) && MissesOf(misses, who, e.streamId) + left == tolerated
    && e.streamId in sys.table && sys.now <= sys.table[e.streamId].expires <= due + Times(left, cfg.heartbeatMs)
    && other != who && other in sys.workers && theirs.workerId == other && theirs.maxSessions > 0
    && sys.workers[other] == Init(theirs)
  }

  function Times(n: nat, k: int): int {
    if n == 0 then 0 else Times(n - 1, k) + k
  }

  lemma {:induction false} TimesIsProduct(n: nat, k: int)
    ensures Times(n, k) == n * k
  {
    if n > 0 {
      TimesIsProduct(n - 1, k);
    }
  }

  /** Both workers map the stream. */
  predicate MappedTwice(sys: System, a: WorkerId, b: WorkerId, s: StreamId) {
    a != b && a in sys.workers && b in sys.workers && s in sys.workers[a].sessions && s in sys.workers[b].sessions
  }

  lemma {:induction false} LosesTheStream(sys: System, misses: Misses, who: WorkerId, cfg: Settings, e: Event,
                                          token: Token, id: TimerId, due: int, other: WorkerId, theirs: Settings,
                                          left: nat, tolerated: nat)
    returns (steps: seq<Step>)
    requires Doomed(sys, misses, who, cfg, e, token, id, due, other, theirs, left, tolerated)
    ensures CanRunSystem(sys, steps) && Punctual(sys, misses, steps, tolerated)
    ensures MappedTwice(RunSystem(sys, steps), who, other, e.streamId)
    decreases left
  {
    hide *;
    DoomedFacts(sys, misses, who, cfg, e, token, id, due, other, theirs, left, tolerated);
    if sys.table[e.streamId].expires <= due {
      steps := Expires(sys, misses, who, cfg, e, token, id, due, other, theirs, tolerated);
    } else {
      StillDoomed(sys, misses, who, cfg, e, token, id, due, other, theirs, left, tolerated);
      var after := AfterLoss(sys, who, e.streamId, token, id, due);
      var missed := misses[(who, e.streamId) := MissesOf(misses, who, e.streamId) + 1];
      var rest := LosesTheStream(after, missed, who, cfg, e, token, id + 1, due + cfg.heartbeatMs, other, theirs,
                                 left - 1, tolerated);
      LosesOne(sys, misses, who, cfg, e.streamId, token, id, due, rest, tolerated);
      steps := LossSteps(sys, who, id, due, rest);
    }
  }

  lemma DoomedFacts(sys: System, misses: Misses, who: WorkerId, cfg: Settings, e: Event, token: Token, id: TimerId,
                    due: int, other: WorkerId, theirs: Settings, left: nat, tolerated: nat)
    requires Doomed(sys, misses, who, cfg, e, token, id, due, other, theirs, left, tolerated)
    ensures Holding(sys, who, cfg, e.streamId, token, id, due) && cfg.heartbeatMs >= 0 && AtMost(misses, tolerated)
    ensures sys.now <= due && e.streamId in sys.table && sys.now <= sys.table[e.streamId].expires
    ensures other != who && other in sys.workers && theirs.workerId == other && theirs.maxSessions > 0
    ensures sys.workers[other] == Init(theirs)
    ensures left > 0 ==> MissesOf(misses, who, e.streamId) + 1 <= tolerated
  {
    hide Owns;
  }

  lemma StillDoomed(sys: System, misses: Misses, who: WorkerId, cfg: Settings, e: Event, token: Token, id: TimerId,
                    due: int, other: WorkerId, theirs: Settings, left: nat, tolerated: nat)
    requires Doomed(sys, misses, who, cfg, e, token, id, due, other, theirs, left, tolerated)
    requires due < sys.table[e.streamId].expires
    ensures left > 0 && who in sys.workers
    ensures Doomed(AfterLoss(sys, who, e.streamId, token, id, due),
                   misses[(who, e.streamId) := MissesOf(misses, who, e.streamId) + 1],
                   who, cfg, e, token, id + 1, due + cfg.heartbeatMs, other, theirs, left - 1, tolerated)
  {
    hide Owns, Rearmed;
    assert left > 0;
    TimerIsRearmed(sys.workers[who], cfg, e.streamId, token, id, due);
    HoldsOn(sys, who, cfg, e.streamId, token, id, due);
    OneMoreMiss(misses, (who, e.streamId), MissesOf(misses, who, e.streamId) + 1, tolerated);
    hide Holding, AtMost, Unanswered;
  }

  /** Before its timer fires again the owner's row expires, and the other worker takes the stream. */
  lemma Expires(sys: System, misses: Misses, who: WorkerId, cfg: Settings, e: Event, token: Token, id: TimerId,
                due: int, other: WorkerId, theirs: Settings, tolerated: nat) returns (steps: seq<Step>)
    requires Holding(sys, who, cfg, e.streamId, token, id, due) && AtMost(misses, tolerated)
    requires e.streamId in sys.table && sys.now <= sys.table[e.streamId].expires <= due
    requires other != who && other in sys.workers && theirs.workerId == other && theirs.maxSessions > 0
    requires sys.workers[other] == Init(theirs)
    ensures CanRunSystem(sys, steps) && Punctual(sys, misses, steps, tolerated)
    ensures MappedTwice(RunSystem(sys, steps), who, other, e.streamId)
  {
    hide *;
    var expires := sys.table[e.streamId].expires;
    var wait, late := Wait(expires - sys.now), sys.(now := expires);
    HolderMaps(sys, who, cfg, e.streamId, token, id, due);
    WaitsForTimer(sys, who, cfg, e.streamId, token, id, due, wait.ms);
    MayTakeOver(late, other, theirs, e);
    TakesOver(late, other, theirs, e, token + 1);
    TakesOverPunctually(late, misses, other, theirs, e, token + 1, tolerated);
    NoMissHere(sys, misses, wait);
    PrependPunctual(sys, misses, wait, TakeOver(other, e, token + 1, expires), tolerated);
    steps := [wait] + TakeOver(other, e, token + 1, expires);
    IsMappedTwice(RunSystem(sys, steps), who, other, e.streamId);
  }

  lemma HolderMaps(sys: System, who: WorkerId, cfg: Settings, s: StreamId, token: Token, id: TimerId, due: int)
    requires Holding(sys, who, cfg, s, token, id, due)
    ensures who in sys.workers && s in sys.workers[who].sessions && sys.now <= due
  {
  }

  lemma IsMappedTwice(sys: System, a: WorkerId, b: WorkerId, s: StreamId)
    requires a != b && a in sys.workers && b in sys.workers
    requires s in sys.workers[a].sessions && s in sys.workers[b].sessions
    ensures MappedTwice(sys, a, b, s)
  {
  }

  // ----- Exactly when a cadence is enough -----

  ghost predicate Uniform(sys: System, heartbeatMs: int, ttlMs: int) {
    forall who | who in sys.workers ::
      sys.workers[who].cfg.heartbeatMs == heartbeatMs && sys.workers[who].cfg.ttlMs == ttlMs
  }

  /** A run of any number of workers with this cadence, from the start, without skew, with instant calls, timers on
      time, and at most `tolerated` renewals of a stream lost in a row. */
  ghost predicate PunctualRun(sys: System, steps: seq<Step>, heartbeatMs: int, ttlMs: int, tolerated: nat) {
    && Initial(sys) && sys.skew == 0 && Uniform(sys, heartbeatMs, ttlMs)
    && CanRunSystem(sys, steps) && Punctual(sys, map[], steps, tolerated)
  }

  /** In no such run is a stream mapped twice. */
  ghost predicate Survives(heartbeatMs: int, ttlMs: int, tolerated: nat) {
    forall sys, steps, a, b, s | PunctualRun(sys, steps, heartbeatMs, ttlMs, tolerated) ::
      !MappedTwice(RunSystem(sys, steps), a, b, s)
  }

  lemma DoomedFromTheStart(heartbeatMs: int, ttlMs: int, tolerated: nat, e: Event)
    requires 0 < heartbeatMs < ttlMs <= (tolerated + 1) * heartbeatMs
    ensures var sys := Two(heartbeatMs, ttlMs);
            var ca, cb := CfgOf("a", heartbeatMs, ttlMs), CfgOf("b", heartbeatMs, ttlMs);
            && CanTakeOver(sys, "a", ca, e)
            && Doomed(AfterGrant(Asked(sys, "a", ca, e, 1), "a", ca, e, 1, 0), map[("a", e.streamId) := 0],
                      "a", ca, e, 1, 0, heartbeatMs, "b", cb, tolerated, tolerated)
  {
    hide *;
    var sys := Two(heartbeatMs, ttlMs);
    var ca, cb := CfgOf("a", heartbeatMs, ttlMs), CfgOf("b", heartbeatMs, ttlMs);
    TwoFacts(heartbeatMs, ttlMs, e);
    TakeOverShape(sys, "a", ca, e, 1);
    GrantedHolds(sys, ca, cb, e);
    IsDoomed(AfterGrant(Asked(sys, "a", ca, e, 1), "a", ca, e, 1, 0), ca, cb, e, tolerated);
  }

  lemma TwoFacts(heartbeatMs: int, ttlMs: int, e: Event)
    ensures var sys := Two(heartbeatMs, ttlMs);
            var ca, cb := CfgOf("a", heartbeatMs, ttlMs), CfgOf("b", heartbeatMs, ttlMs);
            && sys.now == 0 && sys.skew == 0 && sys.workers == map["a" := Init(ca), "b" := Init(cb)]
            && ca.workerId == "a" && ca.heartbeatMs == heartbeatMs && ca.ttlMs == ttlMs
            && cb.workerId == "b" && cb.maxSessions > 0
            && CanTakeOver(sys, "a", ca, e)
  {
  }

  lemma IsDoomed(after: System, ca: Settings, cb: Settings, e: Event, tolerated: nat)
    requires 0 < ca.heartbeatMs < ca.ttlMs <= (tolerated + 1) * ca.heartbeatMs && after.now == 0
    requires Holding(after, "a", ca, e.streamId, 1, 0, ca.heartbeatMs)
    requires "b" in after.workers && after.workers["b"] == Init(cb) && cb.workerId == "b" && cb.maxSessions > 0
    requires e.streamId in after.table && after.table[e.streamId].expires == ca.ttlMs
    ensures Doomed(after, map[("a", e.streamId) := 0], "a", ca, e, 1, 0, ca.heartbeatMs, "b", cb, tolerated, tolerated)
  {
    TimesIsProduct(tolerated, ca.heartbeatMs);
    assert (tolerated + 1) * ca.heartbeatMs == tolerated * ca.heartbeatMs + ca.heartbeatMs;
    hide Holding, Times;
  }

  /** After the first claim its worker holds the stream, and the other one is as new. */
  lemma GrantedHolds(sys: System, ca: Settings, cb: Settings, e: Event)
    requires sys.workers == map["a" := Init(ca), "b" := Init(cb)] && ca.workerId == "a" && ca.heartbeatMs >= 0
    ensures var after := AfterGrant(Asked(sys, "a", ca, e, 1), "a", ca, e, 1, sys.now);
            && Holding(after, "a", ca, e.streamId, 1, 0, sys.now + ca.heartbeatMs)
            && after.now == sys.now && "b" in after.workers && after.workers["b"] == Init(cb)
            && e.streamId in after.table && after.table[e.streamId].expires == sys.now + ca.ttlMs
  {
    hide Owner, Owns, Claiming;
    OwnerOwns(ca, e, 1, sys.now, sys.now);
  }

  /** Without room for one more than the tolerated losses, this run is punctual and ends with a stream mapped twice. */
  lemma LossesCostTheStream(heartbeatMs: int, ttlMs: int, tolerated: nat, e: Event) returns (steps: seq<Step>)
    requires 0 < heartbeatMs < ttlMs <= (tolerated + 1) * heartbeatMs
    ensures PunctualRun(Two(heartbeatMs, ttlMs), steps, heartbeatMs, ttlMs, tolerated)
    ensures MappedTwice(RunSystem(Two(heartbeatMs, ttlMs), steps), "a", "b", e.streamId)
  {
    var sys, ca := Two(heartbeatMs, ttlMs), CfgOf("a", heartbeatMs, ttlMs);
    assert Initial(sys) && Uniform(sys, heartbeatMs, ttlMs) && sys.now == 0;
    DoomedFromTheStart(heartbeatMs, ttlMs, tolerated, e);
    hide *;
    var asked := Asked(sys, "a", ca, e, 1);
    var rest := LosesTheStream(AfterGrant(asked, "a", ca, e, 1, 0), map[("a", e.streamId) := 0], "a", ca, e, 1, 0,
                               heartbeatMs, "b", CfgOf("b", heartbeatMs, ttlMs), tolerated, tolerated);
    steps := ClaimsPunctually(sys, "a", ca, e, 1, rest, tolerated);
    IsPunctualRun(sys, steps, heartbeatMs, ttlMs, tolerated);
  }

  lemma IsPunctualRun(sys: System, steps: seq<Step>, heartbeatMs: int, ttlMs: int, tolerated: nat)
    requires Initial(sys) && sys.skew == 0 && Uniform(sys, heartbeatMs, ttlMs)
    requires CanRunSystem(sys, steps) && Punctual(sys, map[], steps, tolerated)
    ensures PunctualRun(sys, steps, heartbeatMs, ttlMs, tolerated)
  {
  }

  lemma ClaimsPunctually(sys: System, who: WorkerId, cfg: Settings, e: Event, token: Token, rest: seq<Step>,
                         tolerated: nat)
    returns (steps: seq<Step>)
    requires CanTakeOver(sys, who, cfg, e)
    requires var after := AfterGrant(Asked(sys, who, cfg, e, token), who, cfg, e, token, sys.now);
             CanRunSystem(after, rest) && Punctual(after, map[(who, e.streamId) := 0], rest, tolerated)
    ensures CanRunSystem(sys, steps) && Punctual(sys, map[], steps, tolerated)
    ensures RunSystem(sys, steps) ==
            RunSystem(AfterGrant(Asked(sys, who, cfg, e, token), who, cfg, e, token, sys.now), rest)
  {
    var ask := Act(who, Route(e, token, sys.now, sys.now), sys.now);
    var none: Misses := map[];
    assert AtMost(none, tolerated);
    assert none[(who, e.streamId) := 0] == map[(who, e.streamId) := 0];
    hide *;
    OnlyWaitsAreLate(sys, ask);
    var asked := Asked(sys, who, cfg, e, token);
    TakeOverShape(sys, who, cfg, e, token);
    LandThen(asked, who, cfg, e, token, sys.now, rest);
    LandPunctually(asked, none, who, cfg, e, token, sys.now, rest, tolerated);
    NoMissHere(sys, none, ask);
    PrependPunctual(sys, none, ask, LandSteps(who, sys.now, rest), tolerated);
    steps := [ask] + LandSteps(who, sys.now, rest);
  }

  /** A cadence survives `tolerated` lost renewals in a row if and only if one heartbeat more than that fits into the
      time-to-live. */
  lemma CadenceIsExact(heartbeatMs: int, ttlMs: int, tolerated: nat)
    requires 0 <= heartbeatMs < ttlMs
    ensures Survives(heartbeatMs, ttlMs, tolerated) <==> (tolerated + 1) * heartbeatMs < ttlMs
  {
    if (tolerated + 1) * heartbeatMs < ttlMs {
      forall sys, steps, a, b, s | PunctualRun(sys, steps, heartbeatMs, ttlMs, tolerated)
        ensures !MappedTwice(RunSystem(sys, steps), a, b, s)
      {
        FittingRunSurvives(sys, steps, heartbeatMs, ttlMs, tolerated, a, b, s);
      }
    } else {
      var e: Event :| true;
      assert heartbeatMs > 0;
      var steps := LossesCostTheStream(heartbeatMs, ttlMs, tolerated, e);
    }
  }

  lemma FittingRunSurvives(sys: System, steps: seq<Step>, heartbeatMs: int, ttlMs: int, tolerated: nat, a: WorkerId,
                           b: WorkerId, s: StreamId)
    requires PunctualRun(sys, steps, heartbeatMs, ttlMs, tolerated)
    requires 0 <= heartbeatMs && (tolerated + 1) * heartbeatMs < ttlMs
    ensures !MappedTwice(RunSystem(sys, steps), a, b, s)
  {
    assert CadenceFits(sys, tolerated);
    hide CanRunSystem, RunSystem, Punctual, CadenceFits, Initial;
    CadenceSurvives(sys, steps, tolerated);
  }

  /** The default cadence survives one lost renewal if and only if the time-to-live exceeds two seconds, while the
      constructor accepts it from one second on. */
  lemma DefaultCadenceIsExact(ttlMs: nat, configured: int)
    requires ChooseHeartbeat(configured, false, ttlMs).Chosen?
    ensures Survives(ChooseHeartbeat(configured, false, ttlMs).heartbeatMs, ttlMs, 1) <==> ttlMs > 2000
    ensures ttlMs > 1000
  {
    hide Survives;
    DefaultToleratesOneMiss(ttlMs, configured);
    CadenceIsExact(ChooseHeartbeat(configured, false, ttlMs).heartbeatMs, ttlMs, 1);
  }

  /** A configured cadence that the constructor accepts survives the losses for which one heartbeat more fits, and no
      others. */
  lemma ConfiguredCadenceIsExact(configured: nat, ttlMs: nat, tolerated: nat)
    requires ChooseHeartbeat(configured, true, ttlMs).Chosen?
    ensures Survives(ChooseHeartbeat(configured, true, ttlMs).heartbeatMs, ttlMs, tolerated) <==>
            (tolerated + 1) * configured < ttlMs
  {
    hide Survives;
    ConfiguredIsUsed(configured, ttlMs);
    CadenceIsExact(configured, ttlMs, tolerated);
  }
}
