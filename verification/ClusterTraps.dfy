/** How soon the exclusion of workers can be lost: a claim that takes long to reach the table, and renewals that are
    lost once more than the cadence leaves room for. */
module ClusterTraps {
  import opened Options
  import opened LockTable
  import opened Sessions
  import opened Workers
  import opened Registry
  import opened RegistryTraps
  import opened WorkerEffects
  import opened Cluster
  import opened Cadence

  // ----- One worker claims -----

  function ClaimOf(cfg: Settings, s: StreamId, token: Token, issued: int): Call {
    Call(Acquire(s, cfg.workerId, token, issued + cfg.ttlMs), issued)
  }

  /** A new worker whose only claim is on its way. */
  function Claiming(cfg: Settings, e: Event, token: Token, issued: int): Worker {
    Init(cfg).(waiting := map[e.streamId := [e]], minted := {token},
               requests := [ClaimOf(cfg, e.streamId, token, issued)])
  }

  /** The claim has been granted, the answer is on its way. */
  function Granted(cfg: Settings, e: Event, token: Token, issued: int): Worker {
    Claiming(cfg, e, token, issued).(requests := [],
                                     replies := [Reply(ClaimOf(cfg, e.streamId, token, issued), Yes)])
  }

  /** The worker maps `s` under `token` and waits for the timer `id`; nothing is on its connection. */
  ghost predicate Owns(w: Worker, cfg: Settings, s: StreamId, token: Token, id: TimerId, due: int) {
    && w.cfg == cfg && w.requests == [] && w.replies == [] && w.sessions.Keys == {s}
    && w.lockTokens == map[s := token] && w.heartbeats == map[s := id]
    && w.timers == map[id := Timer(s, token, due)] && w.nextTimer == id + 1
  }

  lemma SendsClaim(sys: System, who: WorkerId, cfg: Settings, e: Event, token: Token)
    requires who in sys.workers && sys.workers[who] == Init(cfg) && cfg.maxSessions > 0
    ensures var step := Act(who, Route(e, token, sys.now, sys.now), sys.now);
            && CanStep(sys, step)
            && Next(sys, step) == sys.(workers := sys.workers[who := Claiming(cfg, e, token, sys.now)])
  {
    RouteClaims(Init(cfg), e, token, sys.now, sys.now);
    assert DoRoute(Init(cfg), e, token, sys.now, sys.now) == Claiming(cfg, e, token, sys.now) by {
      var c := ClaimOf(cfg, e.streamId, token, sys.now);
      assert [] + [c] == [c] && {} + {token} == {token};
      hide DoRoute;
    }
    hide DoRoute, Claiming;
  }

  lemma ClaimIsGranted(sys: System, who: WorkerId, cfg: Settings, e: Event, token: Token, issued: int)
    requires cfg.workerId == who && who in sys.workers && sys.workers[who] == Claiming(cfg, e, token, issued)
    requires MayClaim(sys.table, e.streamId, who, sys.now)
    ensures var step := Execute(who, NoFault);
            && CanStep(sys, step)
            && Next(sys, step) ==
               sys.(workers := sys.workers[who := Granted(cfg, e, token, issued)],
                    table := sys.table[e.streamId := Row(who, token, issued + cfg.ttlMs)],
                    lease := sys.lease[(who, e.streamId) := issued])
  {
    ServeShape(sys.workers[who], Yes);
    var c := ClaimOf(cfg, e.streamId, token, issued);
    assert [c][1..] == [] && [] + [Reply(c, Yes)] == [Reply(c, Yes)];
    hide Do;
  }

  /** The worker that maps the stream, once the granted claim is handled at `now`. */
  function Owner(cfg: Settings, e: Event, token: Token, issued: int, now: int): Worker {
    DoDeliver(Granted(cfg, e, token, issued), now)
  }

  lemma OwnerOwns(cfg: Settings, e: Event, token: Token, issued: int, now: int)
    ensures Owns(Owner(cfg, e, token, issued, now), cfg, e.streamId, token, 0, now + cfg.heartbeatMs)
  {
    var granted := Granted(cfg, e, token, issued);
    var c := ClaimOf(cfg, e.streamId, token, issued);
    assert granted.replies[1..] == [];
    assert Owner(cfg, e, token, issued, now) == Handle(granted.(replies := []), Reply(c, Yes), now);
    hide Handle, Owner, DoDeliver, Apply;
    GrantMaps(granted.(replies := []), Reply(c, Yes), e, now);
  }

  lemma GrantIsMapped(sys: System, who: WorkerId, cfg: Settings, e: Event, token: Token, issued: int)
    requires who in sys.workers && sys.workers[who] == Granted(cfg, e, token, issued)
    ensures var step := Act(who, Deliver(sys.now), sys.now);
            && CanStep(sys, step)
            && Next(sys, step) == sys.(workers := sys.workers[who := Owner(cfg, e, token, issued, sys.now)])
  {
    hide DoDeliver;
  }

  // ----- When calls take time -----

  /** When the last claim or renewal of `s` by `who` that succeeded in the run reached the table. */
  function ReachedAt(sys: System, steps: seq<Step>, who: WorkerId, s: StreamId): Option<int>
    requires CanRunSystem(sys, steps)
    decreases |steps|
  {
    if steps == [] then None
    else
      var later := ReachedAt(Next(sys, steps[0]), steps[1..], who, s);
      if later.Some? || !Renews(sys, steps[0], who, s) then later else Some(sys.now)
  }

  /** The step is the execution of a claim or a renewal of `s` by `who` that takes effect. */
  predicate Renews(sys: System, step: Step, who: WorkerId, s: StreamId)
    requires CanStep(sys, step)
  {
    step.Execute? && step.who == who && !step.fault.LostRequest? &&
    var st := sys.workers[who].requests[0].statement;
    (st.Acquire? || st.Renew?) && st.stream == s && st.worker == who && Succeeds(sys.table, st, sys.now)
  }

  /** Every call that reaches the table does so at most `delay` after it was sent. */
  predicate WithinDelay(sys: System, steps: seq<Step>, delay: int)
    requires CanRunSystem(sys, steps)
    decreases |steps|
  {
    steps == [] ||
    ((steps[0].Execute? ==> sys.now - sys.workers[steps[0].who].requests[0].issuedAt <= delay) &&
     WithinDelay(Next(sys, steps[0]), steps[1..], delay))
  }

  lemma StepKeepsLeases(sys: System, step: Step, who: WorkerId, s: StreamId)
    requires SystemOk(sys) && CanStep(sys, step)
    ensures var sys' := Next(sys, step);
            if Renews(sys, step, who, s)
            then (who, s) in sys'.lease && sys'.lease[(who, s)] == sys.workers[who].requests[0].issuedAt
            else ((who, s) in sys'.lease <==> (who, s) in sys.lease) &&
                 ((who, s) in sys.lease ==> sys'.lease[(who, s)] == sys.lease[(who, s)])
  {
    hide Do, CanDo, Inv, CallsOk, Leased, LockTable.Execute, Succeeds, At;
    if step.Execute? {
      assert WorkerOk(sys, step.who, sys.workers[step.who]);
      HeadIsOurs(sys.workers[step.who]);
    }
  }

  /** A lease is as recent as the last success that reached the table, up to the delay. */
  lemma {:induction false} LeaseIsRecent(sys: System, steps: seq<Step>, who: WorkerId, s: StreamId, delay: int)
    requires SystemOk(sys) && CanRunSystem(sys, steps) && WithinDelay(sys, steps, delay)
    ensures var end, at := RunSystem(sys, steps), ReachedAt(sys, steps, who, s);
            if at.Some? then (who, s) in end.lease && at.value - delay <= end.lease[(who, s)]
            else ((who, s) in end.lease <==> (who, s) in sys.lease) &&
                 ((who, s) in sys.lease ==> end.lease[(who, s)] == sys.lease[(who, s)])
    decreases |steps|
  {
    hide SystemOk, CanStep, Next, Renews;
    if steps != [] {
      var next, rest := Next(sys, steps[0]), steps[1..];
      StepKeepsOk(sys, steps[0]);
      StepKeepsLeases(sys, steps[0], who, s);
      LeaseIsRecent(next, rest, who, s, delay);
      if Renews(sys, steps[0], who, s) {
        RenewalIsPrompt(sys, steps, who, s, delay);
      }
    }
  }

  lemma RenewalIsPrompt(sys: System, steps: seq<Step>, who: WorkerId, s: StreamId, delay: int)
    requires CanRunSystem(sys, steps) && WithinDelay(sys, steps, delay) && steps != [] && Renews(sys, steps[0], who, s)
    ensures who in sys.workers && sys.workers[who].requests != []
    ensures sys.now - sys.workers[who].requests[0].issuedAt <= delay
  {
    hide Next;
  }

  /** The last success of `who` for `s` reached the table less than ttl minus skew minus `delay` ago. */
  predicate Arrived(sys: System, steps: seq<Step>, who: WorkerId, s: StreamId, delay: int)
    requires CanRunSystem(sys, steps) && who in RunSystem(sys, steps).workers
  {
    var end := RunSystem(sys, steps);
    var at := ReachedAt(sys, steps, who, s);
    at.Some? && end.now < at.value + end.workers[who].cfg.ttlMs - end.skew - delay
  }

  /** Exclusion by the time of arrival: when no call takes longer than `delay` to reach the table, two workers that
      both map a stream cannot both have had a claim or renewal of it arrive less than ttl minus skew minus `delay`
      ago. */
  lemma ExclusionByArrival(sys: System, steps: seq<Step>, a: WorkerId, b: WorkerId, s: StreamId, delay: int)
    requires Initial(sys) && CanRunSystem(sys, steps) && WithinDelay(sys, steps, delay)
    requires var end := RunSystem(sys, steps);
             && a in end.workers && b in end.workers && a != b
             && s in end.workers[a].sessions && s in end.workers[b].sessions
    ensures !Arrived(sys, steps, a, s, delay) || !Arrived(sys, steps, b, s, delay)
  {
    InitialIsOk(sys);
    LeaseIsRecent(sys, steps, a, s, delay);
    LeaseIsRecent(sys, steps, b, s, delay);
    Exclusion(sys, steps, a, b, s);
    hide RunSystem, CanRunSystem, ReachedAt, WithinDelay, Initial;
  }

  // ----- Building runs from their ends -----

  lemma Prepend(sys: System, step: Step, rest: seq<Step>)
    requires CanStep(sys, step) && CanRunSystem(Next(sys, step), rest)
    ensures CanRunSystem(sys, [step] + rest) && RunSystem(sys, [step] + rest) == RunSystem(Next(sys, step), rest)
    ensures forall who, s :: ReachedAt(sys, [step] + rest, who, s) ==
              var later := ReachedAt(Next(sys, step), rest, who, s);
              if later.Some? || !Renews(sys, step, who, s) then later else Some(sys.now)
    ensures forall d: int :: WithinDelay(sys, [step] + rest, d) <==>
              (step.Execute? ==> sys.now - sys.workers[step.who].requests[0].issuedAt <= d) &&
              WithinDelay(Next(sys, step), rest, d)
  {
    hide CanStep, Next, Renews;
    assert ([step] + rest)[1..] == rest;
  }

  /** A step other than an execution brings nothing to the table. */
  lemma PrependQuiet(sys: System, step: Step, rest: seq<Step>)
    requires !step.Execute? && CanStep(sys, step) && CanRunSystem(Next(sys, step), rest)
    ensures CanRunSystem(sys, [step] + rest) && RunSystem(sys, [step] + rest) == RunSystem(Next(sys, step), rest)
    ensures forall who, s :: ReachedAt(sys, [step] + rest, who, s) == ReachedAt(Next(sys, step), rest, who, s)
    ensures forall d: int :: WithinDelay(sys, [step] + rest, d) <==> WithinDelay(Next(sys, step), rest, d)
  {
    hide CanStep, Next;
    Prepend(sys, step, rest);
  }

  lemma PrependPunctual(sys: System, misses: Misses, step: Step, rest: seq<Step>, tolerated: nat)
    requires CanStep(sys, step) && CanRunSystem(Next(sys, step), rest)
    requires OnTime(sys, step) && AtMost(MissesNext(sys, misses, step), tolerated)
    requires Punctual(Next(sys, step), MissesNext(sys, misses, step), rest, tolerated)
    ensures CanRunSystem(sys, [step] + rest) && RunSystem(sys, [step] + rest) == RunSystem(Next(sys, step), rest)
    ensures Punctual(sys, misses, [step] + rest, tolerated)
  {
    hide CanStep, Next, OnTime, MissesNext, AtMost;
    assert ([step] + rest)[1..] == rest;
  }

  function Asked(sys: System, who: WorkerId, cfg: Settings, e: Event, token: Token): System {
    sys.(workers := sys.workers[who := Claiming(cfg, e, token, sys.now)])
  }

  function AfterGrant(sys: System, who: WorkerId, cfg: Settings, e: Event, token: Token, issued: int): System {
    sys.(workers := sys.workers[who := Owner(cfg, e, token, issued, sys.now)],
         table := sys.table[e.streamId := Row(who, token, issued + cfg.ttlMs)],
         lease := sys.lease[(who, e.streamId) := issued])
  }

  function LandSteps(who: WorkerId, now: int, rest: seq<Step>): seq<Step> {
    [Execute(who, NoFault)] + ([Act(who, Deliver(now), now)] + rest)
  }

  /** A claim on its way that is going to be granted. */
  predicate Lands(sys: System, who: WorkerId, cfg: Settings, e: Event, token: Token, issued: int) {
    && cfg.workerId == who && who in sys.workers && sys.workers[who] == Claiming(cfg, e, token, issued)
    && MayClaim(sys.table, e.streamId, who, sys.now)
  }

  lemma LandShape(sys: System, who: WorkerId, cfg: Settings, e: Event, token: Token, issued: int) returns (s1: System)
    requires Lands(sys, who, cfg, e, token, issued)
    ensures var land, handle := Execute(who, NoFault), Act(who, Deliver(sys.now), sys.now);
            && CanStep(sys, land) && s1 == Next(sys, land) && s1.now == sys.now
            && CanStep(s1, handle) && Next(s1, handle) == AfterGrant(sys, who, cfg, e, token, issued)
  {
    hide CanStep, Next, Claiming, Granted, Owner, MayClaim;
    ClaimIsGranted(sys, who, cfg, e, token, issued);
    s1 := Next(sys, Execute(who, NoFault));
    GrantIsMapped(s1, who, cfg, e, token, issued);
  }

  lemma LandBrings(sys: System, who: WorkerId, cfg: Settings, e: Event, token: Token, issued: int)
    requires Lands(sys, who, cfg, e, token, issued)
    ensures CanStep(sys, Execute(who, NoFault)) && sys.workers[who].requests[0].issuedAt == issued
    ensures forall o, r :: Renews(sys, Execute(who, NoFault), o, r) <==> (o, r) == (who, e.streamId)
    ensures forall misses: Misses ::
              MissesNext(sys, misses, Execute(who, NoFault)) == misses[(who, e.streamId) := 0]
  {
  }

  /** A claim on its way lands now and is handled at once, and then `rest` runs. */
  lemma LandThen(sys: System, who: WorkerId, cfg: Settings, e: Event, token: Token, issued: int, rest: seq<Step>)
    requires Lands(sys, who, cfg, e, token, issued)
    requires CanRunSystem(AfterGrant(sys, who, cfg, e, token, issued), rest)
    ensures var steps, after := LandSteps(who, sys.now, rest), AfterGrant(sys, who, cfg, e, token, issued);
            && CanRunSystem(sys, steps) && RunSystem(sys, steps) == RunSystem(after, rest)
            && (forall o, r ::
                  ReachedAt(sys, steps, o, r) ==
                  if (o, r) == (who, e.streamId) && ReachedAt(after, rest, o, r).None? then Some(sys.now)
                  else ReachedAt(after, rest, o, r))
            && (forall d: int :: WithinDelay(sys, steps, d) <==> sys.now - issued <= d && WithinDelay(after, rest, d))
  {
    var land, handle := Execute(who, NoFault), Act(who, Deliver(sys.now), sys.now);
    var s1 := LandShape(sys, who, cfg, e, token, issued);
    LandBrings(sys, who, cfg, e, token, issued);
    hide Lands, AfterGrant, CanStep, Next, Renews;
    PrependQuiet(s1, handle, rest);
    Prepend(sys, land, [handle] + rest);
  }

  lemma LandStepsAre(who: WorkerId, now: int, rest: seq<Step>)
    ensures LandSteps(who, now, rest) == [Execute(who, NoFault)] + ([Act(who, Deliver(now), now)] + rest)
  {
  }

  lemma NoMiss(misses: Misses, k: (WorkerId, StreamId), tolerated: nat)
    requires AtMost(misses, tolerated)
    ensures AtMost(misses[k := 0], tolerated)
  {
  }

  lemma OnlyWaitsAreLate(sys: System, step: Step)
    requires !step.Wait?
    ensures OnTime(sys, step)
  {
  }

  lemma LandPunctually(sys: System, misses: Misses, who: WorkerId, cfg: Settings, e: Event, token: Token, issued: int,
                       rest: seq<Step>, tolerated: nat)
    requires Lands(sys, who, cfg, e, token, issued) && AtMost(misses, tolerated)
    requires var after := AfterGrant(sys, who, cfg, e, token, issued);
             CanRunSystem(after, rest) && Punctual(after, misses[(who, e.streamId) := 0], rest, tolerated)
    ensures CanRunSystem(sys, LandSteps(who, sys.now, rest))
    ensures Punctual(sys, misses, LandSteps(who, sys.now, rest), tolerated)
  {
    hide *;
    var land, handle := Execute(who, NoFault), Act(who, Deliver(sys.now), sys.now);
    var s1 := LandShape(sys, who, cfg, e, token, issued);
    LandBrings(sys, who, cfg, e, token, issued);
    var after := misses[(who, e.streamId) := 0];
    NoMiss(misses, (who, e.streamId), tolerated);
    LandStepsAre(who, sys.now, rest);
    OnlyWaitsAreLate(sys, land);
    OnlyWaitsAreLate(s1, handle);
    NoMissHere(s1, after, handle);
    PrependPunctual(s1, after, handle, rest, tolerated);
    PrependPunctual(sys, misses, land, [handle] + rest, tolerated);
  }

  /** A worker asks for a stream, and its claim lands at once. */
  function TakeOver(who: WorkerId, e: Event, token: Token, now: int): seq<Step> {
    [Act(who, Route(e, token, now, now), now)] + LandSteps(who, now, [])
  }

  predicate CanTakeOver(sys: System, who: WorkerId, cfg: Settings, e: Event) {
    && cfg.workerId == who && cfg.maxSessions > 0 && who in sys.workers && sys.workers[who] == Init(cfg)
    && MayClaim(sys.table, e.streamId, who, sys.now)
  }

  lemma TakesOver(sys: System, who: WorkerId, cfg: Settings, e: Event, token: Token)
    requires CanTakeOver(sys, who, cfg, e)
    ensures var steps := TakeOver(who, e, token, sys.now);
            && CanRunSystem(sys, steps)
            && (forall o, r ::
                  ReachedAt(sys, steps, o, r) == if (o, r) == (who, e.streamId) then Some(sys.now) else None)
            && (forall d: int | d >= 0 :: WithinDelay(sys, steps, d))
            && var end := RunSystem(sys, steps);
               && end.now == sys.now && end.skew == sys.skew && end.workers.Keys == sys.workers.Keys
               && e.streamId in end.workers[who].sessions && end.workers[who].cfg == cfg
               && forall o | o in sys.workers && o != who :: end.workers[o] == sys.workers[o]
  {
    hide *;
    var ask := Act(who, Route(e, token, sys.now, sys.now), sys.now);
    TakeOverShape(sys, who, cfg, e, token);
    LandAlone(Asked(sys, who, cfg, e, token), who, cfg, e, token, sys.now);
    PrependQuiet(sys, ask, LandSteps(who, sys.now, []));
  }

  lemma TakeOverShape(sys: System, who: WorkerId, cfg: Settings, e: Event, token: Token)
    requires CanTakeOver(sys, who, cfg, e)
    ensures var ask, s1 := Act(who, Route(e, token, sys.now, sys.now), sys.now), Asked(sys, who, cfg, e, token);
            && CanStep(sys, ask) && Next(sys, ask) == s1 && s1.now == sys.now
            && Lands(s1, who, cfg, e, token, sys.now)
            && TakeOver(who, e, token, sys.now) == [ask] + LandSteps(who, s1.now, [])
            && var s2 := AfterGrant(s1, who, cfg, e, token, sys.now);
               && s2.now == sys.now && s2.skew == sys.skew && s2.workers.Keys == sys.workers.Keys
               && e.streamId in s2.workers[who].sessions && s2.workers[who].cfg == cfg
               && forall o | o in sys.workers && o != who :: s2.workers[o] == sys.workers[o]
  {
    SendsClaim(sys, who, cfg, e, token);
    OwnerOwns(cfg, e, token, sys.now, sys.now);
    hide CanStep, Next, Claiming, Owner, LandSteps;
  }

  lemma LandAlone(sys: System, who: WorkerId, cfg: Settings, e: Event, token: Token, issued: int)
    requires Lands(sys, who, cfg, e, token, issued)
    ensures var steps := LandSteps(who, sys.now, []);
            && CanRunSystem(sys, steps) && RunSystem(sys, steps) == AfterGrant(sys, who, cfg, e, token, issued)
            && (forall o, r ::
                  ReachedAt(sys, steps, o, r) == if (o, r) == (who, e.streamId) then Some(sys.now) else None)
            && (forall d: int | d >= sys.now - issued :: WithinDelay(sys, steps, d))
  {
    hide Lands, AfterGrant, CanStep, Next, LandSteps;
    LandThen(sys, who, cfg, e, token, issued, []);
  }

  lemma TakesOverPunctually(sys: System, misses: Misses, who: WorkerId, cfg: Settings, e: Event, token: Token,
                            tolerated: nat)
    requires CanTakeOver(sys, who, cfg, e) && AtMost(misses, tolerated)
    ensures CanRunSystem(sys, TakeOver(who, e, token, sys.now))
    ensures Punctual(sys, misses, TakeOver(who, e, token, sys.now), tolerated)
  {
    var ask := Act(who, Route(e, token, sys.now, sys.now), sys.now);
    hide *;
    OnlyWaitsAreLate(sys, ask);
    TakeOverShape(sys, who, cfg, e, token);
    var s1 := Asked(sys, who, cfg, e, token);
    EmptyIsPunctual(AfterGrant(s1, who, cfg, e, token, sys.now), misses[(who, e.streamId) := 0], tolerated);
    LandPunctually(s1, misses, who, cfg, e, token, sys.now, [], tolerated);
    NoMissHere(sys, misses, ask);
    PrependPunctual(sys, misses, ask, LandSteps(who, sys.now, []), tolerated);
  }

  lemma EmptyIsPunctual(sys: System, misses: Misses, tolerated: nat)
    ensures CanRunSystem(sys, []) && RunSystem(sys, []) == sys && Punctual(sys, misses, [], tolerated)
  {
  }

  lemma NoMissHere(sys: System, misses: Misses, step: Step)
    requires CanStep(sys, step) && !step.Execute?
    ensures MissesNext(sys, misses, step) == misses
  {
  }

  // ----- A claim that takes long to arrive -----

  function CfgOf(who: WorkerId, heartbeatMs: int, ttlMs: int): Settings {
    Settings(who, 1, heartbeatMs, ttlMs, Config(1, 0))
  }

  /** Two new workers and an empty table, without skew. */
  function Two(heartbeatMs: int, ttlMs: int): System {
    System(map[], map["a" := Init(CfgOf("a", heartbeatMs, ttlMs)), "b" := Init(CfgOf("b", heartbeatMs, ttlMs))], 0,
        0, map[])
  }

  /** The claim's expiry counts from its sending: when it arrives `delay` later, it has that much less to live. So two
      workers map a stream although the successes of both arrived within the ttl, one of them just now; the bound of
      exclusion by arrival is met exactly, and no timer is late. */
  lemma DelayedClaimOverlaps(heartbeatMs: int, ttlMs: int, delay: nat, e: Event) returns (steps: seq<Step>)
    requires 0 < heartbeatMs < ttlMs <= delay + heartbeatMs && delay <= ttlMs
    ensures CanRunSystem(Two(heartbeatMs, ttlMs), steps) && WithinDelay(Two(heartbeatMs, ttlMs), steps, delay)
    ensures ReachedAt(Two(heartbeatMs, ttlMs), steps, "a", e.streamId) == Some(delay)
    ensures ReachedAt(Two(heartbeatMs, ttlMs), steps, "b", e.streamId) == Some(ttlMs)
    ensures var end := RunSystem(Two(heartbeatMs, ttlMs), steps);
            && end.now == ttlMs && end.workers.Keys == {"a", "b"}
            && e.streamId in end.workers["a"].sessions && e.streamId in end.workers["b"].sessions
            && forall id | id in end.workers["a"].timers :: end.workers["a"].timers[id].due >= end.now
  {
    var ca, cb := CfgOf("a", heartbeatMs, ttlMs), CfgOf("b", heartbeatMs, ttlMs);
    steps := LateClaimIsTakenOver(Two(heartbeatMs, ttlMs), "a", "b", ca, cb, e, delay);
    hide CanRunSystem, RunSystem, ReachedAt, WithinDelay;
  }

  /** Two new workers ask for a free stream: the first's claim arrives late, the second asks when it expires. */
  lemma LateClaimIsTakenOver(sys: System, a: WorkerId, b: WorkerId, ca: Settings, cb: Settings, e: Event, delay: nat)
    returns (steps: seq<Step>)
    requires a != b && ca.workerId == a && cb.workerId == b && ca.maxSessions > 0 && cb.maxSessions > 0
    requires a in sys.workers && sys.workers[a] == Init(ca) && b in sys.workers && sys.workers[b] == Init(cb)
    requires e.streamId !in sys.table && delay <= ca.ttlMs
    ensures CanRunSystem(sys, steps) && WithinDelay(sys, steps, delay)
    ensures ReachedAt(sys, steps, a, e.streamId) == Some(sys.now + delay)
    ensures ReachedAt(sys, steps, b, e.streamId) == Some(sys.now + ca.ttlMs)
    ensures var end := RunSystem(sys, steps);
            && end.now == sys.now + ca.ttlMs && end.workers.Keys == sys.workers.Keys
            && Owns(end.workers[a], ca, e.streamId, 1, 0, sys.now + delay + ca.heartbeatMs)
            && e.streamId in end.workers[b].sessions
  {
    hide *;
    var s3 := ClaimedLate(sys, a, ca, e, 1, delay);
    ClaimedLateShape(sys, a, ca, e, 1, delay);
    FreeForAll(sys, e.streamId, a, sys.now + delay);
    var rest := WaitsAndTakesOver(s3, b, cb, e, ca.ttlMs - delay);
    steps := ClaimsLate(sys, a, ca, e, 1, delay, rest);
  }

  /** A new worker waits for the row to expire, and takes the stream. */
  lemma WaitsAndTakesOver(sys: System, who: WorkerId, cfg: Settings, e: Event, ms: nat) returns (steps: seq<Step>)
    requires cfg.workerId == who && cfg.maxSessions > 0 && who in sys.workers && sys.workers[who] == Init(cfg)
    requires e.streamId in sys.table && sys.table[e.streamId].expires <= sys.now + ms
    ensures CanRunSystem(sys, steps) && forall d: int | d >= 0 :: WithinDelay(sys, steps, d)
    ensures forall o, r ::
              ReachedAt(sys, steps, o, r) == if (o, r) == (who, e.streamId) then Some(sys.now + ms) else None
    ensures var end := RunSystem(sys, steps);
            && end.now == sys.now + ms && end.workers.Keys == sys.workers.Keys &&
                e.streamId in end.workers[who].sessions
            && forall o | o in sys.workers && o != who :: end.workers[o] == sys.workers[o]
  {
    hide *;
    var late := sys.(now := sys.now + ms);
    Waits(sys, ms);
    MayTakeOver(late, who, cfg, e);
    TakesOver(late, who, cfg, e, 2);
    PrependQuiet(sys, Wait(ms), TakeOver(who, e, 2, late.now));
    steps := [Wait(ms)] + TakeOver(who, e, 2, late.now);
  }

  lemma Waits(sys: System, ms: nat)
    ensures CanStep(sys, Wait(ms)) && Next(sys, Wait(ms)) == sys.(now := sys.now + ms)
  {
  }

  lemma FreeForAll(sys: System, s: StreamId, who: WorkerId, now: int)
    requires s !in sys.table
    ensures MayClaim(sys.table, s, who, now)
  {
  }

  lemma MayTakeOver(sys: System, who: WorkerId, cfg: Settings, e: Event)
    requires cfg.workerId == who && cfg.maxSessions > 0 && who in sys.workers && sys.workers[who] == Init(cfg)
    requires e.streamId in sys.table && sys.table[e.streamId].expires <= sys.now
    ensures CanTakeOver(sys, who, cfg, e)
  {
  }

  lemma ClaimedLateShape(sys: System, who: WorkerId, cfg: Settings, e: Event, token: Token, delay: nat)
    ensures var s' := ClaimedLate(sys, who, cfg, e, token, delay);
            && s'.now == sys.now + delay && s'.workers.Keys == sys.workers.Keys + {who}
            && Owns(s'.workers[who], cfg, e.streamId, token, 0, s'.now + cfg.heartbeatMs)
            && (forall o | o in sys.workers && o != who :: s'.workers[o] == sys.workers[o])
            && s'.table == sys.table[e.streamId := Row(who, token, sys.now + cfg.ttlMs)]
  {
    OwnerOwns(cfg, e, token, sys.now, sys.now + delay);
    hide Owner, Owns;
  }

  function ClaimedLate(sys: System, who: WorkerId, cfg: Settings, e: Event, token: Token, delay: nat): System {
    AfterGrant(Asked(sys, who, cfg, e, token).(now := sys.now + delay), who, cfg, e, token, sys.now)
  }

  lemma AskedWaits(sys: System, who: WorkerId, cfg: Settings, e: Event, token: Token, delay: nat)
    requires cfg.workerId == who && cfg.maxSessions > 0 && who in sys.workers && sys.workers[who] == Init(cfg)
    requires MayClaim(sys.table, e.streamId, who, sys.now + delay)
    ensures var ask := Act(who, Route(e, token, sys.now, sys.now), sys.now);
            var s1 := Asked(sys, who, cfg, e, token);
            var s2 := s1.(now := sys.now + delay);
            && CanStep(sys, ask) && Next(sys, ask) == s1
            && CanStep(s1, Wait(delay)) && Next(s1, Wait(delay)) == s2
            && Lands(s2, who, cfg, e, token, sys.now)
  {
    hide CanStep, Next, Claiming;
    SendsClaim(sys, who, cfg, e, token);
    Waits(Asked(sys, who, cfg, e, token), delay);
  }

  lemma ClaimedLateIs(sys: System, who: WorkerId, cfg: Settings, e: Event, token: Token, delay: nat)
    ensures ClaimedLate(sys, who, cfg, e, token, delay)
            == AfterGrant(Asked(sys, who, cfg, e, token).(now := sys.now + delay), who, cfg, e, token, sys.now)
  {
    hide AfterGrant, Asked;
  }

  lemma ClaimsLate(sys: System, who: WorkerId, cfg: Settings, e: Event, token: Token, delay: nat, rest: seq<Step>)
    returns (steps: seq<Step>)
    requires cfg.workerId == who && cfg.maxSessions > 0 && who in sys.workers && sys.workers[who] == Init(cfg)
    requires MayClaim(sys.table, e.streamId, who, sys.now + delay)
    requires CanRunSystem(ClaimedLate(sys, who, cfg, e, token, delay), rest)
    ensures var after := ClaimedLate(sys, who, cfg, e, token, delay);
            && CanRunSystem(sys, steps) && RunSystem(sys, steps) == RunSystem(after, rest)
            && (forall o, r ::
                  ReachedAt(sys, steps, o, r) ==
                  if (o, r) == (who, e.streamId) && ReachedAt(after, rest, o, r).None? then Some(sys.now + delay)
                  else ReachedAt(after, rest, o, r))
            && (forall d: int :: WithinDelay(sys, steps, d) <==> delay <= d && WithinDelay(after, rest, d))
  {
    var ask := Act(who, Route(e, token, sys.now, sys.now), sys.now);
    var s1 := Asked(sys, who, cfg, e, token);
    var s2 := s1.(now := sys.now + delay);
    hide *;
    ClaimedLateIs(sys, who, cfg, e, token, delay);
    AskedWaits(sys, who, cfg, e, token, delay);
    LandThen(s2, who, cfg, e, token, sys.now, rest);
    var land := LandSteps(who, s2.now, rest);
    PrependQuiet(s1, Wait(delay), land);
    PrependQuiet(sys, ask, [Wait(delay)] + land);
    steps := [ask] + ([Wait(delay)] + land);
  }
}