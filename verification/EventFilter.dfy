/** The worker's event filter over a store that notifies it at once, as the in-process store does. Local changes show
    immediately; the store's own writes wait for the install and then run in the order of the calls. */
module EventFilters {
  import opened Options
  import opened Json
  import opened Filters

  /** `Installing` holds the snapshot taken when the install began. */
  datatype Stage = Idle | Installing(snapshot: Configs) | Started

  /** `pending` holds the store operations that wait on the start promise, or for their turn after it. */
  datatype State = State(configs: Configs, store: Configs, stage: Stage, pending: seq<Change>)

  /** Steps between two awaits: a call of `setConfig` or `clearConfig`, a call of `start`, the install returning or
      throwing, and the next deferred store operation. */
  datatype Step = Call(change: Change) | Begin | Installed | InstallFails | RunNext

  function Fresh(configs: Configs, store: Configs): State {
    State(configs, store, Idle, [])
  }

  predicate CanDo(s: State, step: Step) {
    match step
    case Call(_) => true
    case Begin => true
    case Installed => s.stage.Installing?
    case InstallFails => s.stage.Installing?
    case RunNext => s.stage.Started? && s.pending != []
  }

  function EnsureStarted(s: State): State {
    if s.stage.Idle? then s.(stage := Installing(s.store)) else s
  }

  function Do(s: State, step: Step): State
    requires CanDo(s, step)
  {
    match step
    case Call(ch) => EnsureStarted(s.(configs := Put(s.configs, ch), pending := s.pending + [ch]))
    case Begin => EnsureStarted(s)
    case Installed => s.(configs := s.configs + s.stage.snapshot, stage := Started)
    case InstallFails => s.(stage := Idle, pending := [])
    case RunNext =>
      var ch := s.pending[0];
      s.(store := Put(s.store, ch), configs := Put(s.configs, ch), pending := s.pending[1..])
  }

  predicate CanRun(s: State, steps: seq<Step>)
    decreases |steps|
  {
    steps == [] || (CanDo(s, steps[0]) && CanRun(Do(s, steps[0]), steps[1..]))
  }

  function Run(s: State, steps: seq<Step>): State
    requires CanRun(s, steps)
    decreases |steps|
  {
    if steps == [] then s else Run(Do(s, steps[0]), steps[1..])
  }

  // ----- What has become of the calls so far -----

  /** `lost` were rejected with a failed install, `ran` have reached the store. */
  datatype Past = Past(lost: seq<Change>, ran: seq<Change>)

  function Note(p: Past, s: State, step: Step): Past
    requires CanDo(s, step)
  {
    match step
    case InstallFails => p.(lost := p.lost + s.pending)
    case RunNext => p.(ran := p.ran + [s.pending[0]])
    case _ => p
  }

  function History(p: Past, s: State, steps: seq<Step>): Past
    requires CanRun(s, steps)
    decreases |steps|
  {
    if steps == [] then p else History(Note(p, s, steps[0]), Do(s, steps[0]), steps[1..])
  }

  function CallOf(step: Step): seq<Change> {
    if step.Call? then [step.change] else []
  }

  function Calls(steps: seq<Step>): seq<Change> {
    if steps == [] then []
    else CallOf(steps[0]) + Calls(steps[1..])
  }

  /** The filter map as it is merged with the snapshot, once the store operations in `ran` have been applied to it. */
  function Merged(c0: Configs, s0: Configs, p: Past): Configs {
    PutAll(PutAll(c0, p.lost) + s0, p.ran)
  }

  /** Before the install returns the filter has exactly what its calls made of it; from then on every stream without
      a waiting operation has the value of the merged map. */
  ghost predicate Agrees(s: State, p: Past, c0: Configs, s0: Configs) {
    s.store == PutAll(s0, p.ran) &&
    (s.stage.Idle? ==> s.pending == []) &&
    (s.stage.Installing? ==> s.stage.snapshot == s0) &&
    (!s.stage.Started? ==> p.ran == [] && s.configs == PutAll(c0, p.lost + s.pending)) &&
    (s.stage.Started? ==> SettledAgree(s, p, c0, s0))
  }

  ghost predicate SettledAgree(s: State, p: Past, c0: Configs, s0: Configs) {
    forall k: StreamId | !Touches(s.pending, k) :: Get(s.configs, k) == Get(Merged(c0, s0, p), k)
  }

  lemma TouchesSnoc(chs: seq<Change>, ch: Change, k: StreamId)
    ensures Touches(chs + [ch], k) <==> Touches(chs, k) || ch.streamId == k
  {
    if Touches(chs, k) {
      var i :| 0 <= i < |chs| && chs[i].streamId == k;
      assert (chs + [ch])[i].streamId == k;
    }
    if ch.streamId == k {
      assert (chs + [ch])[|chs|].streamId == k;
    }
  }

  lemma TouchesTail(chs: seq<Change>, k: StreamId)
    requires chs != []
    ensures Touches(chs, k) <==> chs[0].streamId == k || Touches(chs[1..], k)
  {
    if Touches(chs[1..], k) {
      var i :| 0 <= i < |chs| - 1 && chs[1..][i].streamId == k;
      assert chs[i + 1].streamId == k;
    }
    if i :| 0 <= i < |chs| && chs[i].streamId == k && i > 0 {
      assert chs[1..][i - 1].streamId == k;
    }
  }

  lemma CallKeepsAgreement(s: State, p: Past, c0: Configs, s0: Configs, ch: Change)
    requires Agrees(s, p, c0, s0)
    ensures Agrees(Do(s, Call(ch)), p, c0, s0)
  {
    if s.stage.Started? {
      forall k: StreamId | !Touches(s.pending + [ch], k)
        ensures Get(Put(s.configs, ch), k) == Get(Merged(c0, s0, p), k)
      {
        TouchesSnoc(s.pending, ch, k);
      }
    } else {
      PutAllSnoc(c0, p.lost + s.pending, ch);
      assert p.lost + (s.pending + [ch]) == p.lost + s.pending + [ch];
    }
  }

  lemma InstallKeepsAgreement(s: State, p: Past, c0: Configs, s0: Configs)
    requires Agrees(s, p, c0, s0) && s.stage.Installing?
    ensures Agrees(Do(s, Installed), p, c0, s0)
  {
    forall k: StreamId | !Touches(s.pending, k)
      ensures Get(s.configs + s0, k) == Get(Merged(c0, s0, p), k)
    {
      PutAllConcat(c0, p.lost, s.pending);
      LastWriterWins(PutAll(c0, p.lost), s.pending, k);
    }
  }

  lemma RunNextKeepsAgreement(s: State, p: Past, c0: Configs, s0: Configs)
    requires Agrees(s, p, c0, s0) && CanDo(s, RunNext)
    ensures Agrees(Do(s, RunNext), Note(p, s, RunNext), c0, s0)
  {
    var ch := s.pending[0];
    var q := Note(p, s, RunNext);
    PutAllSnoc(s0, p.ran, ch);
    PutAllSnoc(PutAll(c0, p.lost) + s0, p.ran, ch);
    forall k: StreamId | !Touches(s.pending[1..], k)
      ensures Get(Put(s.configs, ch), k) == Get(Merged(c0, s0, q), k)
    {
      TouchesTail(s.pending, k);
    }
  }

  lemma StepKeepsAgreement(s: State, p: Past, c0: Configs, s0: Configs, step: Step)
    requires Agrees(s, p, c0, s0) && CanDo(s, step)
    ensures Agrees(Do(s, step), Note(p, s, step), c0, s0)
  {
    match step
    case Call(ch) => CallKeepsAgreement(s, p, c0, s0, ch);
    case Begin =>
    case Installed => InstallKeepsAgreement(s, p, c0, s0);
    case InstallFails => assert p.lost + s.pending + [] == p.lost + s.pending;
    case RunNext => RunNextKeepsAgreement(s, p, c0, s0);
  }

  lemma {:induction false} RunKeepsAgreement(s: State, p: Past, c0: Configs, s0: Configs, steps: seq<Step>)
    requires Agrees(s, p, c0, s0) && CanRun(s, steps)
    ensures Agrees(Run(s, steps), History(p, s, steps), c0, s0)
    decreases |steps|
  {
    if steps != [] {
      StepKeepsAgreement(s, p, c0, s0, steps[0]);
      RunKeepsAgreement(Do(s, steps[0]), Note(p, s, steps[0]), c0, s0, steps[1..]);
    }
  }

  lemma StepAccounts(s: State, p: Past, step: Step)
    requires CanDo(s, step) && (!s.stage.Started? ==> p.ran == [])
    ensures var t, q := Do(s, step), Note(p, s, step);
            q.lost + q.ran + t.pending == p.lost + p.ran + s.pending + CallOf(step) &&
            (!t.stage.Started? ==> q.ran == [])
  {
    if step.RunNext? {
      assert s.pending == [s.pending[0]] + s.pending[1..];
    }
  }

  /** No call is forgotten or reordered: those that ran, and those that wait, are the calls behind the lost ones. */
  lemma {:induction false} CallsAreAccounted(s: State, p: Past, steps: seq<Step>)
    requires CanRun(s, steps) && (!s.stage.Started? ==> p.ran == [])
    ensures var q := History(p, s, steps);
            q.lost + q.ran + Run(s, steps).pending == p.lost + p.ran + s.pending + Calls(steps)
    decreases |steps|
  {
    if steps != [] {
      var t, q := Do(s, steps[0]), Note(p, s, steps[0]);
      StepAccounts(s, p, steps[0]);
      hide Do, Note;
      CallsAreAccounted(t, q, steps[1..]);
      assert Calls(steps) == CallOf(steps[0]) + Calls(steps[1..]);
    }
  }

  /** Once started and with nothing waiting: every call was lost with a failed install or has run, in order; the store
      is what the ones that ran made of it, and the filter what they made of its own map merged with the snapshot. */
  lemma QuietFilter(c0: Configs, s0: Configs, steps: seq<Step>)
    requires CanRun(Fresh(c0, s0), steps)
    requires var s := Run(Fresh(c0, s0), steps); s.stage.Started? && s.pending == []
    ensures var s := Run(Fresh(c0, s0), steps);
            var p := History(Past([], []), Fresh(c0, s0), steps);
            p.lost + p.ran == Calls(steps) && s.store == PutAll(s0, p.ran) && s.configs == Merged(c0, s0, p)
  {
    var s := Run(Fresh(c0, s0), steps);
    var p := History(Past([], []), Fresh(c0, s0), steps);
    assert PutAll(c0, [] + []) == c0;
    RunKeepsAgreement(Fresh(c0, s0), Past([], []), c0, s0, steps);
    CallsAreAccounted(Fresh(c0, s0), Past([], []), steps);
    assert p.lost + p.ran + s.pending == p.lost + p.ran;
    assert [] + [] + [] + Calls(steps) == Calls(steps);
    SameMaps(s.configs, Merged(c0, s0, p));
  }

  predicate NeverFails(steps: seq<Step>) {
    forall i | 0 <= i < |steps| :: steps[i] != InstallFails
  }

  lemma {:induction false} NothingLost(s: State, p: Past, steps: seq<Step>)
    requires CanRun(s, steps) && NeverFails(steps)
    ensures History(p, s, steps).lost == p.lost
    decreases |steps|
  {
    if steps != [] {
      assert NeverFails(steps[1..]);
      NothingLost(Do(s, steps[0]), Note(p, s, steps[0]), steps[1..]);
    }
  }

  /** From an empty map and with an install that succeeds, the quiet filter equals its store, and both equal all calls
      applied in order to what the store held at first. */
  lemma QuietFilterEqualsStore(s0: Configs, steps: seq<Step>)
    requires CanRun(Fresh(map[], s0), steps) && NeverFails(steps)
    requires var s := Run(Fresh(map[], s0), steps); s.stage.Started? && s.pending == []
    ensures var s := Run(Fresh(map[], s0), steps); s.configs == s.store == PutAll(s0, Calls(steps))
  {
    QuietFilter(map[], s0, steps);
    NothingLost(Fresh(map[], s0), Past([], []), steps);
    var p := History(Past([], []), Fresh(map[], s0), steps);
    assert p.lost + p.ran == p.ran;
    assert PutAll(map[], []) + s0 == s0;
  }

  /** In general the quiet filter equals its store exactly when every stream it knew beforehand, or learnt from a call
      that was lost, is known to the store's first content or was touched by a call that ran. */
  lemma QuietFilterDiffersByStaleEntries(c0: Configs, s0: Configs, steps: seq<Step>)
    requires CanRun(Fresh(c0, s0), steps)
    requires var s := Run(Fresh(c0, s0), steps); s.stage.Started? && s.pending == []
    ensures var s := Run(Fresh(c0, s0), steps);
            var p := History(Past([], []), Fresh(c0, s0), steps);
            s.configs == s.store
            <==> forall k: StreamId | k in PutAll(c0, p.lost) :: k in s0 || Touches(p.ran, k)
  {
    QuietFilter(c0, s0, steps);
    var p := History(Past([], []), Fresh(c0, s0), steps);
    StaleEntries(PutAll(c0, p.lost), s0, p.ran);
  }

  lemma StaleEntries(c: Configs, s0: Configs, ran: seq<Change>)
    ensures PutAll(c + s0, ran) == PutAll(s0, ran) <==> forall k: StreamId | k in c :: k in s0 || Touches(ran, k)
  {
    forall k: StreamId
      ensures Get(PutAll(c + s0, ran), k) == Get(PutAll(s0, ran), k) <==> (k in c ==> k in s0 || Touches(ran, k))
    {
      LastWriterWins(c + s0, ran, k);
      LastWriterWins(s0, ran, k);
      if Touches(ran, k) {
        var i := LastTouch(ran, k);
        assert IsLast(ran, k, i);
      }
    }
    SameMaps(PutAll(c + s0, ran), PutAll(s0, ran));
    if PutAll(c + s0, ran) == PutAll(s0, ran) {
      forall k: StreamId | k in c ensures k in s0 || Touches(ran, k) {
        assert Get(PutAll(c + s0, ran), k) == Get(PutAll(s0, ran), k);
      }
    } else {
      var k: StreamId :| Get(PutAll(c + s0, ran), k) != Get(PutAll(s0, ran), k);
      assert k in c && k !in s0 && !Touches(ran, k);
    }
  }

  // ----- What shows after a call -----

  /** What holds of every filter between its steps: nothing waits before a first call, and the snapshot of a running
      install is the store, which only a started filter writes. */
  predicate Sound(s: State) {
    (s.stage.Idle? ==> s.pending == []) && (s.stage.Installing? ==> s.stage.snapshot == s.store)
  }

  lemma {:induction false} RunKeepsSound(s: State, steps: seq<Step>)
    requires Sound(s) && CanRun(s, steps)
    ensures Sound(Run(s, steps))
    decreases |steps|
  {
    if steps != [] {
      RunKeepsSound(Do(s, steps[0]), steps[1..]);
    }
  }

  predicate NoCallOn(steps: seq<Step>, k: StreamId) {
    forall i | 0 <= i < |steps| :: steps[i].Call? ==> steps[i].change.streamId != k
  }

  /** Every operation that waits for a stream leaves `v` there. */
  predicate AllLeave(pending: seq<Change>, k: StreamId, v: Option<Config>) {
    forall i | 0 <= i < |pending| && pending[i].streamId == k :: Leaves(pending[i]) == v
  }

  /** The install will not lay another value over the stream: it has returned, or the store has none. */
  predicate InstallSpares(s: State, k: StreamId, v: Option<Config>) {
    s.stage.Started? || k !in s.store || Some(s.store[k]) == v
  }

  /** The stream shows `v` and will go on showing it. */
  predicate Steady(s: State, k: StreamId, v: Option<Config>) {
    Get(s.configs, k) == v && InstallSpares(s, k, v) && AllLeave(s.pending, k, v)
  }

  /** In no continuation without another call on the stream does it ever show anything but `v`. */
  ghost predicate AlwaysShows(s: State, k: StreamId, v: Option<Config>) {
    forall steps | CanRun(s, steps) && NoCallOn(steps, k) :: Get(Run(s, steps).configs, k) == v
  }

  lemma StepKeepsSteady(s: State, k: StreamId, v: Option<Config>, step: Step)
    requires Sound(s) && Steady(s, k, v) && CanDo(s, step) && NoCallOn([step], k)
    ensures Sound(Do(s, step)) && Steady(Do(s, step), k, v)
  {
    assert [step][0] == step;
  }

  lemma {:induction false} SteadyShows(s: State, k: StreamId, v: Option<Config>, steps: seq<Step>)
    requires Sound(s) && Steady(s, k, v) && CanRun(s, steps) && NoCallOn(steps, k)
    ensures Get(Run(s, steps).configs, k) == v
    decreases |steps|
  {
    if steps != [] {
      assert NoCallOn(steps[1..], k);
      assert NoCallOn([steps[0]], k);
      StepKeepsSteady(s, k, v, steps[0]);
      SteadyShows(Do(s, steps[0]), k, v, steps[1..]);
    }
  }

  /** A started filter comes to run the operation at any place of its queue, whose value then shows. */
  lemma {:induction false} PendingShows(s: State, i: nat) returns (steps: seq<Step>)
    requires s.stage.Started? && i < |s.pending|
    ensures CanRun(s, steps) && forall j | 0 <= j < |steps| :: steps[j] == RunNext
    ensures Get(Run(s, steps).configs, s.pending[i].streamId) == Leaves(s.pending[i])
    decreases i
  {
    var t := Do(s, RunNext);
    var rest := [];
    if i > 0 {
      assert t.pending[i - 1] == s.pending[i];
      rest := PendingShows(t, i - 1);
    }
    steps := [RunNext] + rest;
    assert steps[1..] == rest;
  }

  /** Where another value is about to show, here is the run that shows it. */
  lemma UnsteadyShows(s: State, k: StreamId, v: Option<Config>) returns (steps: seq<Step>)
    requires Sound(s) && !s.stage.Idle? && !(InstallSpares(s, k, v) && AllLeave(s.pending, k, v))
    ensures CanRun(s, steps) && NoCallOn(steps, k) && Get(Run(s, steps).configs, k) != v
  {
    if s.stage.Started? {
      var i :| 0 <= i < |s.pending| && s.pending[i].streamId == k && Leaves(s.pending[i]) != v;
      steps := PendingShows(s, i);
    } else {
      var t := Do(s, Installed);
      var rest := [];
      if InstallSpares(s, k, v) {
        var i :| 0 <= i < |s.pending| && s.pending[i].streamId == k && Leaves(s.pending[i]) != v;
        rest := PendingShows(t, i);
      }
      steps := [Installed] + rest;
      assert steps[1..] == rest;
    }
  }

  /** After `setConfig` or `clearConfig` the filter shows the new value until the next call on that stream if and only
      if, at the time of the call, the install had returned or the store's value was absent or the same, and every
      operation still waiting for the stream leaves that value too. */
  lemma CallShowsUnlessOlderIsUnderWay(s: State, ch: Change)
    requires Sound(s)
    ensures AlwaysShows(Do(s, Call(ch)), ch.streamId, Leaves(ch)) <==>
            InstallSpares(s, ch.streamId, Leaves(ch)) && AllLeave(s.pending, ch.streamId, Leaves(ch))
  {
    var t, k, v := Do(s, Call(ch)), ch.streamId, Leaves(ch);
    assert Sound(t) && !t.stage.Idle?;
    AllLeaveSnoc(s.pending, ch);
    if InstallSpares(s, k, v) && AllLeave(s.pending, k, v) {
      forall steps | CanRun(t, steps) && NoCallOn(steps, k) ensures Get(Run(t, steps).configs, k) == v {
        SteadyShows(t, k, v, steps);
      }
    } else {
      var steps := UnsteadyShows(t, k, v);
    }
  }

  lemma AllLeaveSnoc(pending: seq<Change>, ch: Change)
    ensures AllLeave(pending + [ch], ch.streamId, Leaves(ch)) <==> AllLeave(pending, ch.streamId, Leaves(ch))
  {
    if AllLeave(pending + [ch], ch.streamId, Leaves(ch)) {
      forall i | 0 <= i < |pending| && pending[i].streamId == ch.streamId ensures Leaves(pending[i]) == Leaves(ch) {
        assert (pending + [ch])[i] == pending[i];
      }
    }
  }

  /** So in every run of a new filter. */
  lemma CallShowsInEveryRun(c0: Configs, s0: Configs, steps: seq<Step>, ch: Change)
    requires CanRun(Fresh(c0, s0), steps)
    ensures var s := Run(Fresh(c0, s0), steps);
            AlwaysShows(Do(s, Call(ch)), ch.streamId, Leaves(ch)) <==>
            InstallSpares(s, ch.streamId, Leaves(ch)) && AllLeave(s.pending, ch.streamId, Leaves(ch))
  {
    RunKeepsSound(Fresh(c0, s0), steps);
    CallShowsUnlessOlderIsUnderWay(Run(Fresh(c0, s0), steps), ch);
  }

  predicate Shows(s: State, steps: seq<Step>, k: StreamId, config: Config) {
    CanRun(s, steps) && Get(Run(s, steps).configs, k) == Some(config)
  }

  /** In between, a stream can fall back to older values: two calls before the install returns, and the second one's
      value is undone by the snapshot and then by the first one's store operation before it is final. */
  lemma OlderValuesShow(k: StreamId, a: Config, b: Config, first: Config)
    ensures var s := Fresh(map[], map[k := first]);
            var before := [Call(Set(k, a)), Call(Set(k, b))];
            Shows(s, before, k, b) &&
            Shows(s, before + [Installed], k, first) &&
            Shows(s, before + [Installed, RunNext], k, a) &&
            Shows(s, before + [Installed, RunNext, RunNext], k, b)
  {
    hide CanRun, Run, Shows;
    var before := [Call(Set(k, a)), Call(Set(k, b))];
    var s := Fresh(map[], map[k := first]);
    var s1 := Do(s, Call(Set(k, a)));
    var s2 := Do(s1, Call(Set(k, b)));
    var s3 := Do(s2, Installed);
    var s4 := Do(s3, RunNext);
    var s5 := Do(s4, RunNext);
    assert s3.pending == [Set(k, a), Set(k, b)];
    assert s4.pending == [Set(k, b)];
    RunsTo(s, before, [s, s1, s2]);
    Extends(s, before, s2, Installed, s3);
    Extends(s, before + [Installed], s3, RunNext, s4);
    Extends(s, before + [Installed] + [RunNext], s4, RunNext, s5);
    hide Do, CanDo;
    assert before + [Installed] + [RunNext] == before + [Installed, RunNext];
    assert before + [Installed] + [RunNext] + [RunNext] == before + [Installed, RunNext, RunNext];
    ShowsAt(s, before, k, b);
    ShowsAt(s, before + [Installed], k, first);
    ShowsAt(s, before + [Installed, RunNext], k, a);
    ShowsAt(s, before + [Installed, RunNext, RunNext], k, b);
  }

  lemma ShowsAt(s: State, steps: seq<Step>, k: StreamId, config: Config)
    requires CanRun(s, steps) && k in Run(s, steps).configs && Run(s, steps).configs[k] == config
    ensures Shows(s, steps, k, config)
  {
    hide CanRun, Run;
  }

  /** A run goes on by one step at its end. */
  lemma {:induction false} Extends(s: State, steps: seq<Step>, t: State, step: Step, u: State)
    requires CanRun(s, steps) && Run(s, steps) == t && CanDo(t, step) && Do(t, step) == u
    ensures CanRun(s, steps + [step]) && Run(s, steps + [step]) == u
    decreases |steps|
  {
    hide CanDo, Do;
    if steps == [] {
      assert [] + [step] == [step] && [step][1..] == [];
      assert CanRun(u, []) && Run(u, []) == u;
    } else {
      assert (steps + [step])[1..] == steps[1..] + [step];
      Extends(Do(s, steps[0]), steps[1..], t, step, u);
    }
  }

  lemma {:induction false} RunsTo(s: State, steps: seq<Step>, trace: seq<State>)
    requires |trace| == |steps| + 1 && trace[0] == s
    requires forall i | 0 <= i < |steps| :: CanDo(trace[i], steps[i]) && trace[i + 1] == Do(trace[i], steps[i])
    ensures CanRun(s, steps) && Run(s, steps) == trace[|steps|]
    decreases |steps|
  {
    if steps != [] {
      RunsTo(trace[1], steps[1..], trace[1..]);
    }
  }

  // ----- The objects -----

  /** The in-process store. `listening` says whether an install has registered the filter's callback. */
  class MemoryFilterConfigStore {
    var store: Configs
    var listening: bool

    constructor (initial: Configs)
      ensures store == initial && !listening
    {
      store := initial;
      listening := false;
    }

    method Install() returns (snapshot: Configs)
      modifies this
      ensures snapshot == store == old(store) && listening
    {
      listening := true;
      snapshot := store;
    }

    /** `notify` is the change handed to the callback, if there is one. */
    method SetConfig(streamId: StreamId, config: Config) returns (notify: Option<Change>)
      modifies this
      ensures store == Put(old(store), Set(streamId, config)) && listening == old(listening)
      ensures notify == if listening then Some(Set(streamId, config)) else None
    {
      store := store[streamId := config];
      notify := if listening then Some(Set(streamId, config)) else None;
    }

    method ClearConfig(streamId: StreamId) returns (notify: Option<Change>)
      modifies this
      ensures store == Put(old(store), Clear(streamId)) && listening == old(listening)
      ensures notify == if listening then Some(Clear(streamId)) else None
    {
      store := store - {streamId};
      notify := if listening then Some(Clear(streamId)) else None;
    }
  }

  class EventFilter {
    const store: MemoryFilterConfigStore
    var configs: Configs
    var stage: Stage
    var pending: seq<Change>

    ghost predicate Valid()
      reads this, store
    {
      !stage.Idle? ==> store.listening
    }

    ghost function Abstract(): State
      reads this, store
    {
      State(configs, store.store, stage, pending)
    }

    constructor (store: MemoryFilterConfigStore)
      ensures Valid() && this.store == store && Abstract() == Fresh(map[], store.store)
    {
      this.store := store;
      configs, stage, pending := map[], Idle, [];
    }

    method EnsureStarted()
      requires Valid()
      modifies this, store
      ensures Valid() && Abstract() == Do(old(Abstract()), Begin)
    {
      if stage.Idle? {
        var snapshot := store.Install();
        stage := Installing(snapshot);
      }
    }

    method SetConfig(streamId: StreamId, config: Config)
      requires Valid()
      modifies this, store
      ensures Valid() && Abstract() == Do(old(Abstract()), Call(Set(streamId, config)))
    {
      configs := configs[streamId := config];
      EnsureStarted();
      pending := pending + [Set(streamId, config)];
    }

    method ClearConfig(streamId: StreamId)
      requires Valid()
      modifies this, store
      ensures Valid() && Abstract() == Do(old(Abstract()), Call(Clear(streamId)))
    {
      configs := configs - {streamId};
      EnsureStarted();
      pending := pending + [Clear(streamId)];
    }

    /** The install returns: its snapshot goes over the local map, the callback having been registered. */
    method InstallReturns()
      requires Valid() && stage.Installing?
      modifies this
      ensures Valid() && Abstract() == Do(old(Abstract()), Installed)
    {
      configs := configs + stage.snapshot;
      stage := Started;
    }

    method InstallThrows()
      requires Valid() && stage.Installing?
      modifies this
      ensures Valid() && Abstract() == Do(old(Abstract()), InstallFails)
    {
      stage, pending := Idle, [];
    }

    method ApplyChange(change: Change)
      modifies this`configs
      ensures configs == Put(old(configs), change)
    {
      match change
      case Clear(k) => configs := configs - {k};
      case Set(k, config) => configs := configs[k := config];
    }

    /** The next deferred operation runs against the store, whose callback brings the change back. */
    method RunDeferred()
      requires Valid() && CanDo(Abstract(), RunNext)
      modifies this, store
      ensures Valid() && Abstract() == Do(old(Abstract()), RunNext)
    {
      var ch := pending[0];
      pending := pending[1..];
      var notify: Option<Change>;
      match ch {
        case Set(k, config) => notify := store.SetConfig(k, config);
        case Clear(k) => notify := store.ClearConfig(k);
      }
      if notify.Some? {
        ApplyChange(notify.value);
      }
    }

    /** The decision for one event. */
    method Allow(streamId: StreamId, eventType: Option<Str>) returns (ok: bool)
      ensures ok == Allows(Get(configs, streamId), eventType)
      ensures ok <==> streamId in configs && eventType.Some? ==> eventType.value !in configs[streamId]
    {
      if streamId !in configs || eventType.None? {
        return true;
      }
      ok := eventType.value !in configs[streamId];
    }
  }
}
