/** The event filter of several workers over one Redis hash and one channel. A write goes to the caller's own map at
    once, then to the hash, then to the channel; each worker takes messages from its own inbox in order and now and
    then reads the whole hash back. */
module RedisFilters {
  import opened Options
  import opened Filters

  /** `reading` is what a suspended reconcile or install has read from the hash. */
  datatype Worker = Worker(local: Configs, inbox: seq<Change>, attached: bool, reading: Option<Configs>)

  /** A call of `setConfig` or `clearConfig` that has not published yet. */
  datatype Flight = Flight(writer: nat, change: Change, stored: bool)

  datatype State = State(hash: Configs, workers: seq<Worker>, flights: map<nat, Flight>)

  /** `Reconcile` is a read and a merge with nothing in between; `Subscribe` ends an install. `Abandon` is a call that
      throws, `Lose` a message that never arrives. */
  datatype Step =
    | Call(id: nat, writer: nat, change: Change)
    | Store(id: nat)
    | Publish(id: nat)
    | Abandon(id: nat)
    | Deliver(worker: nat)
    | Lose(worker: nat)
    | Reconcile(worker: nat)
    | ReadHash(worker: nat)
    | Merge(worker: nat)
    | Subscribe(worker: nat)

  predicate CanDo(s: State, step: Step) {
    match step
    case Call(id, w, _) => id !in s.flights && w < |s.workers|
    case Store(id) => id in s.flights && !s.flights[id].stored
    case Publish(id) => id in s.flights && s.flights[id].stored
    case Abandon(id) => id in s.flights
    case Deliver(w) => w < |s.workers| && s.workers[w].inbox != []
    case Lose(w) => w < |s.workers| && s.workers[w].inbox != []
    case Reconcile(w) => w < |s.workers| && s.workers[w].attached
    case ReadHash(w) => w < |s.workers|
    case Merge(w) => w < |s.workers| && s.workers[w].attached && s.workers[w].reading.Some?
    case Subscribe(w) => w < |s.workers| && !s.workers[w].attached && s.workers[w].reading.Some?
  }

  function Send(w: Worker, ch: Change): Worker {
    if w.attached then w.(inbox := w.inbox + [ch]) else w
  }

  function Broadcast(ws: seq<Worker>, ch: Change): (r: seq<Worker>)
    ensures |r| == |ws| && forall i | 0 <= i < |ws| :: r[i] == Send(ws[i], ch)
  {
    if ws == [] then [] else [Send(ws[0], ch)] + Broadcast(ws[1..], ch)
  }

  /** A scan emits a set for every entry read, and never a clear. */
  function Overlay(w: Worker, read: Configs): Worker {
    w.(local := w.local + read)
  }

  function Do(s: State, step: Step): State
    requires CanDo(s, step)
  {
    match step
    case Call(id, w, ch) =>
      var x := s.workers[w];
      s.(workers := s.workers[w := x.(local := Put(x.local, ch))], flights := s.flights[id := Flight(w, ch, false)])
    case Store(id) =>
      var f := s.flights[id];
      s.(hash := Put(s.hash, f.change), flights := s.flights[id := f.(stored := true)])
    case Publish(id) =>
      s.(workers := Broadcast(s.workers, s.flights[id].change), flights := s.flights - {id})
    case Abandon(id) => s.(flights := s.flights - {id})
    case Deliver(w) =>
      var x := s.workers[w];
      s.(workers := s.workers[w := x.(local := Put(x.local, x.inbox[0]), inbox := x.inbox[1..])])
    case Lose(w) => s.(workers := s.workers[w := s.workers[w].(inbox := s.workers[w].inbox[1..])])
    case Reconcile(w) => s.(workers := s.workers[w := Overlay(s.workers[w], s.hash)])
    case ReadHash(w) => s.(workers := s.workers[w := s.workers[w].(reading := Some(s.hash))])
    case Merge(w) =>
      var x := s.workers[w];
      s.(workers := s.workers[w := Overlay(x, x.reading.value).(reading := None)])
    case Subscribe(w) =>
      var x := s.workers[w];
      s.(workers := s.workers[w := Overlay(x, x.reading.value).(reading := None, attached := true)])
  }

  predicate CanRun(s: State, steps: seq<Step>)
    decreases |steps|
  {
    steps == [] || (CanDo(s, steps[0]) && CanRun(Do(s, steps[0]), steps[1..]))
  }

  function Run(s: State, steps: seq<Step>): State
    requires CanRun(s, steps)
    decreases |steps|
  {
    if steps == [] then s else Run(Do(s, steps[0]), steps[1..])
  }

  // ----- One writer at a time, nothing lost -----

  predicate InFlight(flights: map<nat, Flight>, k: StreamId) {
    exists id :: id in flights && flights[id].change.streamId == k
  }

  predicate OneWriter(flights: map<nat, Flight>) {
    forall i, j | i in flights && j in flights && i != j :: flights[i].change.streamId != flights[j].change.streamId
  }

  /** The steps of an orderly run: a stream is written only when no other write of it is under way, messages arrive,
      calls go through, and no other step comes between a scan's read and its merge. */
  predicate Orderly(s: State, step: Step) {
    match step
    case Call(_, _, ch) => !InFlight(s.flights, ch.streamId)
    case Store(_) => true
    case Publish(_) => true
    case Deliver(_) => true
    case Reconcile(_) => true
    case _ => false
  }

  predicate OrderlyRun(s: State, steps: seq<Step>)
    requires CanRun(s, steps)
    decreases |steps|
  {
    steps == [] || (Orderly(s, steps[0]) && OrderlyRun(Do(s, steps[0]), steps[1..]))
  }

  /** The value a worker's map has for a stream once all that waits in its inbox is applied. */
  function Eventually(w: Worker, k: StreamId): Option<Config> {
    Get(PutAll(w.local, w.inbox), k)
  }

  /** Nobody is about to change the stream, as worker `w` sees it: there is no write of it under way, or one by another
      worker that has not reached the hash. */
  predicate Calm(flights: map<nat, Flight>, w: nat, k: StreamId) {
    forall id | id in flights && flights[id].change.streamId == k :: flights[id].writer != w && !flights[id].stored
  }

  predicate StoredInHash(hash: Configs, f: Flight) {
    f.stored ==> Get(hash, f.change.streamId) == Leaves(f.change)
  }

  ghost predicate Yields(s: State, w: nat)
    requires w < |s.workers|
  {
    forall k: StreamId | Calm(s.flights, w, k) :: Eventually(s.workers[w], k) == Get(s.hash, k)
  }

  /** Applying the undelivered messages to any worker's map yields the hash, absences included, on every stream that
      has no write under way that the worker made itself or that has yet to publish; and a stored write is what the
      hash has. */
  ghost predicate Consistent(s: State) {
    OneWriter(s.flights) &&
    (forall id | id in s.flights :: StoredInHash(s.hash, s.flights[id])) &&
    (forall w | 0 <= w < |s.workers| :: s.workers[w].attached && Yields(s, w))
  }

  lemma AfterOneMore(w: Worker, ch: Change, k: StreamId)
    requires w.attached
    ensures Eventually(Send(w, ch), k) == if ch.streamId == k then Leaves(ch) else Eventually(w, k)
  {
    PutAllSnoc(w.local, w.inbox, ch);
  }

  lemma {:induction false} PutFirst(c: Configs, chs: seq<Change>)
    requires chs != []
    ensures PutAll(c, chs) == PutAll(Put(c, chs[0]), chs[1..])
  {
    assert chs == [chs[0]] + chs[1..];
    PutAllConcat(c, [chs[0]], chs[1..]);
    assert [chs[0]][..0] == [];
    assert PutAll(c, [chs[0]]) == Put(c, chs[0]);
  }

  /** What two maps share for a stream, they share after the same changes. */
  lemma {:induction false} PutAllLocal(a: Configs, b: Configs, chs: seq<Change>, k: StreamId)
    requires Get(a, k) == Get(b, k)
    ensures Get(PutAll(a, chs), k) == Get(PutAll(b, chs), k)
  {
    if chs != [] {
      PutAllLocal(a, b, chs[..|chs| - 1], k);
    }
  }

  /** Overlaying a map changes what a stream comes to exactly when nothing in the inbox touches it and the map has
      another value for it. */
  lemma OverlayEventually(w: Worker, read: Configs, k: StreamId)
    ensures Eventually(Overlay(w, read), k)
            == if k in read && !Touches(w.inbox, k) then Some(read[k]) else Eventually(w, k)
  {
    LastWriterWins(w.local, w.inbox, k);
    LastWriterWins(w.local + read, w.inbox, k);
    if Touches(w.inbox, k) {
      var i := LastTouch(w.inbox, k);
      assert IsLast(w.inbox, k, i);
    }
  }

  lemma CallKeepsConsistent(s: State, id: nat, w: nat, ch: Change)
    requires Consistent(s) && CanDo(s, Call(id, w, ch)) && Orderly(s, Call(id, w, ch))
    ensures Consistent(Do(s, Call(id, w, ch)))
  {
    var t := Do(s, Call(id, w, ch));
    forall v | 0 <= v < |t.workers| ensures t.workers[v].attached && Yields(t, v) {
      assert Yields(s, v);
      forall k: StreamId | Calm(t.flights, v, k) ensures Eventually(t.workers[v], k) == Get(t.hash, k) {
        assert t.flights[id] == Flight(w, ch, false);
        assert Calm(s.flights, v, k) by {
          forall i | i in s.flights && s.flights[i].change.streamId == k
            ensures s.flights[i].writer != v && !s.flights[i].stored
          {
            assert t.flights[i] == s.flights[i];
          }
        }
        if v == w {
          PutAllLocal(s.workers[w].local, t.workers[w].local, s.workers[w].inbox, k);
        }
      }
    }
    forall i | i in t.flights ensures StoredInHash(t.hash, t.flights[i]) {
      assert i != id ==> t.flights[i] == s.flights[i];
    }
  }

  lemma StoreKeepsConsistent(s: State, id: nat)
    requires Consistent(s) && CanDo(s, Store(id))
    ensures Consistent(Do(s, Store(id)))
  {
    var t := Do(s, Store(id));
    var k0 := s.flights[id].change.streamId;
    forall v | 0 <= v < |t.workers| ensures t.workers[v].attached && Yields(t, v) {
      assert Yields(s, v);
      forall k: StreamId | Calm(t.flights, v, k) ensures Eventually(t.workers[v], k) == Get(t.hash, k) {
        assert t.flights[id].stored;
        assert k != k0;
        assert Calm(s.flights, v, k) by {
          forall i | i in s.flights && s.flights[i].change.streamId == k
            ensures s.flights[i].writer != v && !s.flights[i].stored
          {
            assert t.flights[i] == s.flights[i];
          }
        }
      }
    }
    forall i | i in t.flights ensures StoredInHash(t.hash, t.flights[i]) {
      if i != id {
        assert t.flights[i] == s.flights[i] && s.flights[i].change.streamId != k0;
      }
    }
  }

  lemma PublishYields(s: State, id: nat, v: nat)
    requires CanDo(s, Publish(id)) && v < |s.workers| && s.workers[v].attached && Yields(s, v)
    requires StoredInHash(s.hash, s.flights[id])
    ensures Yields(Do(s, Publish(id)), v)
  {
    var t := Do(s, Publish(id));
    var f := s.flights[id];
    forall k: StreamId | Calm(t.flights, v, k) ensures Eventually(t.workers[v], k) == Get(t.hash, k) {
      assert t.workers[v] == Send(s.workers[v], f.change);
      AfterOneMore(s.workers[v], f.change, k);
      hide Eventually, Send, Get;
      if k != f.change.streamId {
        assert Calm(s.flights, v, k) by {
          forall i | i in s.flights && s.flights[i].change.streamId == k
            ensures s.flights[i].writer != v && !s.flights[i].stored
          {
            assert i in t.flights && t.flights[i] == s.flights[i];
          }
        }
      }
    }
  }

  lemma PublishKeepsConsistent(s: State, id: nat)
    requires Consistent(s) && CanDo(s, Publish(id))
    ensures Consistent(Do(s, Publish(id)))
  {
    hide Yields;
    var t := Do(s, Publish(id));
    forall v | 0 <= v < |t.workers| ensures t.workers[v].attached && Yields(t, v) {
      PublishYields(s, id, v);
    }
  }

  lemma DeliverKeepsConsistent(s: State, w: nat)
    requires Consistent(s) && CanDo(s, Deliver(w))
    ensures Consistent(Do(s, Deliver(w)))
  {
    var t := Do(s, Deliver(w));
    forall v | 0 <= v < |t.workers| ensures t.workers[v].attached && Yields(t, v) {
      assert Yields(s, v);
      if v == w {
        PutFirst(s.workers[w].local, s.workers[w].inbox);
      }
    }
  }

  /** Laying a copy of the hash, however old, over a worker's map keeps consistency exactly when, on every calm stream
      that nothing in the inbox is going to set right, the copy has no value or the one the hash has now. */
  lemma OverlayKeepsYields(s: State, w: nat, read: Configs)
    requires w < |s.workers| && Yields(s, w)
    ensures Yields(s.(workers := s.workers[w := Overlay(s.workers[w], read)]), w)
            <==> forall k: StreamId | k in read && Calm(s.flights, w, k) && !Touches(s.workers[w].inbox, k) ::
                   Some(read[k]) == Get(s.hash, k)
  {
    var x := s.workers[w];
    var t := s.(workers := s.workers[w := Overlay(x, read)]);
    assert t.workers[w] == Overlay(x, read);
    if Yields(t, w) {
      forall k: StreamId | k in read && Calm(s.flights, w, k) && !Touches(x.inbox, k)
        ensures Some(read[k]) == Get(s.hash, k)
      {
        OverlayEventually(x, read, k);
        assert Eventually(t.workers[w], k) == Get(t.hash, k);
      }
    }
    if forall k: StreamId | k in read && Calm(s.flights, w, k) && !Touches(x.inbox, k) ::
         Some(read[k]) == Get(s.hash, k)
    {
      forall k: StreamId | Calm(t.flights, w, k) ensures Eventually(t.workers[w], k) == Get(t.hash, k) {
        OverlayEventually(x, read, k);
      }
    }
  }

  /** A reconcile with nothing between its read and its merge keeps consistency at any moment. */
  lemma ReconcileKeepsConsistent(s: State, w: nat)
    requires Consistent(s) && CanDo(s, Reconcile(w))
    ensures Consistent(Do(s, Reconcile(w)))
  {
    var t := Do(s, Reconcile(w));
    OverlayKeepsYields(s, w, s.hash);
    forall v | 0 <= v < |t.workers| ensures t.workers[v].attached && Yields(t, v) {
      assert Yields(s, v);
    }
  }

  lemma StepKeepsConsistent(s: State, step: Step)
    requires Consistent(s) && CanDo(s, step) && Orderly(s, step)
    ensures Consistent(Do(s, step))
  {
    hide Consistent, Do;
    match step
    case Call(id, w, ch) => CallKeepsConsistent(s, id, w, ch);
    case Store(id) => StoreKeepsConsistent(s, id);
    case Publish(id) => PublishKeepsConsistent(s, id);
    case Deliver(w) => DeliverKeepsConsistent(s, w);
    case Reconcile(w) => ReconcileKeepsConsistent(s, w);
  }

  lemma {:induction false} RunKeepsConsistent(s: State, steps: seq<Step>)
    requires Consistent(s) && CanRun(s, steps) && OrderlyRun(s, steps)
    ensures Consistent(Run(s, steps))
    decreases |steps|
  {
    if steps != [] {
      StepKeepsConsistent(s, steps[0]);
      RunKeepsConsistent(Do(s, steps[0]), steps[1..]);
    }
  }

  /** No write is under way and every message has been taken. */
  predicate Quiet(s: State) {
    s.flights == map[] && forall w | 0 <= w < |s.workers| :: s.workers[w].inbox == []
  }

  /** So after any orderly run that has come to rest, every worker's map is the hash. */
  lemma QuietWorkersHoldTheHash(s: State, steps: seq<Step>)
    requires Consistent(s) && CanRun(s, steps) && OrderlyRun(s, steps) && Quiet(Run(s, steps))
    ensures var t := Run(s, steps); forall w | 0 <= w < |t.workers| :: t.workers[w].local == t.hash
  {
    RunKeepsConsistent(s, steps);
    var t := Run(s, steps);
    forall w | 0 <= w < |t.workers| ensures t.workers[w].local == t.hash {
      assert Yields(t, w);
      forall k: StreamId ensures Get(t.workers[w].local, k) == Get(t.hash, k) {
        assert Calm(t.flights, w, k);
        assert Eventually(t.workers[w], k) == Get(t.hash, k);
      }
      SameMaps(t.workers[w].local, t.hash);
    }
  }

  // ----- Whatever happened before -----

  /** The steps left once writing has stopped: scans. */
  predicate OnlyScans(steps: seq<Step>) {
    forall i | 0 <= i < |steps| ::
      steps[i].Reconcile? || steps[i].ReadHash? || steps[i].Merge?
  }

  predicate Reconciles(steps: seq<Step>, w: nat) {
    exists i :: 0 <= i < |steps| && Scans(steps[i], w)
  }

  /** No scan is suspended over an old copy of the hash. */
  predicate CurrentReadings(s: State) {
    forall w | 0 <= w < |s.workers| :: s.workers[w].reading.None? || s.workers[w].reading.value == s.hash
  }

  predicate Scans(step: Step, w: nat) {
    step == Reconcile(w) || step == Merge(w)
  }

  lemma ScanOverlaysTheHash(s: State, step: Step, w: nat)
    requires CanDo(s, step) && CurrentReadings(s) && w < |s.workers|
    requires step.Reconcile? || step.ReadHash? || step.Merge?
    ensures var t := Do(s, step);
            t.hash == s.hash && |t.workers| == |s.workers| && CurrentReadings(t) &&
            t.workers[w].local == if Scans(step, w) then s.workers[w].local + s.hash else s.workers[w].local
  {
  }

  lemma ReconcilesFirst(steps: seq<Step>, w: nat)
    requires steps != []
    ensures Reconciles(steps, w) <==> Scans(steps[0], w) || Reconciles(steps[1..], w)
  {
    if Reconciles(steps[1..], w) {
      var i :| 0 <= i < |steps| - 1 && Scans(steps[1..][i], w);
      assert steps[i + 1] == steps[1..][i];
    }
    if i :| 0 <= i < |steps| && Scans(steps[i], w) && i > 0 {
      assert steps[1..][i - 1] == steps[i];
    }
  }

  lemma {:induction false} ScansOverlayTheHash(s: State, steps: seq<Step>, w: nat)
    requires CanRun(s, steps) && OnlyScans(steps) && CurrentReadings(s) && w < |s.workers|
    ensures var t := Run(s, steps);
            t.hash == s.hash && |t.workers| == |s.workers| &&
            t.workers[w].local == if Reconciles(steps, w) then s.workers[w].local + s.hash else s.workers[w].local
    decreases |steps|
  {
    if steps != [] {
      var s1 := Do(s, steps[0]);
      assert OnlyScans(steps[1..]);
      ScanOverlaysTheHash(s, steps[0], w);
      ReconcilesFirst(steps, w);
      hide Do, Scans, Reconciles, CurrentReadings, OnlyScans;
      ScansOverlayTheHash(s1, steps[1..], w);
      assert s.workers[w].local + s.hash + s.hash == s.workers[w].local + s.hash;
    }
  }

  /** Whatever was lost or overtaken, once writing and delivering have stopped and a worker has scanned the hash: it
      agrees with the hash on every stream there, and agrees altogether exactly when it knew no stream the hash does not
      have, for scans never clear. */
  lemma ScanRepairsWhatTheHashHas(s: State, steps: seq<Step>, w: nat)
    requires CanRun(s, steps) && OnlyScans(steps) && CurrentReadings(s) && w < |s.workers| && Reconciles(steps, w)
    ensures var t := Run(s, steps);
            w < |t.workers| &&
            (forall k: StreamId | k in t.hash :: Get(t.workers[w].local, k) == Get(t.hash, k)) &&
            (t.workers[w].local == t.hash <==> s.workers[w].local.Keys <= s.hash.Keys)
  {
    ScansOverlayTheHash(s, steps, w);
    var t := Run(s, steps);
    var l := s.workers[w].local;
    if t.workers[w].local == t.hash {
      assert (l + s.hash).Keys == l.Keys + s.hash.Keys;
    }
    if l.Keys <= s.hash.Keys {
      assert (l + s.hash).Keys == s.hash.Keys;
    }
  }

  // ----- What each assumption is needed for -----

  function One(k: StreamId, config: Config): Configs {
    map[k := config]
  }

  /** Two workers at rest that know what the hash knows. */
  function Pair(c: Configs): State {
    State(c, [Worker(c, [], true, None), Worker(c, [], true, None)], map[])
  }

  lemma PairIsConsistent(c: Configs)
    ensures Consistent(Pair(c))
  {
  }

  predicate Reaches(s: State, step: Step, t: State) {
    CanDo(s, step) && Do(s, step) == t
  }

  lemma {:induction false} RunsTo(s: State, steps: seq<Step>, trace: seq<State>)
    requires |trace| == |steps| + 1 && trace[0] == s
    requires forall i | 0 <= i < |steps| :: Reaches(trace[i], steps[i], trace[i + 1])
    ensures CanRun(s, steps) && Run(s, steps) == trace[|steps|]
    decreases |steps|
  {
    if steps != [] {
      assert Reaches(trace[0], steps[0], trace[1]);
      hide Do, CanDo;
      forall i | 0 <= i < |steps[1..]| ensures Reaches(trace[1..][i], steps[1..][i], trace[1..][i + 1]) {
        assert Reaches(trace[i + 1], steps[i + 1], trace[i + 2]);
      }
      RunsTo(trace[1], steps[1..], trace[1..]);
    }
  }

  type Flights = map<nat, Flight>

  lemma Call0(h: Configs, w: Worker, x: Worker, fl: Flights, id: nat, ch: Change)
    requires id !in fl
    ensures Reaches(State(h, [w, x], fl), Call(id, 0, ch),
                    State(h, [w.(local := Put(w.local, ch)), x], fl[id := Flight(0, ch, false)]))
  {
    assert [w, x][0 := w.(local := Put(w.local, ch))] == [w.(local := Put(w.local, ch)), x];
  }

  lemma Call1(h: Configs, w: Worker, x: Worker, fl: Flights, id: nat, ch: Change)
    requires id !in fl
    ensures Reaches(State(h, [w, x], fl), Call(id, 1, ch),
                    State(h, [w, x.(local := Put(x.local, ch))], fl[id := Flight(1, ch, false)]))
  {
    assert [w, x][1 := x.(local := Put(x.local, ch))] == [w, x.(local := Put(x.local, ch))];
  }

  lemma Deliver0(h: Configs, w: Worker, x: Worker, fl: Flights, ch: Change, rest: seq<Change>)
    requires w.inbox == [ch] + rest
    ensures Reaches(State(h, [w, x], fl), Deliver(0),
                    State(h, [w.(local := Put(w.local, ch), inbox := rest), x], fl))
  {
    var y := w.(local := Put(w.local, ch), inbox := rest);
    assert w.inbox[1..] == rest;
    assert [w, x][0 := y] == [y, x];
  }

  lemma Deliver1(h: Configs, w: Worker, x: Worker, fl: Flights, ch: Change, rest: seq<Change>)
    requires x.inbox == [ch] + rest
    ensures Reaches(State(h, [w, x], fl), Deliver(1),
                    State(h, [w, x.(local := Put(x.local, ch), inbox := rest)], fl))
  {
    var y := x.(local := Put(x.local, ch), inbox := rest);
    assert x.inbox[1..] == rest;
    assert [w, x][1 := y] == [w, y];
  }

  lemma PublishBoth(h: Configs, w: Worker, x: Worker, y: Worker, z: Worker, fl: Flights, id: nat, gl: Flights)
    requires id in fl && fl[id].stored && fl - {id} == gl
    requires SentTo(w, fl[id].change, y) && SentTo(x, fl[id].change, z)
    ensures Reaches(State(h, [w, x], fl), Publish(id), State(h, [y, z], gl))
  {
    assert Broadcast([w, x], fl[id].change) == [y, z];
  }

  lemma Reads0(h: Configs, w: Worker, x: Worker, fl: Flights)
    ensures Reaches(State(h, [w, x], fl), ReadHash(0), State(h, [w.(reading := Some(h)), x], fl))
  {
    assert [w, x][0 := w.(reading := Some(h))] == [w.(reading := Some(h)), x];
  }

  lemma Merges0(h: Configs, w: Worker, x: Worker, fl: Flights, read: Configs)
    requires w.attached && w.reading == Some(read)
    ensures Reaches(State(h, [w, x], fl), Merge(0), State(h, [w.(local := w.local + read, reading := None), x], fl))
  {
    var y := w.(local := w.local + read, reading := None);
    assert [w, x][0 := y] == [y, x];
  }

  lemma Subscribes0(h: Configs, w: Worker, x: Worker, fl: Flights, read: Configs)
    requires !w.attached && w.reading == Some(read)
    ensures Reaches(State(h, [w, x], fl), Subscribe(0),
                    State(h, [w.(local := w.local + read, reading := None, attached := true), x], fl))
  {
    var y := w.(local := w.local + read, reading := None, attached := true);
    assert [w, x][0 := y] == [y, x];
  }

  lemma StoreWrites(h: Configs, ws: seq<Worker>, fl: Flights, id: nat)
    requires id in fl && !fl[id].stored
    ensures Reaches(State(h, ws, fl), Store(id),
                    State(Put(h, fl[id].change), ws, fl[id := fl[id].(stored := true)]))
  {
  }

  predicate SentTo(w: Worker, ch: Change, y: Worker) {
    y == w.(inbox := y.inbox) && y.inbox == if w.attached then w.inbox + [ch] else w.inbox
  }

  /** Two writers of one stream at once: the channel carries their values in the other order than the hash took them,
      and everybody ends with the value the hash does not have. */
  lemma OverlappingWritersDisagree(k: StreamId, a: Config, b: Config) returns (steps: seq<Step>)
    ensures Consistent(Pair(map[])) && CanRun(Pair(map[]), steps)
    ensures var t := Run(Pair(map[]), steps);
            Quiet(t) && t.hash == One(k, b) &&
            forall w | 0 <= w < |t.workers| :: t.workers[w].local == One(k, a)
    ensures forall i | 0 <= i < |steps| ::
              steps[i].Call? || steps[i].Store? || steps[i].Publish? || steps[i].Deliver?
  {
    PairIsConsistent(map[]);
    hide Reaches, Do, CanDo, Run, CanRun, Consistent;
    var ca, cb := Set(k, a), Set(k, b);
    steps := [Call(0, 0, ca), Call(1, 1, cb), Store(0), Store(1), Publish(1), Publish(0),
              Deliver(0), Deliver(0), Deliver(1), Deliver(1)];
    var fa, fb := Flight(0, ca, false), Flight(1, cb, false);
    var ha, hb, no: Configs := One(k, a), One(k, b), map[];
    var wa, wb, wn := Worker(ha, [], true, None), Worker(hb, [], true, None), Worker(no, [], true, None);
    var s0, s1 := State(no, [wn, wn], map[]), State(no, [wa, wn], map[0 := fa]);
    var s2, s3 := State(no, [wa, wb], map[0 := fa, 1 := fb]),
        State(ha, [wa, wb], map[0 := fa.(stored := true), 1 := fb]);
    var s4 := State(hb, [wa, wb], map[0 := fa.(stored := true), 1 := fb.(stored := true)]);
    var s5 := State(hb, [wa.(inbox := [cb]), wb.(inbox := [cb])], map[0 := fa.(stored := true)]);
    var s6 := State(hb, [wa.(inbox := [cb, ca]), wb.(inbox := [cb, ca])], map[]);
    var s7, s8 := State(hb, [wb.(inbox := [ca]), wb.(inbox := [cb, ca])], map[]),
        State(hb, [wa, wb.(inbox := [cb, ca])], map[]);
    var s9, s10 := State(hb, [wa, wb.(inbox := [ca])], map[]), State(hb, [wa, wa], map[]);
    assert Pair(map[]) == s0;
    assert Put(no, ca) == ha == Put(hb, ca) && Put(no, cb) == hb == Put(ha, cb) == Put(hb, cb);
    hide Put, Pair, One;
    StoreWrites(no, s2.workers, s2.flights, 0);
    StoreWrites(ha, s2.workers, s3.flights, 1);
    assert s2.flights[0 := fa.(stored := true)] == s3.flights && s3.flights[1 := fb.(stored := true)] == s4.flights;
    Call0(no, wn, wn, map[], 0, ca);
    Call1(no, wa, wn, s1.flights, 1, cb);
    PublishBoth(hb, wa, wb, wa.(inbox := [cb]), wb.(inbox := [cb]), s4.flights, 1, s5.flights);
    PublishBoth(hb, wa.(inbox := [cb]), wb.(inbox := [cb]), wa.(inbox := [cb, ca]), wb.(inbox := [cb, ca]),
                s5.flights, 0, map[]);
    Deliver0(hb, wa.(inbox := [cb, ca]), wb.(inbox := [cb, ca]), map[], cb, [ca]);
    Deliver0(hb, wb.(inbox := [ca]), wb.(inbox := [cb, ca]), map[], ca, []);
    Deliver1(hb, wa, wb.(inbox := [cb, ca]), map[], cb, [ca]);
    Deliver1(hb, wa, wb.(inbox := [ca]), map[], ca, []);
    RunsTo(s0, steps, [s0, s1, s2, s3, s4, s5, s6, s7, s8, s9, s10]);
  }

  /** A clear between a scan's read and its merge: the scan brings the cleared configuration back, and no later scan
      takes it away. */
  lemma StaleScanRestoresACleared(k: StreamId, a: Config) returns (steps: seq<Step>)
    ensures Consistent(Pair(One(k, a))) && CanRun(Pair(One(k, a)), steps)
    ensures var t := Run(Pair(One(k, a)), steps);
            Quiet(t) && CurrentReadings(t) && t.hash == map[] && |t.workers| == 2 && t.workers[0].local == One(k, a)
  {
    PairIsConsistent(One(k, a));
    hide Run, CanRun, Consistent, Reaches, Do, CanDo;
    var c := Clear(k);
    steps := [ReadHash(0), Call(0, 1, c), Store(0), Publish(0), Deliver(0), Deliver(1), Merge(0)];
    var h, no: Configs := One(k, a), map[];
    var f := Flight(1, c, false);
    var w, x := Worker(h, [], true, Some(h)), Worker(no, [], true, None);
    var s0, s1 := Pair(h), State(h, [w, x.(local := h)], map[]);
    var s2, s3 := State(h, [w, x], map[0 := f]), State(no, [w, x], map[0 := f.(stored := true)]);
    var s4, s5 := State(no, [w.(inbox := [c]), x.(inbox := [c])], map[]),
        State(no, [w.(local := no), x.(inbox := [c])], map[]);
    var s6, s7 := State(no, [w.(local := no), x], map[]), State(no, [w.(reading := None), x], map[]);
    assert Put(h, c) == no == Put(no, c);
    assert no + h == h;
    Reads0(h, w.(reading := None), x.(local := h), map[]);
    assert s0 == State(h, [w.(reading := None), x.(local := h)], map[]);
    hide Put, Pair, One;
    StoreWrites(h, s2.workers, s2.flights, 0);
    assert s2.flights[0 := f.(stored := true)] == s3.flights;
    Merges0(no, w.(local := no), x, map[], h);
    Call1(h, w, x.(local := h), map[], 0, c);
    PublishBoth(no, w, x, w.(inbox := [c]), x.(inbox := [c]), s3.flights, 0, map[]);
    Deliver0(no, w.(inbox := [c]), x.(inbox := [c]), map[], c, []);
    Deliver1(no, w.(local := no), x.(inbox := [c]), map[], c, []);
    RunsTo(s0, steps, [s0, s1, s2, s3, s4, s5, s6, s7]);
  }

  /** An install reads the hash before it subscribes: a clear published in between reaches nobody's inbox there, and
      the worker keeps the cleared configuration. */
  lemma InstallMissesAClear(k: StreamId, a: Config) returns (s: State, steps: seq<Step>)
    ensures s == State(One(k, a), [Worker(map[], [], false, None), Worker(One(k, a), [], true, None)], map[])
    ensures CanRun(s, steps)
    ensures var t := Run(s, steps);
            Quiet(t) && CurrentReadings(t) && t.hash == map[] && |t.workers| == 2 && t.workers[0].attached &&
            t.workers[0].local == One(k, a)
  {
    hide Run, CanRun, Reaches, Do, CanDo;
    var c := Clear(k);
    var h, no: Configs := One(k, a), map[];
    steps := [ReadHash(0), Call(0, 1, c), Store(0), Publish(0), Deliver(1), Subscribe(0)];
    var f := Flight(1, c, false);
    var w, x := Worker(no, [], false, Some(h)), Worker(no, [], true, None);
    s := State(h, [w.(reading := None), x.(local := h)], map[]);
    var s1, s2 := State(h, [w, x.(local := h)], map[]), State(h, [w, x], map[0 := f]);
    var s3, s4 := State(no, [w, x], map[0 := f.(stored := true)]), State(no, [w, x.(inbox := [c])], map[]);
    var s5, s6 := State(no, [w, x], map[]), State(no, [Worker(h, [], true, None), x], map[]);
    assert Put(h, c) == no == Put(no, c);
    assert no + h == h;
    hide Put, One;
    Reads0(h, w.(reading := None), x.(local := h), map[]);
    StoreWrites(h, s2.workers, s2.flights, 0);
    assert s2.flights[0 := f.(stored := true)] == s3.flights;
    Subscribes0(no, w, x, map[], h);
    Call1(h, w, x.(local := h), map[], 0, c);
    PublishBoth(no, w, x, w, x.(inbox := [c]), s3.flights, 0, map[]);
    Deliver1(no, w, x.(inbox := [c]), map[], c, []);
    RunsTo(s, steps, [s, s1, s2, s3, s4, s5, s6]);
  }

  /** Such an entry outlives every scan there will ever be. */
  lemma ScansNeverClear(s: State, steps: seq<Step>, w: nat, k: StreamId)
    requires CanRun(s, steps) && OnlyScans(steps) && CurrentReadings(s) && w < |s.workers|
    requires k in s.workers[w].local && k !in s.hash
    ensures var t := Run(s, steps);
            w < |t.workers| && Get(t.workers[w].local, k) == Get(s.workers[w].local, k) && k !in t.hash
  {
    ScansOverlayTheHash(s, steps, w);
  }
}
