/** Writers that overlap, and workers that join: exactly when a worker's map is the hash once everything has come to
    rest, whatever the order in which the hash and the channel took the writes. */
module RedisWrites {
  import opened Options
  import opened Filters
  import opened RedisFilters

  /** Writing and delivering, with any number of writes under way at once. */
  predicate OnlyWrites(steps: seq<Step>) {
    forall i | 0 <= i < |steps| ::
      steps[i].Call? || steps[i].Store? || steps[i].Publish? || steps[i].Deliver?
  }

  function Sent(s: State, step: Step): seq<Change>
    requires CanDo(s, step)
  {
    if step.Publish? then [s.flights[step.id].change] else []
  }

  /** The changes in the order in which the hash takes them. */
  function Stored(s: State, steps: seq<Step>): seq<Change>
    requires CanRun(s, steps)
    decreases |steps|
  {
    if steps == [] then []
    else (if steps[0].Store? then [s.flights[steps[0].id].change] else []) + Stored(Do(s, steps[0]), steps[1..])
  }

  /** The changes in the order in which the channel carries them. */
  function Published(s: State, steps: seq<Step>): seq<Change>
    requires CanRun(s, steps)
    decreases |steps|
  {
    if steps == [] then []
    else Sent(s, steps[0]) + Published(Do(s, steps[0]), steps[1..])
  }

  /** What the last of the changes to a stream leaves there, if there is one. */
  function LastLeft(chs: seq<Change>, k: StreamId): Option<Option<Config>> {
    if chs == [] then None
    else if chs[|chs| - 1].streamId == k then Some(Leaves(chs[|chs| - 1]))
    else LastLeft(chs[..|chs| - 1], k)
  }

  lemma {:induction false} LastLeftDecides(c: Configs, chs: seq<Change>, k: StreamId)
    ensures Get(PutAll(c, chs), k) == if LastLeft(chs, k).Some? then LastLeft(chs, k).value else Get(c, k)
    ensures LastLeft(chs, k).Some? <==> Touches(chs, k)
  {
    if chs != [] {
      var n := |chs| - 1;
      LastLeftDecides(c, chs[..n], k);
      assert Touches(chs[..n], k) ==> Touches(chs, k);
      assert Touches(chs, k) && chs[n].streamId != k ==> Touches(chs[..n], k);
    }
  }

  // ----- What the maps and the hash come to -----

  predicate WritesTo(flights: Flights, w: nat, k: StreamId) {
    exists id :: id in flights && flights[id].writer == w && flights[id].change.streamId == k
  }

  /** The worker listens, and once it has taken its messages it holds `c` wherever it has no write of its own under
      way. */
  ghost predicate HeadsFor(s: State, w: nat, c: Configs) {
    w < |s.workers| && s.workers[w].attached &&
    forall k: StreamId | !WritesTo(s.flights, w, k) :: Eventually(s.workers[w], k) == Get(c, k)
  }

  lemma CallKeepsHeading(s: State, id: nat, writer: nat, ch: Change, w: nat, c: Configs)
    requires CanDo(s, Call(id, writer, ch)) && HeadsFor(s, w, c)
    ensures HeadsFor(Do(s, Call(id, writer, ch)), w, c)
  {
    var t := Do(s, Call(id, writer, ch));
    forall k: StreamId ensures !WritesTo(t.flights, w, k) ==> Eventually(t.workers[w], k) == Get(c, k) {
      assert t.flights[id] == Flight(writer, ch, false);
      if i :| i in s.flights && s.flights[i].writer == w && s.flights[i].change.streamId == k {
        assert t.flights[i] == s.flights[i];
      }
      if writer == w && k != ch.streamId {
        PutAllLocal(s.workers[w].local, t.workers[w].local, s.workers[w].inbox, k);
      }
    }
  }

  lemma StoreKeepsHeading(s: State, id: nat, w: nat, c: Configs)
    requires CanDo(s, Store(id)) && HeadsFor(s, w, c)
    ensures HeadsFor(Do(s, Store(id)), w, c)
  {
    var t := Do(s, Store(id));
    forall k: StreamId ensures !WritesTo(t.flights, w, k) ==> Eventually(t.workers[w], k) == Get(c, k) {
      if i :| i in s.flights && s.flights[i].writer == w && s.flights[i].change.streamId == k {
        assert t.flights[i] == s.flights[i].(stored := t.flights[i].stored);
      }
    }
  }

  lemma PublishKeepsHeading(s: State, id: nat, w: nat, c: Configs)
    requires CanDo(s, Publish(id)) && HeadsFor(s, w, c)
    ensures HeadsFor(Do(s, Publish(id)), w, Put(c, s.flights[id].change))
  {
    var t, ch := Do(s, Publish(id)), s.flights[id].change;
    forall k: StreamId ensures !WritesTo(t.flights, w, k) ==> Eventually(t.workers[w], k) == Get(Put(c, ch), k) {
      AfterOneMore(s.workers[w], ch, k);
      if i :| i in s.flights && s.flights[i].writer == w && s.flights[i].change.streamId == k && k != ch.streamId {
        assert t.flights[i] == s.flights[i];
      }
    }
  }

  lemma DeliverKeepsHeading(s: State, to: nat, w: nat, c: Configs)
    requires CanDo(s, Deliver(to)) && HeadsFor(s, w, c)
    ensures HeadsFor(Do(s, Deliver(to)), w, c)
  {
    if to == w {
      PutFirst(s.workers[w].local, s.workers[w].inbox);
    }
  }

  lemma StepKeepsHeading(s: State, step: Step, w: nat, c: Configs)
    requires CanDo(s, step) && OnlyWrites([step]) && HeadsFor(s, w, c)
    ensures HeadsFor(Do(s, step), w, PutAll(c, Sent(s, step)))
  {
    assert [step][0] == step;
    hide HeadsFor, Do;
    match step
    case Call(id, writer, ch) => CallKeepsHeading(s, id, writer, ch, w, c);
    case Store(id) => StoreKeepsHeading(s, id, w, c);
    case Publish(id) =>
      PublishKeepsHeading(s, id, w, c);
      assert PutAll(c, [s.flights[id].change]) == Put(c, s.flights[id].change);
    case Deliver(to) => DeliverKeepsHeading(s, to, w, c);
  }

  lemma {:induction false} RunKeepsHeading(s: State, steps: seq<Step>, w: nat, c: Configs)
    requires CanRun(s, steps) && OnlyWrites(steps) && HeadsFor(s, w, c)
    ensures HeadsFor(Run(s, steps), w, PutAll(c, Published(s, steps)))
    decreases |steps|
  {
    if steps != [] {
      var s1, sent := Do(s, steps[0]), Sent(s, steps[0]);
      assert OnlyWrites([steps[0]]) && OnlyWrites(steps[1..]);
      StepKeepsHeading(s, steps[0], w, c);
      hide HeadsFor, Do;
      RunKeepsHeading(s1, steps[1..], w, PutAll(c, sent));
      PutAllConcat(c, sent, Published(s1, steps[1..]));
    }
  }

  lemma {:induction false} HashTakesStored(s: State, steps: seq<Step>)
    requires CanRun(s, steps) && OnlyWrites(steps)
    ensures Run(s, steps).hash == PutAll(s.hash, Stored(s, steps))
    ensures |Run(s, steps).workers| == |s.workers|
    decreases |steps|
  {
    if steps != [] {
      var s1 := Do(s, steps[0]);
      assert OnlyWrites(steps[1..]);
      HashTakesStored(s1, steps[1..]);
      if steps[0].Store? {
        var ch := s.flights[steps[0].id].change;
        PutAllConcat(s.hash, [ch], Stored(s1, steps[1..]));
        assert PutAll(s.hash, [ch]) == Put(s.hash, ch);
      } else {
        assert Stored(s, steps) == Stored(s1, steps[1..]);
      }
    }
  }

  predicate StoredFlight(flights: Flights, k: StreamId) {
    exists id :: id in flights && flights[id].stored && flights[id].change.streamId == k
  }

  /** A stream is published in a run exactly if it is stored there, but for the writes between the two. */
  lemma {:induction false} StoredIsPublished(s: State, steps: seq<Step>, k: StreamId)
    requires CanRun(s, steps) && OnlyWrites(steps) && Run(s, steps).flights == map[]
    ensures Touches(Published(s, steps), k) <==> Touches(Stored(s, steps), k) || StoredFlight(s.flights, k)
    decreases |steps|
  {
    if steps == [] {
      assert s.flights == map[];
    } else {
      var s1 := Do(s, steps[0]);
      assert OnlyWrites(steps[1..]);
      StoredIsPublished(s1, steps[1..], k);
      StoredFlightAfter(s, steps[0], k);
      hide Do, StoredFlight;
      if steps[0].Store? {
        TouchesFirst(s.flights[steps[0].id].change, Stored(s1, steps[1..]), k);
      } else {
        assert Stored(s, steps) == Stored(s1, steps[1..]);
      }
      if steps[0].Publish? {
        TouchesFirst(s.flights[steps[0].id].change, Published(s1, steps[1..]), k);
      } else {
        assert Published(s, steps) == Published(s1, steps[1..]);
      }
    }
  }

  lemma TouchesFirst(ch: Change, chs: seq<Change>, k: StreamId)
    ensures Touches([ch] + chs, k) <==> ch.streamId == k || Touches(chs, k)
  {
    assert ([ch] + chs)[0] == ch;
    if i :| 0 <= i < |chs| && chs[i].streamId == k {
      assert ([ch] + chs)[i + 1] == chs[i];
    }
  }

  lemma StoredFlightAfter(s: State, step: Step, k: StreamId)
    requires CanDo(s, step) && OnlyWrites([step])
    ensures step.Store? ==> (StoredFlight(Do(s, step).flights, k) <==>
                             s.flights[step.id].change.streamId == k || StoredFlight(s.flights, k))
    ensures step.Publish? ==> (StoredFlight(s.flights, k) <==>
                               s.flights[step.id].change.streamId == k || StoredFlight(Do(s, step).flights, k))
    ensures !step.Store? && !step.Publish? ==> (StoredFlight(s.flights, k) <==> StoredFlight(Do(s, step).flights, k))
  {
    assert [step][0] == step;
    var f, g := s.flights, Do(s, step).flights;
    if i :| i in f && f[i].stored && f[i].change.streamId == k && i in g {
      assert g[i] == f[i];
    }
    if i :| i in g && g[i].stored && g[i].change.streamId == k && i in f && !step.Store? {
      assert g[i] == f[i];
    }
    if step.Store? {
      assert g[step.id].stored;
    }
  }

  /** However the writes overlap: once all have been published and taken, the hash is what the writes made of it in the
      order it took them, and the map of a worker that listened is what they made, in the order of the channel, of what
      it was heading for at the start. */
  lemma QuietMaps(s: State, steps: seq<Step>, w: nat, c: Configs)
    requires CanRun(s, steps) && OnlyWrites(steps) && Quiet(Run(s, steps)) && HeadsFor(s, w, c)
    ensures var t := Run(s, steps);
            t.hash == PutAll(s.hash, Stored(s, steps)) &&
            w < |t.workers| && t.workers[w].local == PutAll(c, Published(s, steps))
  {
    HashTakesStored(s, steps);
    RunKeepsHeading(s, steps, w, c);
    var t := Run(s, steps);
    forall k: StreamId ensures Get(t.workers[w].local, k) == Get(PutAll(c, Published(s, steps)), k) {
      assert !WritesTo(t.flights, w, k);
      assert Eventually(t.workers[w], k) == Get(t.workers[w].local, k);
    }
    SameMaps(t.workers[w].local, PutAll(c, Published(s, steps)));
  }

  /** From workers that agree with the hash, any run of writes leaves them agreeing with it if and only if, on every
      stream, the last change the hash took and the last change the channel carried leave the same value. */
  lemma OverlappingWritersAgreeIff(s: State, steps: seq<Step>, w: nat)
    requires Consistent(s) && s.flights == map[] && w < |s.workers|
    requires CanRun(s, steps) && OnlyWrites(steps) && Quiet(Run(s, steps))
    ensures var t := Run(s, steps);
            w < |t.workers| &&
            (t.workers[w].local == t.hash <==>
             forall k: StreamId :: LastLeft(Stored(s, steps), k) == LastLeft(Published(s, steps), k))
  {
    assert HeadsFor(s, w, s.hash) by {
      assert Yields(s, w);
    }
    QuietMaps(s, steps, w, s.hash);
    var a, b := Stored(s, steps), Published(s, steps);
    forall k: StreamId
      ensures Get(PutAll(s.hash, a), k) == Get(PutAll(s.hash, b), k) <==> LastLeft(a, k) == LastLeft(b, k)
    {
      SameStreamsWritten(s, steps, k);
      LastLeftDecides(s.hash, a, k);
      LastLeftDecides(s.hash, b, k);
    }
    AgreeingMaps(PutAll(s.hash, b), PutAll(s.hash, a), a, b);
  }

  lemma SameStreamsWritten(s: State, steps: seq<Step>, k: StreamId)
    requires CanRun(s, steps) && OnlyWrites(steps) && Run(s, steps).flights == map[] && s.flights == map[]
    ensures Touches(Published(s, steps), k) <==> Touches(Stored(s, steps), k)
  {
    StoredIsPublished(s, steps, k);
    assert !StoredFlight(s.flights, k);
  }

  lemma AgreeingMaps(x: Configs, y: Configs, a: seq<Change>, b: seq<Change>)
    requires forall k: StreamId :: Get(y, k) == Get(x, k) <==> LastLeft(a, k) == LastLeft(b, k)
    ensures x == y <==> forall k: StreamId :: LastLeft(a, k) == LastLeft(b, k)
  {
    SameMaps(x, y);
    if x == y {
      forall k: StreamId ensures LastLeft(a, k) == LastLeft(b, k) {
        assert Get(y, k) == Get(x, k);
      }
    } else {
      var k: StreamId :| Get(x, k) != Get(y, k);
      assert LastLeft(a, k) != LastLeft(b, k);
    }
  }

  // ----- Workers that join -----

  /** A worker about to end its install, which no message has reached yet. */
  predicate Joins(s: State, w: nat) {
    CanDo(s, Subscribe(w)) && s.workers[w].inbox == []
  }

  /** What it holds then: what it read from the hash, over what its own calls had made of its map. */
  function Brings(s: State, w: nat): Configs
    requires Joins(s, w)
  {
    s.workers[w].local + s.workers[w].reading.value
  }

  /** Subscribing makes the new worker one of those that yield the hash if and only if what it brings is what the hash
      has now, on every stream that nobody is about to change. */
  lemma SubscribeYieldsIff(s: State, w: nat)
    requires Joins(s, w)
    ensures Yields(Do(s, Subscribe(w)), w) <==>
            forall k: StreamId | Calm(s.flights, w, k) :: Get(Brings(s, w), k) == Get(s.hash, k)
  {
    var t, held := Do(s, Subscribe(w)), Brings(s, w);
    forall k: StreamId ensures Eventually(t.workers[w], k) == Get(held, k) {
      assert PutAll(held, []) == held;
    }
    if Yields(t, w) {
      forall k: StreamId | Calm(s.flights, w, k) ensures Get(held, k) == Get(s.hash, k) {
        assert Eventually(t.workers[w], k) == Get(t.hash, k);
      }
    }
  }

  lemma JoinerHeads(s: State, w: nat)
    requires Joins(s, w)
    ensures Do(s, Subscribe(w)).hash == s.hash && Do(s, Subscribe(w)).flights == s.flights
    ensures HeadsFor(Do(s, Subscribe(w)), w, Brings(s, w))
  {
    assert PutAll(Brings(s, w), []) == Brings(s, w);
  }

  /** The channel ends a stream as the hash does, and the worker started it with the hash's value or has been sent
      one. */
  predicate CaughtUp(held: Configs, hash: Configs, stored: seq<Change>, published: seq<Change>, k: StreamId) {
    LastLeft(stored, k) == LastLeft(published, k) && (Get(held, k) == Get(hash, k) || Touches(published, k))
  }

  /** If no write is under way when it joins, then once the writes after it have come to rest the new worker holds the
      hash if and only if it has caught up with it on every stream. */
  lemma JoinerHoldsTheHashIff(s: State, w: nat, steps: seq<Step>)
    requires Joins(s, w) && s.flights == map[]
    requires var t := Do(s, Subscribe(w)); CanRun(t, steps) && OnlyWrites(steps) && Quiet(Run(t, steps))
    ensures var t := Do(s, Subscribe(w));
            var u := Run(t, steps);
            w < |u.workers| &&
            (u.workers[w].local == u.hash <==>
             forall k: StreamId :: CaughtUp(Brings(s, w), s.hash, Stored(t, steps), Published(t, steps), k))
  {
    var held, t := Brings(s, w), Do(s, Subscribe(w));
    var a, b := Stored(t, steps), Published(t, steps);
    JoinerHeads(s, w);
    hide Do, HeadsFor;
    QuietMaps(t, steps, w, held);
    forall k: StreamId
      ensures Get(PutAll(s.hash, a), k) == Get(PutAll(held, b), k) <==> CaughtUp(held, s.hash, a, b, k)
    {
      SameStreamsWritten(t, steps, k);
      LastLeftDecides(s.hash, a, k);
      LastLeftDecides(held, b, k);
    }
    JoinerMaps(PutAll(held, b), PutAll(s.hash, a), s.hash, held, a, b);
  }

  lemma JoinerMaps(x: Configs, y: Configs, hash: Configs, held: Configs, a: seq<Change>, b: seq<Change>)
    requires forall k: StreamId :: Get(y, k) == Get(x, k) <==> CaughtUp(held, hash, a, b, k)
    ensures x == y <==> forall k: StreamId :: CaughtUp(held, hash, a, b, k)
  {
    SameMaps(x, y);
    if x == y {
      forall k: StreamId ensures CaughtUp(held, hash, a, b, k) {
        assert Get(y, k) == Get(x, k);
      }
    } else {
      var k: StreamId :| Get(x, k) != Get(y, k);
      assert !CaughtUp(held, hash, a, b, k);
    }
  }

  /** Later scans make up for all of it but one thing: whatever was under way when it joined and has been written since,
      once that has come to rest and been scanned, the new worker holds the hash if and only if every stream it is left
      with, of those it brought and those published since, has an entry there. */
  lemma JoinerAfterScansIff(s: State, w: nat, writes: seq<Step>, scans: seq<Step>)
    requires Joins(s, w)
    requires var t := Do(s, Subscribe(w)); CanRun(t, writes) && OnlyWrites(writes) && Quiet(Run(t, writes))
    requires var u := Run(Do(s, Subscribe(w)), writes);
             CurrentReadings(u) && CanRun(u, scans) && OnlyScans(scans) && Reconciles(scans, w)
    ensures var t := Do(s, Subscribe(w));
            var v := Run(Run(t, writes), scans);
            w < |v.workers| && v.hash == PutAll(s.hash, Stored(t, writes)) &&
            (v.workers[w].local == v.hash <==> PutAll(Brings(s, w), Published(t, writes)).Keys <= v.hash.Keys)
  {
    var t := Do(s, Subscribe(w));
    JoinerHeads(s, w);
    hide Do, HeadsFor;
    QuietMaps(t, writes, w, Brings(s, w));
    ScanRepairsWhatTheHashHas(Run(t, writes), scans, w);
    ScansOverlayTheHash(Run(t, writes), scans, w);
  }

  /** In particular, where nothing is written any more and the map was empty: if and only if every stream it read on
      joining still has an entry. */
  lemma FreshJoinerAfterScansIff(s: State, w: nat, scans: seq<Step>)
    requires Joins(s, w) && s.workers[w].local == map[] && Quiet(Do(s, Subscribe(w)))
    requires var t := Do(s, Subscribe(w));
             CurrentReadings(t) && CanRun(t, scans) && OnlyScans(scans) && Reconciles(scans, w)
    ensures var v := Run(Do(s, Subscribe(w)), scans);
            w < |v.workers| && (v.workers[w].local == v.hash <==> s.workers[w].reading.value.Keys <= s.hash.Keys)
  {
    var t := Do(s, Subscribe(w));
    assert CanRun(t, []) && Run(t, []) == t && Published(t, []) == [] && Stored(t, []) == [];
    assert map[] + s.workers[w].reading.value == s.workers[w].reading.value;
    JoinerAfterScansIff(s, w, [], scans);
  }
}
