/** The file-backed dead-letter store: what keys a dead event, and what the chain of writes leaves in the file. */
module DeadLetters {
  import opened Options
  import opened Json

  /** `body` is the whole event object; `streamId` and `id` are read from it. */
  datatype Event = Event(streamId: Str, id: Option<Str>, body: Value)

  predicate Identified(e: Event) {
    e.id.Some? && e.id.value != []
  }

  function Join(streamId: Str, id: Str): Str {
    streamId + [COLON] + id
  }

  /** `digest` is the hash written in hexadecimal. */
  function EventKey(e: Event, digest: Str -> Str): Str {
    if Identified(e) then Join(e.streamId, e.id.value) else digest(Print(e.body))
  }

  ghost predicate IsHex(digest: Str -> Str) {
    forall s :: COLON !in digest(s)
  }

  // ----- Which events share a key -----

  /** Events without an id share a key exactly when they are equal up to key order, as far as the hash is injective
      on what was printed; and they never share one with an event that has an id. */
  lemma AnonymousKeys(a: Event, b: Event, digest: Str -> Str)
    requires a.id == None || a.id == Some([])
    requires Valid(a.body) && Valid(b.body) && IsHex(digest)
    requires digest(Print(a.body)) == digest(Print(b.body)) ==> Print(a.body) == Print(b.body)
    ensures EventKey(a, digest) == EventKey(b, digest) <==>
            (b.id == None || b.id == Some([])) && Equivalent(a.body, b.body)
  {
    if Identified(b) {
      assert EventKey(b, digest)[|b.streamId|] == COLON;
      assert COLON in EventKey(b, digest);
    } else {
      Canonical(a.body, b.body);
    }
  }

  /** An event with an id is keyed by its stream and that id alone, whatever else it holds. */
  lemma IdentifiedKeys(a: Event, b: Event, digest: Str -> Str)
    requires a.id.Some? && a.id.value != [] && b.id.Some? && b.id.value != [] && a.streamId == b.streamId
    ensures EventKey(a, digest) == EventKey(b, digest) <==> a.id == b.id
    ensures EventKey(a, digest)[..|a.streamId|] == a.streamId && EventKey(a, digest)[|a.streamId|] == 0x3A
  {
    OneStreamIdsDecide(a.streamId, a.id.value, b.id.value);
  }

  /** A stream whose name continues another's after a colon. */
  predicate Continues(longer: Str, shorter: Str) {
    |shorter| < |longer| && longer[..|shorter| + 1] == shorter + [COLON]
  }

  /** Two streams can share a key exactly when one's name continues the other's after a colon. */
  lemma StreamsShareAKey(a: Str, b: Str)
    requires a != b
    ensures (exists i: Str, j: Str :: i != [] && j != [] && Join(a, i) == Join(b, j))
            <==> Continues(a, b) || Continues(b, a)
  {
    if i: Str, j: Str :| i != [] && j != [] && Join(a, i) == Join(b, j) {
      SharedPrefix(a, b, i, j);
    }
    if Continues(a, b) {
      ContinuedSharesAKey(a, b);
    }
    if Continues(b, a) {
      ContinuedSharesAKey(b, a);
    }
  }

  lemma SharedPrefix(a: Str, b: Str, i: Str, j: Str)
    requires a != b && Join(a, i) == Join(b, j)
    ensures Continues(a, b) || Continues(b, a)
  {
    var k := Join(a, i);
    assert a == k[..|a|] && b == k[..|b|];
    assert k[|a|] == COLON && k[|b|] == COLON;
    assert |a| < |b| ==> b[..|a| + 1] == k[..|a| + 1] && k[..|a| + 1] == k[..|a|] + [k[|a|]];
    assert |b| < |a| ==> a[..|b| + 1] == k[..|b| + 1] && k[..|b| + 1] == k[..|b|] + [k[|b|]];
  }

  lemma ContinuedSharesAKey(longer: Str, shorter: Str)
    requires Continues(longer, shorter)
    ensures exists i: Str, j: Str :: i != [] && j != [] && Join(longer, i) == Join(shorter, j)
    ensures exists i: Str, j: Str :: i != [] && j != [] && Join(shorter, i) == Join(longer, j)
  {
    var rest := longer[|shorter| + 1..];
    var i: Str := [COLON];
    var j := rest + [COLON] + i;
    assert longer == longer[..|shorter| + 1] + rest;
    assert Join(longer, i) == Join(shorter, j);
  }

  /** Names without a colon, such as decimal ids, never share a key. */
  lemma PlainNamesNeverShare(a: Str, b: Str, i: Str, j: Str)
    requires a != b && COLON !in a && COLON !in b
    ensures Join(a, i) != Join(b, j)
  {
    ContinuedHasAColon(a, b);
    ContinuedHasAColon(b, a);
    StreamsShareAKey(a, b);
    assert Join(a, i) == Join(b, j) ==> Join(a, i + [COLON]) == Join(b, j + [COLON]) by {
      assert Join(a, i + [COLON]) == Join(a, i) + [COLON] && Join(b, j + [COLON]) == Join(b, j) + [COLON];
    }
  }

  lemma ContinuedHasAColon(longer: Str, shorter: Str)
    ensures Continues(longer, shorter) ==> COLON in longer
  {
    if Continues(longer, shorter) {
      assert longer[..|shorter| + 1][|shorter|] == COLON;
    }
  }

  /** Within one stream the id decides. */
  lemma OneStreamIdsDecide(streamId: Str, i: Str, j: Str)
    ensures Join(streamId, i) == Join(streamId, j) <==> i == j
  {
    assert Join(streamId, i)[|streamId| + 1..] == i;
    assert Join(streamId, j)[|streamId| + 1..] == j;
  }

  // ----- The chain of writes -----

  datatype Record = Record(streamId: Str, event: Event, error: Str, attempts: nat, timestamp: int)

  /** One call of `record`. `stored` says whether its read and its write of the file both succeeded. */
  datatype Call = Call(event: Event, error: Str, attempts: nat, timestamp: int, stored: bool)

  type File = map<Str, Record>

  function Write(file: File, c: Call, digest: Str -> Str): File {
    var key := EventKey(c.event, digest);
    if !c.stored then file
    else if key in file then
      file[key := file[key].(error := c.error, attempts := c.attempts, timestamp := c.timestamp)]
    else file[key := Record(c.event.streamId, c.event, c.error, c.attempts, c.timestamp)]
  }

  function WriteAll(file: File, calls: seq<Call>, digest: Str -> Str): File {
    if calls == [] then file
    else Write(WriteAll(file, calls[..|calls| - 1], digest), calls[|calls| - 1], digest)
  }

  predicate Hits(c: Call, key: Str, digest: Str -> Str) {
    c.stored && EventKey(c.event, digest) == key
  }

  predicate IsFirst(calls: seq<Call>, key: Str, i: nat, digest: Str -> Str) {
    i < |calls| && Hits(calls[i], key, digest) && forall k | 0 <= k < i :: !Hits(calls[k], key, digest)
  }

  predicate IsLast(calls: seq<Call>, key: Str, i: nat, digest: Str -> Str) {
    i < |calls| && Hits(calls[i], key, digest) && forall k | i < k < |calls| :: !Hits(calls[k], key, digest)
  }

  lemma FirstAndLastGrow(calls: seq<Call>, key: Str, i: nat, j: nat, digest: Str -> Str)
    requires calls != [] && IsFirst(calls[..|calls| - 1], key, i, digest) &&
            IsLast(calls[..|calls| - 1], key, j, digest)
    ensures var n := |calls| - 1;
            IsFirst(calls, key, i, digest) && IsLast(calls, key, if Hits(calls[n], key, digest) then n else j, digest)
  {
    var n := |calls| - 1;
    assert forall k | 0 <= k < n :: calls[..n][k] == calls[k];
  }

  /** The file holds one record for each key some stored call had, with the event of the first such call and the
      error, attempts and time of the last; a call that could not be stored leaves no trace and stops no other. */
  lemma {:induction false} FirstEventLastError(calls: seq<Call>, key: Str, digest: Str -> Str)
    ensures var file := WriteAll(map[], calls, digest);
            (key in file <==> exists i :: 0 <= i < |calls| && Hits(calls[i], key, digest)) &&
            (key in file ==> exists i: nat, j: nat ::
               IsFirst(calls, key, i, digest) && IsLast(calls, key, j, digest) &&
               file[key] == Record(calls[i].event.streamId, calls[i].event,
                                   calls[j].error, calls[j].attempts, calls[j].timestamp))
  {
    if calls != [] {
      var n := |calls| - 1;
      var before := calls[..n];
      FirstEventLastError(before, key, digest);
      var was := WriteAll(map[], before, digest);
      assert forall k | 0 <= k < n :: before[k] == calls[k];
      if key in was {
        var i: nat, j: nat :|
          IsFirst(before, key, i, digest) && IsLast(before, key, j, digest) &&
          was[key] == Record(before[i].event.streamId, before[i].event,
                             before[j].error, before[j].attempts, before[j].timestamp);
        FirstAndLastGrow(calls, key, i, j, digest);
        hide IsFirst, IsLast, Hits;
      } else if Hits(calls[n], key, digest) {
        assert IsFirst(calls, key, n, digest) && IsLast(calls, key, n, digest);
      }
    }
  }

  /** The store: calls run one after another on the chain, whatever became of the ones before. */
  class FileDeadLetterStore {
    const digest: Str -> Str
    var file: File
    ghost var calls: seq<Call>

    ghost predicate Valid()
      reads this
    {
      file == WriteAll(map[], calls, digest)
    }

    constructor (digest: Str -> Str)
      ensures Valid() && calls == [] && this.digest == digest
    {
      this.digest := digest;
      file := map[];
      calls := [];
    }

    /** `readable` and `writable` say what the file system answers; `ok` whether the call's promise resolves. */
    method RecordDead(event: Event, error: Str, attempts: nat, now: int, readable: bool, writable: bool)
      returns (ok: bool)
      requires Valid()
      modifies this
      ensures Valid() && ok == (readable && writable)
      ensures calls == old(calls) + [Call(event, error, attempts, now, ok)]
    {
      ghost var c := Call(event, error, attempts, now, readable && writable);
      assert (calls + [c])[..|calls|] == calls;
      calls := calls + [c];
      ok := false;
      if readable {
        var records := file;
        var key := EventKey(event, digest);
        if key in records {
          records := records[key := records[key].(error := error, attempts := attempts, timestamp := now)];
        } else {
          records := records[key := Record(event.streamId, event, error, attempts, now)];
        }
        if writable {
          file := records;
          ok := true;
        }
      }
    }
  }
}
