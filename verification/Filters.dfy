/** Filter configurations per stream, the changes made to them, and their form on the wire. */
module Filters {
  import opened Options
  import opened Json

  type StreamId = Str

  /** The event types a stream suppresses. */
  type Config = seq<Str>

  type Configs = map<StreamId, Config>

  datatype Change = Set(streamId: StreamId, config: Config) | Clear(streamId: StreamId)

  function Get(c: Configs, k: StreamId): Option<Config> {
    if k in c then Some(c[k]) else None
  }

  /** What a change leaves for its own stream. */
  function Leaves(ch: Change): Option<Config> {
    match ch
    case Set(_, config) => Some(config)
    case Clear(_) => None
  }

  function Put(c: Configs, ch: Change): Configs {
    match ch
    case Set(k, config) => c[k := config]
    case Clear(k) => c - {k}
  }

  function PutAll(c: Configs, chs: seq<Change>): Configs {
    if chs == [] then c else Put(PutAll(c, chs[..|chs| - 1]), chs[|chs| - 1])
  }

  predicate Touches(chs: seq<Change>, k: StreamId) {
    exists i :: 0 <= i < |chs| && chs[i].streamId == k
  }

  predicate IsLast(chs: seq<Change>, k: StreamId, i: nat) {
    i < |chs| && chs[i].streamId == k && forall j | i < j < |chs| :: chs[j].streamId != k
  }

  /** The last change to a stream wins; a stream without one keeps what it had. */
  lemma {:induction false} LastWriterWins(c: Configs, chs: seq<Change>, k: StreamId)
    ensures !Touches(chs, k) ==> Get(PutAll(c, chs), k) == Get(c, k)
    ensures forall i: nat | IsLast(chs, k, i) :: Get(PutAll(c, chs), k) == Leaves(chs[i])
  {
    if chs != [] {
      var n := |chs| - 1;
      LastWriterWins(c, chs[..n], k);
      assert !Touches(chs, k) ==> !Touches(chs[..n], k);
      forall i: nat | IsLast(chs, k, i) ensures Get(PutAll(c, chs), k) == Leaves(chs[i]) {
        assert chs[n].streamId != k ==> IsLast(chs[..n], k, i);
      }
    }
  }

  lemma {:induction false} LastTouch(chs: seq<Change>, k: StreamId) returns (i: nat)
    requires Touches(chs, k)
    ensures IsLast(chs, k, i)
  {
    var n := |chs| - 1;
    if chs[n].streamId == k {
      i := n;
    } else {
      var j :| 0 <= j < |chs| && chs[j].streamId == k;
      assert chs[..n][j].streamId == k;
      i := LastTouch(chs[..n], k);
    }
  }

  lemma SameMaps(a: Configs, b: Configs)
    ensures (forall k: StreamId :: Get(a, k) == Get(b, k)) <==> a == b
  {
    if forall k: StreamId :: Get(a, k) == Get(b, k) {
      forall k: StreamId ensures k in a <==> k in b {
        assert Get(a, k) == Get(b, k);
      }
      forall k: StreamId | k in a ensures a[k] == b[k] {
        assert Get(a, k) == Get(b, k);
      }
    }
  }

  lemma PutAllSnoc(c: Configs, chs: seq<Change>, ch: Change)
    ensures PutAll(c, chs + [ch]) == Put(PutAll(c, chs), ch)
  {
    assert (chs + [ch])[..|chs|] == chs;
  }

  lemma {:induction false} PutAllConcat(c: Configs, chs: seq<Change>, more: seq<Change>)
    ensures PutAll(c, chs + more) == PutAll(PutAll(c, chs), more)
  {
    if more == [] {
      assert chs + more == chs;
    } else {
      var n := |more| - 1;
      PutAllConcat(c, chs, more[..n]);
      PutAllSnoc(c, chs + more[..n], more[n]);
      assert chs + more == chs + more[..n] + [more[n]];
    }
  }

  /** Whether an event passes, by the configuration of its stream; `eventType` is absent unless it is a text. */
  predicate Allows(config: Option<Config>, eventType: Option<Str>) {
    config.None? || eventType.None? || eventType.value !in config.value
  }

  // ----- The wire form -----

  const STREAM_ID: Str := [0x73, 0x74, 0x72, 0x65, 0x61, 0x6D, 0x49, 0x64]
  const CONFIG: Str := [0x63, 0x6F, 0x6E, 0x66, 0x69, 0x67]
  const FROM: Str := [0x66, 0x72, 0x6F, 0x6D]
  const BLOCKED: Str := [0x62, 0x6C, 0x6F, 0x63, 0x6B, 0x65, 0x64, 0x45, 0x76, 0x65, 0x6E, 0x74,
                         0x54, 0x79, 0x70, 0x65, 0x73]

  function Ascii(s: string): Str
    requires forall i | 0 <= i < |s| :: s[i] < 128 as char
  {
    seq(|s|, i requires 0 <= i < |s| => s[i] as int)
  }

  lemma FieldNames()
    ensures STREAM_ID == Ascii("streamId") && CONFIG == Ascii("config") && FROM == Ascii("from")
    ensures BLOCKED == Ascii("blockedEventTypes")
  {
  }

  /** A member of an object, if it has it. */
  function Field(v: Json.Value, key: Str): Option<Json.Value> {
    if v.Object? && key in KeysOf(v.members) then Some(At(v, key)) else None
  }

  function Payload(ch: Change, from: Str): Json.Value {
    Object([Member(STREAM_ID, Text(ch.streamId)),
            Member(CONFIG, match ch
                           case Set(_, config) => Object([Member(BLOCKED, List(Texts(config)))])
                           case Clear(_) => Null),
            Member(FROM, Text(from))])
  }

  function Texts(ss: seq<Str>): (vs: seq<Json.Value>)
    ensures |vs| == |ss| && forall i | 0 <= i < |ss| :: vs[i] == Text(ss[i])
  {
    if ss == [] then [] else [Text(ss[0])] + Texts(ss[1..])
  }

  predicate AllTexts(vs: seq<Json.Value>) {
    forall i | 0 <= i < |vs| :: vs[i].Text?
  }

  function Strings(vs: seq<Json.Value>): (ss: seq<Str>)
    requires AllTexts(vs)
    ensures |ss| == |vs| && forall i | 0 <= i < |vs| :: vs[i] == Text(ss[i])
  {
    if vs == [] then [] else [vs[0].s] + Strings(vs[1..])
  }

  /** What a received payload means; nothing for one that is not a change. */
  function Parse(v: Json.Value): Option<Change> {
    var id, config := Field(v, STREAM_ID), Field(v, CONFIG);
    if id.None? || !id.value.Text? || config.None? then None
    else if config.value.Null? then Some(Clear(id.value.s))
    else
      var blocked := Field(config.value, BLOCKED);
      if blocked.Some? && blocked.value.List? && AllTexts(blocked.value.items)
      then Some(Set(id.value.s, Strings(blocked.value.items)))
      else None
  }

  lemma FieldOfHead(ms: seq<Member>, key: Str)
    requires ms != []
    ensures Field(Object(ms), key) ==
            if ms[0].key == key then Some(ms[0].value) else Field(Object(ms[1..]), key)
  {
    assert KeysOf(ms) == [ms[0].key] + KeysOf(ms[1..]);
  }

  /** Every change survives the wire, whoever sends it. */
  lemma WireKeepsChanges(ch: Change, from: Str)
    ensures Parse(Payload(ch, from)) == Some(ch)
  {
    PayloadFields(ch, from);
    if ch.Set? {
      FieldOfHead([Member(BLOCKED, List(Texts(ch.config)))], BLOCKED);
      assert Strings(Texts(ch.config)) == ch.config;
    }
    hide Payload, Field, Texts, Strings;
  }

  lemma PayloadFields(ch: Change, from: Str)
    ensures Field(Payload(ch, from), STREAM_ID) == Some(Text(ch.streamId))
    ensures Field(Payload(ch, from), CONFIG)
            == Some(if ch.Set? then Object([Member(BLOCKED, List(Texts(ch.config)))]) else Null)
  {
    var ms := Payload(ch, from).members;
    hide Texts, Field, KeysOf;
    FieldOfHead(ms, STREAM_ID);
    FieldOfHead(ms, CONFIG);
    FieldOfHead(ms[1..], CONFIG);
    assert STREAM_ID != CONFIG by { assert STREAM_ID[0] != CONFIG[0]; }
  }

  /** A payload is taken for a clear only when it says so outright: a missing or damaged configuration clears
      nothing. */
  lemma OnlyNullClears(v: Json.Value)
    ensures Parse(v).Some? && Parse(v).value.Clear? <==>
            (exists id: Str :: Field(v, STREAM_ID) == Some(Text(id))) && Field(v, CONFIG) == Some(Null)
  {
  }
}
