/** Keyset paging over the pending events: the server's cursor, the worker's poll loop, and inserts in between. */
module Keyset {
  import opened Options

  /** A stored event; `micros` is its timestamp as the table keeps it. */
  datatype Row = Row(micros: int, id: int)

  /** A cursor as it travels: its timestamp is written with milliseconds only. */
  datatype Cursor = Cursor(millis: int, id: int)

  predicate Before(a: Row, b: Row) {
    a.micros < b.micros || (a.micros == b.micros && a.id < b.id)
  }

  /** The table in (timestamp, id) order; ids are unique, so no two rows tie. */
  predicate Ordered(table: seq<Row>) {
    forall i, j | 0 <= i < j < |table| :: Before(table[i], table[j])
  }

  /** `(timestamp, id) > (cursor.timestamp, cursor.id)`. */
  predicate After(r: Row, c: Option<Cursor>) {
    c.None? || Before(Row(c.value.millis * 1000, c.value.id), r)
  }

  function RowsAfter(table: seq<Row>, c: Option<Cursor>): (rest: seq<Row>)
    ensures |rest| <= |table|
  {
    if table == [] then []
    else
      (if After(table[0], c) then [table[0]] else []) + RowsAfter(table[1..], c)
  }

  function Min(a: int, b: int): int {
    if a < b then a else b
  }

  function Max(a: int, b: int): int {
    if a > b then a else b
  }

  datatype Page = Page(data: seq<Row>, next: Option<Cursor>)

  function CursorOf(r: Row): Cursor {
    Cursor(r.micros / 1000, r.id)
  }

  function GetPending(table: seq<Row>, limit: nat, c: Option<Cursor>): Page
    requires limit >= 1
  {
    var rest := RowsAfter(table, c);
    var data := rest[..Min(limit, |rest|)];
    Page(data, if |data| < limit then None else Some(CursorOf(data[|data| - 1])))
  }

  /** What the controller makes of the requested limit. */
  function Clamp(limit: int): (r: nat)
    ensures 1 <= r <= 1000
    ensures 1 <= limit <= 1000 <==> r == limit
  {
    Min(Max(1, limit), 1000)
  }

  predicate Whole(r: Row) {
    r.micros % 1000 == 0
  }

  // ----- What a cursor leaves -----

  lemma {:induction false} RowsAfterAre(table: seq<Row>, c: Option<Cursor>)
    ensures forall r :: r in RowsAfter(table, c) <==> r in table && After(r, c)
  {
    if table != [] {
      assert table == [table[0]] + table[1..];
      RowsAfterAre(table[1..], c);
    }
  }

  lemma {:induction false} RowsAfterNone(table: seq<Row>)
    ensures RowsAfter(table, None) == table
  {
    if table != [] {
      RowsAfterNone(table[1..]);
    }
  }

  lemma BeforeTrans(a: Row, b: Row, c: Row)
    requires Before(a, b) && Before(b, c)
    ensures Before(a, c)
  {
  }

  /** In an ordered table the rows after a cursor are a tail of it. */
  lemma {:induction false} TailAfter(table: seq<Row>, c: Option<Cursor>, k: nat)
    requires Ordered(table) && k <= |table|
    requires forall i | 0 <= i < k :: !After(table[i], c)
    requires k < |table| ==> After(table[k], c)
    ensures RowsAfter(table, c) == table[k..]
  {
    if table == [] {
    } else if k == 0 {
      if |table| > 1 && c.Some? {
        BeforeTrans(Row(c.value.millis * 1000, c.value.id), table[0], table[1]);
      }
      TailAfter(table[1..], c, 0);
    } else {
      TailAfter(table[1..], c, k - 1);
    }
  }

  /** A cursor cut from a whole-millisecond row leaves exactly the rows behind it; any other leaves that row too. */
  lemma CursorLeaves(table: seq<Row>, k: nat)
    requires Ordered(table) && 1 <= k <= |table|
    ensures var c := Some(CursorOf(table[k - 1]));
            if Whole(table[k - 1]) then RowsAfter(table, c) == table[k..] else table[k - 1] in RowsAfter(table, c)
  {
    var c := Some(CursorOf(table[k - 1]));
    if Whole(table[k - 1]) {
      TailAfter(table, c, k);
    } else {
      RowsAfterAre(table, c);
      assert table[k - 1] in table;
    }
  }

  // ----- Following cursors over a fixed table -----

  /** How many rows `n` full pages hold. */
  function Rows(n: nat, limit: nat): nat {
    if n == 0 then 0 else Rows(n - 1, limit) + limit
  }

  /** All rows of the first `n` pages, each asked for with the cursor the one before it gave, and the cursor then;
      a null cursor ends the walk. */
  function Walk(table: seq<Row>, limit: nat, n: nat): (w: Page)
    requires limit >= 1
  {
    if n == 0 then Page([], None)
    else
      var w := Walk(table, limit, n - 1);
      if n > 1 && w.next.None? then w
      else
        var p := GetPending(table, limit, w.next);
        Page(w.data + p.data, p.next)
  }

  /** The rows on which a full page ends. */
  ghost predicate WholeEnds(table: seq<Row>, limit: nat) {
    forall k: nat | 1 <= k && Rows(k, limit) <= |table| :: EndsWhole(table, limit, k)
  }

  predicate EndsWhole(table: seq<Row>, limit: nat, k: nat) {
    1 <= Rows(k, limit) <= |table| ==> Whole(table[Rows(k, limit) - 1])
  }

  /** After `n` pages the walk has given the first `n * limit` rows, and its cursor is null once that is short. */
  predicate Exact(table: seq<Row>, limit: nat, n: nat)
    requires limit >= 1
  {
    var w := Walk(table, limit, n);
    w.data == table[..Min(Rows(n, limit), |table|)] &&
    (n > 0 ==> w.next == if |table| < Rows(n, limit) then None else Some(CursorOf(table[Rows(n, limit) - 1])))
  }

  lemma OnePage(table: seq<Row>, limit: nat, c: Option<Cursor>, k: nat)
    requires limit >= 1 && k <= |table| && RowsAfter(table, c) == table[k..]
    ensures var p := GetPending(table, limit, c);
            table[..k] + p.data == table[..Min(k + limit, |table|)] &&
            p.next == if |table| < k + limit then None else Some(CursorOf(table[k + limit - 1]))
  {
    assert table[..k] + table[k..][..Min(limit, |table| - k)] == table[..Min(k + limit, |table|)];
  }

  lemma WalkStep(table: seq<Row>, limit: nat, n: nat)
    requires limit >= 1
    ensures Walk(table, limit, 0) == Page([], None)
    ensures n >= 1 && Walk(table, limit, n).next.None? ==> Walk(table, limit, n + 1) == Walk(table, limit, n)
    ensures var w := Walk(table, limit, n);
            var p := GetPending(table, limit, w.next);
            n == 0 || w.next.Some? ==> Walk(table, limit, n + 1) == Page(w.data + p.data, p.next)
  {
    hide GetPending;
  }

  lemma StartIsExact(table: seq<Row>, limit: nat)
    requires limit >= 1
    ensures Exact(table, limit, 0)
  {
  }

  lemma LeavesTheRest(table: seq<Row>, limit: nat, n: nat)
    requires limit >= 1 && Ordered(table) && Exact(table, limit, n) && Rows(n, limit) <= |table|
    requires n > 0 ==> EndsWhole(table, limit, n)
    ensures RowsAfter(table, Walk(table, limit, n).next) == table[Rows(n, limit)..]
  {
    ExactCursor(table, limit, n);
    hide Exact, Walk, RowsAfter, Ordered, CursorOf;
    if n == 0 {
      RowsAfterNone(table);
      assert Rows(0, limit) == 0 && table[0..] == table;
    } else {
      SomeRows(n, limit);
      CursorLeaves(table, Rows(n, limit));
    }
    hide Rows;
  }

  lemma ExactCursor(table: seq<Row>, limit: nat, n: nat)
    requires limit >= 1 && Exact(table, limit, n) && Rows(n, limit) <= |table|
    ensures n == 0 ==> Walk(table, limit, n).next == None
    ensures n > 0 ==> Rows(n, limit) >= 1 && Walk(table, limit, n).next == Some(CursorOf(table[Rows(n, limit) - 1]))
  {
    hide GetPending;
    if n > 0 {
      SomeRows(n, limit);
    }
  }

  lemma SomeRows(n: nat, limit: nat)
    requires n >= 1 && limit >= 1
    ensures Rows(n, limit) >= 1
  {
  }

  lemma EndedStaysExact(table: seq<Row>, limit: nat, n: nat)
    requires limit >= 1 && n >= 1 && Exact(table, limit, n) && |table| < Rows(n, limit)
    ensures Exact(table, limit, n + 1)
  {
    WalkStep(table, limit, n);
    hide Walk;
  }

  lemma NextIsExact(table: seq<Row>, limit: nat, n: nat)
    requires limit >= 1 && Exact(table, limit, n) && Rows(n, limit) <= |table|
    requires RowsAfter(table, Walk(table, limit, n).next) == table[Rows(n, limit)..]
    ensures Exact(table, limit, n + 1)
  {
    WalkStep(table, limit, n);
    OnePage(table, limit, Walk(table, limit, n).next, Rows(n, limit));
    assert Rows(n + 1, limit) == Rows(n, limit) + limit;
    hide Walk, GetPending, RowsAfter, Rows, CursorOf;
  }

  lemma {:induction false} WholeEndsPageExactly(table: seq<Row>, limit: nat, n: nat)
    requires limit >= 1 && Ordered(table)
    requires forall k: nat | 1 <= k < n && Rows(k, limit) <= |table| :: EndsWhole(table, limit, k)
    ensures Exact(table, limit, n)
  {
    if n == 0 {
      StartIsExact(table, limit);
    } else {
      hide Exact, Walk, RowsAfter, Ordered;
      WholeEndsPageExactly(table, limit, n - 1);
      if n > 1 && |table| < Rows(n - 1, limit) {
        EndedStaysExact(table, limit, n - 1);
      } else {
        LeavesTheRest(table, limit, n - 1);
        NextIsExact(table, limit, n - 1);
      }
    }
  }

  /** The page after a broken end begins no later than with that end. */
  lemma BrokenEndComesBack(table: seq<Row>, limit: nat, m: nat)
    requires limit >= 1 && Ordered(table) && 1 <= m <= |table| && !Whole(table[m - 1])
    ensures var p := GetPending(table, limit, Some(CursorOf(table[m - 1])));
            p.data != [] && (m < |table| ==> p.data[0] != table[m])
  {
    var c := Some(CursorOf(table[m - 1]));
    CursorLeaves(table, m);
    FirstAfter(table, c, table[m - 1]);
    assert m < |table| ==> Before(table[m - 1], table[m]);
    assert GetPending(table, limit, c).data[0] == RowsAfter(table, c)[0];
  }

  lemma BrokenEndRepeats(table: seq<Row>, limit: nat, k: nat)
    requires limit >= 1 && Ordered(table) && 1 <= k && Rows(k, limit) <= |table|
    requires !EndsWhole(table, limit, k) && Exact(table, limit, k)
    ensures !Exact(table, limit, k + 1)
  {
    hide GetPending, Walk;
    var m := Rows(k, limit);
    BrokenEndComesBack(table, limit, m);
    WalkStep(table, limit, k);
    var w, v := Walk(table, limit, k), Walk(table, limit, k + 1);
    var p := GetPending(table, limit, w.next);
    assert v.data == w.data + p.data && |w.data| == m;
    assert v.data[m] == p.data[0];
  }

  /** The first row after a cursor stands before any other row after it. */
  lemma {:induction false} FirstAfter(table: seq<Row>, c: Option<Cursor>, r: Row)
    requires Ordered(table) && r in table && After(r, c)
    ensures var rest := RowsAfter(table, c); |rest| > 0 && (rest[0] == r || Before(rest[0], r))
  {
    if !After(table[0], c) {
      assert r in table[1..];
      FirstAfter(table[1..], c, r);
    }
  }

  lemma {:induction false} FirstBrokenEnd(table: seq<Row>, limit: nat, k: nat) returns (first: nat)
    requires limit >= 1 && 1 <= k && Rows(k, limit) <= |table| && !EndsWhole(table, limit, k)
    ensures 1 <= first <= k && Rows(first, limit) <= |table| && !EndsWhole(table, limit, first)
    ensures forall j: nat | 1 <= j < first && Rows(j, limit) <= |table| :: EndsWhole(table, limit, j)
  {
    if j: nat :| 1 <= j < k && Rows(j, limit) <= |table| && !EndsWhole(table, limit, j) {
      first := FirstBrokenEnd(table, limit, j);
    } else {
      first := k;
    }
  }

  /** Following cursors gives the table in order, each row once, exactly when every full page ends on a timestamp of
      whole milliseconds. */
  lemma PagingIsExact(table: seq<Row>, limit: nat)
    requires limit >= 1 && Ordered(table)
    ensures (forall n: nat :: Exact(table, limit, n)) <==> WholeEnds(table, limit)
  {
    if WholeEnds(table, limit) {
      forall n: nat ensures Exact(table, limit, n) {
        WholeEndsPageExactly(table, limit, n);
      }
    } else {
      var k: nat :| 1 <= k && Rows(k, limit) <= |table| && !EndsWhole(table, limit, k);
      var first := FirstBrokenEnd(table, limit, k);
      WholeEndsPageExactly(table, limit, first);
      BrokenEndRepeats(table, limit, first);
    }
  }

  lemma {:induction false} PagesReach(n: nat, limit: nat)
    requires limit >= 1
    ensures Rows(n, limit) >= n
  {
    if n > 0 {
      PagesReach(n - 1, limit);
    }
  }

  /** So with the timestamps the service stamps, the walk ends within `|table| + 1` pages and has given the table. */
  lemma WholeMillisecondsPageOnce(table: seq<Row>, limit: nat)
    requires limit >= 1 && Ordered(table) && forall i | 0 <= i < |table| :: Whole(table[i])
    ensures Walk(table, limit, |table| + 1) == Page(table, None)
  {
    PagingIsExact(table, limit);
    var n := |table| + 1;
    assert Exact(table, limit, n);
    PagesReach(n, limit);
    assert table[..|table|] == table;
  }

  /** Rows that share a millisecond without falling on it: as many as a page holds are given again and again. */
  lemma {:induction false} BurstNeverEnds(table: seq<Row>, limit: nat, millis: int, n: nat)
    requires Ordered(table) && |table| == limit >= 1 && n >= 1
    requires forall i | 0 <= i < limit :: millis * 1000 < table[i].micros < (millis + 1) * 1000
    ensures Walk(table, limit, n).next == Some(Cursor(millis, table[limit - 1].id))
    ensures |Walk(table, limit, n).data| == Rows(n, limit)
  {
    var c := Some(Cursor(millis, table[limit - 1].id));
    WalkStep(table, limit, n - 1);
    RowsAfterNone(table);
    TailAfter(table, c, 0);
    BurstComesWhole(table, limit, None);
    BurstComesWhole(table, limit, c);
    assert CursorOf(table[limit - 1]) == c.value;
    hide Walk, GetPending, RowsAfter, Ordered;
    if n > 1 {
      BurstNeverEnds(table, limit, millis, n - 1);
    }
  }

  lemma BurstComesWhole(table: seq<Row>, limit: nat, c: Option<Cursor>)
    requires |table| == limit >= 1 && RowsAfter(table, c) == table
    ensures GetPending(table, limit, c) == Page(table, Some(CursorOf(table[limit - 1])))
  {
  }

  // ----- Inserts between pages -----

  /** The rows of pages taken from one table after another, from cursor `c` on. */
  function WalkOver(tables: seq<seq<Row>>, limit: nat, c: Option<Cursor>): (w: Page)
    requires limit >= 1
  {
    if tables == [] then Page([], c)
    else
      var p := GetPending(tables[0], limit, c);
      if p.next.None? then p
      else
        var w := WalkOver(tables[1..], limit, p.next);
        Page(p.data + w.data, w.next)
  }

  predicate Within(a: seq<Row>, b: seq<Row>) {
    forall r | r in a :: r in b
  }

  /** Only inserts happen between pages, and every timestamp is whole milliseconds. */
  predicate Growing(tables: seq<seq<Row>>) {
    (forall i | 0 <= i < |tables| :: Ordered(tables[i]) && forall r | r in tables[i] :: Whole(r)) &&
    forall i, j | 0 <= i < j < |tables| :: Within(tables[i], tables[j])
  }

  lemma {:induction false} RowsAfterOrdered(table: seq<Row>, c: Option<Cursor>)
    requires Ordered(table)
    ensures Ordered(RowsAfter(table, c))
  {
    if table != [] {
      RowsAfterOrdered(table[1..], c);
      RowsAfterAre(table[1..], c);
      var rest := RowsAfter(table[1..], c);
      forall i | 0 <= i < |rest| ensures Before(table[0], rest[i]) {
        assert rest[i] in rest;
        var j :| 0 <= j < |table[1..]| && table[1..][j] == rest[i];
        assert table[j + 1] == rest[i];
      }
    }
  }

  /** A page holds the least rows after the cursor: whatever else is after the cursor is after the next one. */
  lemma PageTakesTheLeast(table: seq<Row>, limit: nat, c: Option<Cursor>)
    requires limit >= 1 && Ordered(table) && forall r | r in table :: Whole(r)
    ensures var p := GetPending(table, limit, c);
            Ordered(p.data) && (forall r | r in p.data :: After(r, c) && Whole(r)) &&
            (p.next.None? ==> forall r | r in table && After(r, c) :: r in p.data) &&
            (p.next.Some? ==>
               (forall r | r in p.data :: !After(r, p.next)) &&
               (forall r | r in table && After(r, c) :: r in p.data || After(r, p.next)) &&
               (forall r | After(r, p.next) :: After(r, c) && forall s | s in p.data :: Before(s, r)))
  {
    var rest := RowsAfter(table, c);
    var p := GetPending(table, limit, c);
    RowsAfterOrdered(table, c);
    RowsAfterAre(table, c);
    if p.next.Some? {
      LastOfPage(rest, limit, c);
    }
    hide RowsAfter, Before, Whole;
  }

  /** The last row of a full page separates it from the other rows, and from everything after its cursor. */
  lemma LastOfPage(rest: seq<Row>, limit: nat, c: Option<Cursor>)
    requires 1 <= limit <= |rest| && Ordered(rest) && forall r | r in rest :: After(r, c) && Whole(r)
    ensures var next := Some(CursorOf(rest[limit - 1]));
            (forall r | r in rest[..limit] :: !After(r, next)) &&
            (forall r | r in rest :: r in rest[..limit] || After(r, next)) &&
            (forall r | After(r, next) :: After(r, c) && forall s | s in rest[..limit] :: Before(s, r))
  {
    var last := rest[limit - 1];
    assert last in rest;
    assert Row(last.micros / 1000 * 1000, last.id) == last;
    forall r | r in rest && r !in rest[..limit] ensures Before(last, r) {
      assert rest == rest[..limit] + rest[limit..];
      var j :| limit <= j < |rest| && rest[j] == r;
    }
    forall r | Before(last, r) ensures After(r, c) && forall s | s in rest[..limit] :: Before(s, r) {
      if c.Some? {
        BeforeTrans(Row(c.value.millis * 1000, c.value.id), last, r);
      }
      forall s | s in rest[..limit] ensures Before(s, r) {
        if s != last { BeforeTrans(s, last, r); }
      }
    }
  }

  /** With rows inserted between pages the walk never gives a row twice, and once its cursor is null it has given
      every row that was there, after the starting cursor, when it began. */
  lemma {:induction false} InsertsSkipAndRepeatNothing(tables: seq<seq<Row>>, limit: nat, c: Option<Cursor>)
    requires limit >= 1 && Growing(tables) && tables != []
    ensures var w := WalkOver(tables, limit, c);
            Ordered(w.data) && (forall r | r in w.data :: After(r, c)) &&
            (w.next.None? ==> forall r | r in tables[0] && After(r, c) :: r in w.data) &&
            forall i, j | 0 <= i < j < |w.data| :: w.data[i] != w.data[j]
  {
    OrderedOnce(WalkOver(tables, limit, c).data);
    var p := GetPending(tables[0], limit, c);
    PageTakesTheLeast(tables[0], limit, c);
    if p.next.Some? && |tables| > 1 {
      var more := tables[1..];
      InsertsSkipAndRepeatNothing(more, limit, p.next);
      var w := WalkOver(more, limit, p.next);
      forall r | w.next.None? && r in tables[0] && After(r, c) ensures r in p.data + w.data {
        assert Within(tables[0], tables[1]);
        assert more[0] == tables[1];
      }
      JoinOrdered(p.data, w.data);
    }
  }

  lemma JoinOrdered(a: seq<Row>, b: seq<Row>)
    requires Ordered(a) && Ordered(b) && forall r, s | r in a && s in b :: Before(r, s)
    ensures Ordered(a + b)
  {
    forall i, j | 0 <= i < j < |a + b| ensures Before((a + b)[i], (a + b)[j]) {
      if i < |a| <= j {
        assert a[i] in a && b[j - |a|] in b;
      }
    }
  }

  /** Ordered rows are all different. */
  lemma OrderedOnce(rows: seq<Row>)
    ensures Ordered(rows) ==> forall i, j | 0 <= i < j < |rows| :: rows[i] != rows[j]
  {
    forall i, j | Ordered(rows) && 0 <= i < j < |rows| ensures rows[i] != rows[j] {
      assert Before(rows[i], rows[j]);
    }
  }

  // ----- The worker's poll -----

  /** Whether the loop goes on after page `n`: the server gave a cursor, the page was as long as the worker asked
      for, and the queues, at `depth(n)` after the page was routed, are below the high-watermark. */
  predicate GoesOn(p: Page, batch: nat, depth: int, high: int) {
    p.next.Some? && |p.data| >= batch && depth < high
  }

  /** The first `n` rows, or all of them. */
  function Upto(table: seq<Row>, n: nat): seq<Row> {
    table[..Min(n, |table|)]
  }

  /** The poll has taken `n` pages of the table in order and asks on with `cursor`. */
  ghost predicate Polled(table: seq<Row>, batch: nat, n: nat, routed: seq<Row>, cursor: Option<Cursor>) {
    Walk(table, Clamp(batch), n) == Page(routed, cursor) && (n > 0 ==> cursor.Some?) &&
    routed == Upto(table, Rows(n, Clamp(batch)))
  }

  /** The first `n` pages gave no reason to stop. */
  predicate WentOn(table: seq<Row>, batch: nat, depth: int -> int, high: int, n: nat)
    requires n >= 1
  {
    batch <= 1000 && Rows(n, Clamp(batch)) <= |table| && depth(n - 1) < high
  }

  lemma WentOnMeans(table: seq<Row>, batch: nat, depth: int -> int, high: int, m: nat)
    requires forall n: nat | 1 <= n < m :: WentOn(table, batch, depth, high, n)
    ensures m > 1 ==> batch <= 1000
    ensures forall n: nat | 1 <= n < m :: Rows(n, Clamp(batch)) <= |table|
    ensures forall n: nat | n < m - 1 :: depth(n) < high
    ensures m >= 1 ==>
              (WentOn(table, batch, depth, high, m) <==>
               batch <= 1000 && Rows(m, Clamp(batch)) <= |table| && depth(m - 1) < high)
  {
    assert m > 1 ==> WentOn(table, batch, depth, high, 1);
    forall n: nat | 1 <= n < m ensures Rows(n, Clamp(batch)) <= |table| {
      assert WentOn(table, batch, depth, high, n);
    }
    forall n: nat | n < m - 1 ensures depth(n) < high {
      assert WentOn(table, batch, depth, high, n + 1);
    }
  }

  lemma PolledAtStart(table: seq<Row>, batch: nat)
    ensures Polled(table, batch, 0, [], None) && Upto(table, Rows(0, Clamp(batch))) == []
  {
  }

  lemma NextPage(table: seq<Row>, batch: nat, depth: int -> int, high: int, n: nat, routed: seq<Row>,
                 cursor: Option<Cursor>)
    requires batch >= 1 && Ordered(table) && WholeEnds(table, Clamp(batch))
    requires Polled(table, batch, n, routed, cursor)
    ensures n <= |table|
    ensures var p := GetPending(table, Clamp(batch), cursor);
            routed + p.data == Upto(table, Rows(n + 1, Clamp(batch))) &&
            (GoesOn(p, batch, depth(n), high) <==> WentOn(table, batch, depth, high, n + 1)) &&
            (GoesOn(p, batch, depth(n), high) ==> Polled(table, batch, n + 1, routed + p.data, p.next))
  {
    var limit := Clamp(batch);
    PagesReach(n, limit);
    WholeEndsPageExactly(table, limit, n);
    WholeEndsPageExactly(table, limit, n + 1);
    WalkStep(table, limit, n);
    PageFits(table, limit, cursor);
    hide Walk, GetPending, Ordered, WholeEnds;
  }

  lemma PageFits(table: seq<Row>, limit: nat, c: Option<Cursor>)
    requires limit >= 1
    ensures var p := GetPending(table, limit, c); |p.data| <= limit && (p.next.Some? <==> |p.data| == limit)
  {
  }

  /** One poll. `answered(n)` says whether request `n` comes back, `stopping(n)` whether the worker is shutting down
      before it. The poll takes pages of the table in order, each row once, and stops for one of the reasons given:
      with a batch the controller does not clamp, the worker's short-page test never stops it before the server's
      null cursor does; with a larger one it takes one page. */
  method PollOnce(table: seq<Row>, batch: nat, before: int, depth: int -> int, high: int,
                  answered: int -> bool, stopping: int -> bool)
    returns (routed: seq<Row>, pages: nat)
    requires batch >= 1 && Ordered(table) && WholeEnds(table, Clamp(batch))
    ensures routed == Upto(table, Rows(pages, Clamp(batch)))
    ensures forall n: nat | n < pages :: answered(n) && !stopping(n)
    ensures pages > 1 ==> batch <= 1000
    ensures forall n: nat | 1 <= n < pages :: Rows(n, Clamp(batch)) <= |table|
    ensures forall n: nat | n < pages - 1 :: depth(n) < high
    ensures pages == 0 ==> before >= high || stopping(0) || !answered(0)
    ensures pages > 0 ==>
              before < high &&
              (batch > 1000 || |table| < Rows(pages, Clamp(batch)) || depth(pages - 1) >= high
               || stopping(pages) || !answered(pages))
  {
    hide *;
    routed, pages := [], 0;
    var cursor: Option<Cursor> := None;
    PolledAtStart(table, batch);
    if before >= high {
      return;
    }
    while !stopping(pages)
      invariant Polled(table, batch, pages, routed, cursor)
      invariant routed == Upto(table, Rows(pages, Clamp(batch)))
      invariant forall n: nat | n < pages :: answered(n) && !stopping(n)
      invariant forall n: nat | 1 <= n <= pages :: WentOn(table, batch, depth, high, n)
      decreases |table| + 1 - pages
    {
      NextPage(table, batch, depth, high, pages, routed, cursor);
      if !answered(pages) {
        break;
      }
      var p := GetPending(table, Clamp(batch), cursor);
      routed := routed + p.data;
      pages := pages + 1;
      if !GoesOn(p, batch, depth(pages - 1), high) {
        break;
      }
      cursor := p.next;
    }
    WentOnMeans(table, batch, depth, high, pages);
  }
}
