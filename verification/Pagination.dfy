/** The client's page iterator over a listing that is served by offset slices. */
module Pagination {
  import opened Options

  function Min(a: int, b: int): int {
    if a < b then a else b
  }

  function Max(a: int, b: int): int {
    if a > b then a else b
  }

  /** The position of the first item of a page. */
  function Offset(page: int, limit: int): int {
    (page - 1) * limit
  }

  lemma PagesAdjoin(page: int, limit: int)
    ensures Offset(page + 1, limit) == Offset(page, limit) + limit
  {
  }

  lemma OffsetsGrow(page: int, later: int, limit: int)
    requires 1 <= page <= later && limit >= 1
    ensures 0 <= Offset(page, limit) <= Offset(later, limit)
    ensures page < later ==> Offset(page, limit) < Offset(later, limit)
  {
    hide *;
    if page == later {
      OffsetIsNatural(page, limit);
    } else {
      OffsetsGrow(page, later - 1, limit);
      PagesAdjoin(later - 1, limit);
    }
  }

  lemma OffsetIsNatural(page: int, limit: int)
    requires page >= 1 && limit >= 1
    ensures Offset(page, limit) >= 0
  {
  }

  /** A position, cut to the end of the list. */
  function Cut(p: int, n: nat): (r: nat) {
    Max(0, Min(p, n))
  }

  /** What the server answers for one page. */
  function Served<T>(items: seq<T>, page: int, limit: int): seq<T>
    requires page >= 1 && limit >= 1
  {
    OffsetsGrow(page, page + 1, limit);
    items[Cut(Offset(page, limit), |items|)..Cut(Offset(page + 1, limit), |items|)]
  }

  /** The items an iteration is to yield: from the start page on, up to the end of page `maxPages`. */
  function Window<T>(items: seq<T>, start: int, limit: int, maxPages: int): seq<T>
    requires start >= 1 && limit >= 1
  {
    items[From(|items|, start, limit)..Till(|items|, start, limit, maxPages)]
  }

  function From(n: nat, start: int, limit: int): (r: nat)
    ensures r <= n
  {
    Cut(Offset(start, limit), n)
  }

  function Till(n: nat, start: int, limit: int, maxPages: int): (r: nat)
    ensures From(n, start, limit) <= r <= n
  {
    Max(From(n, start, limit), Cut(Offset(maxPages + 1, limit), n))
  }

  datatype Step<T> = Item(value: T) | Done | Failed

  /** Where an iterator stands: the current page was the last one requested, and everything before its unread rest
      has been yielded. */
  ghost predicate Progress<T>(items: seq<T>, start: int, limit: int, maxPages: int, page: int, offset: nat,
                              currentPage: seq<T>, total: Option<int>, taken: nat)
    requires start >= 1 && limit >= 1
  {
    offset <= |currentPage| && start <= page <= Max(start, maxPages + 1) &&
    match total
    case None => page == start && currentPage == [] && taken == 0
    case Some(n) =>
      n == |items| && start < page && currentPage == Served(items, page - 1, limit) &&
      From(n, start, limit) + taken == Cut(Offset(page - 1, limit), n) + offset
  }

  /** The pages from the start page up to before `page` were requested, one after another, none beyond the ceiling and,
      but for the first, none that begins behind the end of a list of `n` items. */
  predicate InOrder(requested: seq<int>, start: int, page: int, limit: int, maxPages: int, n: nat) {
    |requested| == page - start &&
    forall i | 0 <= i < |requested| ::
      requested[i] == start + i <= maxPages && (i > 0 ==> Offset(requested[i], limit) < n)
  }

  lemma OneMoreRequested(requested: seq<int>, start: int, page: int, limit: int, maxPages: int, n: nat)
    requires InOrder(requested, start, page, limit, maxPages, n) && page <= maxPages
    requires page > start ==> Offset(page, limit) < n
    ensures InOrder(requested + [page], start, page + 1, limit, maxPages, n)
  {
    hide Offset;
  }

  /** The total is known from the first page on. */
  lemma TotalIsKnown<T>(items: seq<T>, start: int, limit: int, maxPages: int, page: int, offset: nat,
                        currentPage: seq<T>, total: Option<int>, taken: nat)
    requires start >= 1 && limit >= 1
    requires Progress(items, start, limit, maxPages, page, offset, currentPage, total, taken)
    ensures start <= page && if total.None? then page == start else total.value == |items|
  {
  }

  /** An iteration from `page` yields what this one has yet to yield, but for its next `unread` items. */
  ghost predicate Resumes<T>(items: seq<T>, start: int, limit: int, maxPages: int, page: int, taken: nat, unread: int) {
    start >= 1 && limit >= 1 && page >= 1 && unread >= 0 &&
    var w := Window(items, start, limit, maxPages);
    taken + unread <= |w| && Window(items, page, limit, maxPages) == w[taken + unread..]
  }

  // ----- The four ways a call of `next` can go -----

  /** Past the last page there is nothing left to yield. */
  lemma EndReached<T>(items: seq<T>, start: int, limit: int, maxPages: int, page: int, offset: nat,
                      currentPage: seq<T>, total: Option<int>, taken: nat)
    requires start >= 1 && limit >= 1 && maxPages >= 1
    requires Progress(items, start, limit, maxPages, page, offset, currentPage, total, taken)
    requires offset >= |currentPage|
    requires (total.Some? && Offset(page, limit) >= total.value) || page > maxPages
    ensures taken == |Window(items, start, limit, maxPages)|
  {
    var n := |items|;
    if total.Some? {
      OffsetsGrow(start, page, limit);
      OffsetsGrow(page - 1, page, limit);
      OffsetsGrow(page, maxPages + 1, limit);
    } else {
      OffsetsGrow(maxPages + 1, start, limit);
    }
    hide Offset;
  }

  lemma PageFetched<T>(items: seq<T>, start: int, limit: int, maxPages: int, page: int, offset: nat,
                       currentPage: seq<T>, total: Option<int>, taken: nat)
    requires start >= 1 && limit >= 1 && maxPages >= 1
    requires Progress(items, start, limit, maxPages, page, offset, currentPage, total, taken)
    requires offset >= |currentPage| && page <= maxPages
    ensures Progress(items, start, limit, maxPages, page + 1, 0, Served(items, page, limit), Some(|items|), taken)
    ensures Served(items, page, limit) == [] ==> taken == |Window(items, start, limit, maxPages)|
  {
    OffsetsGrow(start, page, limit);
    OffsetsGrow(page, page + 1, limit);
    OffsetsGrow(page + 1, maxPages + 1, limit);
    if total.Some? {
      OffsetsGrow(page - 1, page, limit);
    }
    hide Offset;
  }

  lemma ItemRead<T>(items: seq<T>, start: int, limit: int, maxPages: int, page: int, offset: nat,
                    currentPage: seq<T>, total: Option<int>, taken: nat)
    requires start >= 1 && limit >= 1 && maxPages >= 1
    requires Progress(items, start, limit, maxPages, page, offset, currentPage, total, taken)
    requires offset < |currentPage|
    ensures var w := Window(items, start, limit, maxPages); taken < |w| && currentPage[offset] == w[taken]
    ensures Progress(items, start, limit, maxPages, page, offset + 1, currentPage, total, taken + 1)
  {
    OffsetsGrow(start, page - 1, limit);
    OffsetsGrow(page - 1, page, limit);
    OffsetsGrow(page, maxPages + 1, limit);
    hide Offset;
  }

  class PaginatedIterator<T> {
    const items: seq<T>
    const limit: int
    const maxPages: int
    const start: int
    var page: int
    var offset: nat
    var currentPage: seq<T>
    var exhausted: bool
    var total: Option<int>
    var aborted: bool
    /** How many items have been yielded, and the pages that were requested. */
    ghost var taken: nat
    ghost var requested: seq<int>

    ghost predicate Valid()
      reads this
    {
      limit >= 1 && maxPages >= 1 && start >= 1 &&
      Progress(items, start, limit, maxPages, page, offset, currentPage, total, taken) &&
      InOrder(requested, start, page, limit, maxPages, |items|) &&
      (exhausted ==> aborted || taken == |Window(items, start, limit, maxPages)|)
    }

    /** `limit`, `startPage` and `maxPages` as the caller gave them, or the defaults. */
    constructor (items: seq<T>, limit: Option<int>, startPage: Option<int>, maxPages: Option<int>)
      ensures Valid() && taken == 0 && requested == [] && !aborted && this.items == items
      ensures this.limit == if limit.Some? then Max(1, limit.value) else 50
      ensures this.start == if startPage.Some? then Max(1, startPage.value) else 1
      ensures this.maxPages == if maxPages.Some? then Max(1, maxPages.value) else 1000
    {
      this.items := items;
      this.limit := Max(1, if limit.Some? then limit.value else 50);
      this.maxPages := Max(1, if maxPages.Some? then maxPages.value else 1000);
      start := Max(1, if startPage.Some? then startPage.value else 1);
      page := start;
      offset, currentPage, exhausted, total, aborted := 0, [], false, None, false;
      taken, requested := 0, [];
    }

    method Abort()
      requires Valid()
      modifies this`aborted
      ensures Valid() && aborted
    {
      aborted := true;
    }

    /** `answered` says whether the request comes back, if there is one. Each item of the window comes once and in
        order; a failed request changes nothing, so the next call asks for the same page again. */
    method Next(answered: bool) returns (r: Step<T>)
      requires Valid()
      modifies this
      ensures Valid() && aborted == old(aborted)
      ensures var w := Window(items, start, limit, maxPages);
              match r
              case Item(x) => !aborted && old(taken) < |w| && x == w[old(taken)] && taken == old(taken) + 1
              case Done => (aborted || taken == |w|) && taken == old(taken)
              case Failed => !answered && !aborted && taken == old(taken) && page == old(page)
    {
      hide InOrder, Window, Served, Progress, Offset, From, Till, Cut, Min, Max;
      if aborted {
        exhausted := true;
        return Done;
      }
      while offset >= |currentPage|
        invariant Valid() && !aborted && taken == old(taken)
        invariant page == old(page) || answered
        decreases offset >= |currentPage|
      {
        if exhausted {
          return Done;
        }
        if total.Some? && Offset(page, limit) >= total.value {
          EndReached(items, start, limit, maxPages, page, offset, currentPage, total, taken);
          exhausted := true;
          return Done;
        }
        if page > maxPages {
          EndReached(items, start, limit, maxPages, page, offset, currentPage, total, taken);
          exhausted := true;
          return Done;
        }
        if !answered {
          return Failed;
        }
        PageFetched(items, start, limit, maxPages, page, offset, currentPage, total, taken);
        TotalIsKnown(items, start, limit, maxPages, page, offset, currentPage, total, taken);
        OneMoreRequested(requested, start, page, limit, maxPages, |items|);
        currentPage := Served(items, page, limit);
        total := Some(|items|);
        requested := requested + [page];
        page := page + 1;
        offset := 0;
        if |currentPage| == 0 {
          exhausted := true;
          return Done;
        }
      }
      ItemRead(items, start, limit, maxPages, page, offset, currentPage, total, taken);
      r := Item(currentPage[offset]);
      offset := offset + 1;
      taken := taken + 1;
    }

    /** The page to resume from, or nothing once exhausted. */
    method GetCursor() returns (r: Option<int>)
      requires Valid()
      ensures r.None? <==> exhausted
      ensures r.Some? ==> r.value == page && Resumes(items, start, limit, maxPages, page, taken, |currentPage| - offset)
    {
      if exhausted {
        return None;
      }
      ResumesBehindThePage(items, start, limit, maxPages, page, offset, currentPage, total, taken);
      r := Some(page);
    }

    /** Every item of the window that is left, unless aborted or unless a request fails: `answered(k)` says whether
        the `k`-th call can reach the server. */
    method ToArray(answered: nat -> bool) returns (out: seq<T>, ok: bool)
      requires Valid() && taken == 0
      modifies this
      ensures Valid() && out <= Window(items, start, limit, maxPages)
      ensures ok && !aborted ==> out == Window(items, start, limit, maxPages)
      ensures (forall k: nat :: answered(k)) ==> ok
    {
      out, ok := [], true;
      ghost var w := Window(items, start, limit, maxPages);
      hide InOrder, Window, Progress;
      var more := true;
      while more
        invariant Valid() && taken == |out| && out <= w && aborted == old(aborted)
        invariant !more ==> (ok ==> aborted || |out| == |w|)
        invariant (forall k: nat :: answered(k)) ==> ok
        decreases more, |w| - |out|
      {
        var r := Next(answered(|out|));
        match r
        case Item(x) => out := out + [x];
        case Done => more := false;
        case Failed => more, ok := false, false;
      }
    }
  }

  /** The default window of a list that fits is the list. */
  lemma WholeList<T>(items: seq<T>, limit: int, maxPages: int)
    requires limit >= 1 && maxPages >= 1 && |items| <= Offset(maxPages + 1, limit)
    ensures Window(items, 1, limit, maxPages) == items
  {
  }

  /** The cursor stands behind the page that was requested last, so resuming there leaves out exactly the unread rest
      of that page. */
  lemma ResumesBehindThePage<T>(items: seq<T>, start: int, limit: int, maxPages: int, page: int, offset: nat,
                                currentPage: seq<T>, total: Option<int>, taken: nat)
    requires start >= 1 && limit >= 1 && maxPages >= 1
    requires Progress(items, start, limit, maxPages, page, offset, currentPage, total, taken)
    ensures Resumes(items, start, limit, maxPages, page, taken, |currentPage| - offset)
  {
    OffsetsGrow(start, page, limit);
    if total.Some? {
      OffsetsGrow(page - 1, page, limit);
      OffsetsGrow(start, page - 1, limit);
      OffsetsGrow(page, maxPages + 1, limit);
    }
    hide Offset;
  }
}
