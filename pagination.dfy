/**
 * The paginator component: the window of page numbers and '...' markers it
 * renders, the guards of its navigation handlers, and the template rules for
 * its visibility and its per-page label.
 */
module Pagination {
  import opened Wrappers

  /** One entry of the rendered window: a page number or the '...' marker. */
  datatype Entry = Page(n: int) | Ellipsis

  /** The events the component emits to its container. */
  datatype PaginationEvent = PageChanged(page: int) | PerPage(count: int)

  /** What the per-page button shows: the word 'all' or the number itself. */
  datatype PerPageLabel = All | Count(n: int)

  /** How many pages are shown on each side of the current one. */
  const Delta := 2
  /** Up to this many pages the window lists every page. */
  const SmallTotal := 5
  /** The per-page count emitted when the chosen one is falsy. */
  const DefaultPerPage := 20

  function Max(a: int, b: int): int { if a >= b then a else b }
  function Min(a: int, b: int): int { if a <= b then a else b }

  /** The pages lo, lo + 1, ..., hi; empty when lo > hi. */
  function Run(lo: int, hi: int): seq<Entry>
    decreases hi - lo
  {
    if lo > hi then [] else Run(lo, hi - 1) + [Page(hi)]
  }

  /** The run has one entry per page, page lo + k standing at index k. */
  lemma {:induction false} RunAt(lo: int, hi: int)
    ensures |Run(lo, hi)| == Max(0, hi - lo + 1)
    ensures forall k :: 0 <= k < |Run(lo, hi)| ==> Run(lo, hi)[k] == Page(lo + k)
    decreases hi - lo
  {
    if lo <= hi {
      RunAt(lo, hi - 1);
    }
  }

  /** First page of the middle run of a long window. */
  function Start(current: int): int { Max(2, current - Delta) }

  /** Last page of the middle run of a long window. */
  function End(current: int, total: int): int { Min(total - 1, current + Delta) }

  /** Whether a long window puts '...' after page 1, and before the last page. */
  predicate LeadingGap(current: int) { Start(current) > 2 }
  predicate TrailingGap(current: int, total: int) { End(current, total) < total - 1 }

  /**
   * The window the component renders for `current` out of `total` pages.
   * `current` is not clamped: the window is computed from whatever it is.
   */
  function Window(current: int, total: int): seq<Entry>
  {
    if total <= SmallTotal then Run(1, total)
    else
      [Page(1)]
      + (if LeadingGap(current) then [Ellipsis] else [])
      + Run(Start(current), End(current, total))
      + (if TrailingGap(current, total) then [Ellipsis] else [])
      + [Page(total)]
  }

  /** The computed `visiblePages`: built by pushing entries in two loops. */
  method VisiblePages(current: int, total: int) returns (pages: seq<Entry>)
    ensures pages == Window(current, total)
  {
    pages := [];
    if total <= SmallTotal {
      var i := 1;
      while i <= total
        invariant 1 <= i <= if total >= 1 then total + 1 else 1
        invariant pages == Run(1, i - 1)
      {
        pages := pages + [Page(i)];
        i := i + 1;
      }
    } else {
      var start := Max(2, current - Delta);
      var end := Min(total - 1, current + Delta);
      pages := pages + [Page(1)];
      if start > 2 {
        pages := pages + [Ellipsis];
      }
      ghost var head := pages;
      var i := start;
      while i <= end
        invariant start <= i <= if start <= end then end + 1 else start
        invariant pages == head + Run(start, i - 1)
      {
        pages := pages + [Page(i)];
        i := i + 1;
      }
      ghost var body := pages;
      if end < total - 1 {
        pages := pages + [Ellipsis];
      }
      pages := pages + [Page(total)];
      LongWindowParts(current, total, head, body, pages);
    }
  }

  /** The pieces pushed by the long branch of `VisiblePages` make up the window. */
  lemma LongWindowParts(current: int, total: int, head: seq<Entry>, body: seq<Entry>, pages: seq<Entry>)
    requires total > SmallTotal
    requires head == [Page(1)] + (if Start(current) > 2 then [Ellipsis] else [])
    requires body == head + Run(Start(current), End(current, total))
    requires pages == body + (if End(current, total) < total - 1 then [Ellipsis] else []) + [Page(total)]
    ensures pages == Window(current, total)
  {
  }

  /** Entries taken by the '...' after page 1 (0 or 1), the run, and the '...' before the last page. */
  function Lead(current: int): nat { if LeadingGap(current) then 1 else 0 }
  function RunLength(current: int, total: int): nat { Max(0, End(current, total) - Start(current) + 1) }
  function Trail(current: int, total: int): nat { if TrailingGap(current, total) then 1 else 0 }

  /** Where each part of a long window sits: a page, then an optional '...', the run, an optional '...', the last page. */
  lemma {:induction false} LongWindowAt(current: int, total: int)
    requires total > SmallTotal
    ensures |Window(current, total)| == 2 + Lead(current) + RunLength(current, total) + Trail(current, total)
    ensures Window(current, total)[0] == Page(1)
    ensures Window(current, total)[|Window(current, total)| - 1] == Page(total)
    ensures Lead(current) == 1 ==> Window(current, total)[1] == Ellipsis
    ensures Trail(current, total) == 1 ==>
              Window(current, total)[1 + Lead(current) + RunLength(current, total)] == Ellipsis
    ensures forall j :: 1 + Lead(current) <= j < 1 + Lead(current) + RunLength(current, total) ==>
              Window(current, total)[j] == Page(Start(current) + j - 1 - Lead(current))
  {
    var w := Window(current, total);
    var s, e := Start(current), End(current, total);
    var A: seq<Entry> := if LeadingGap(current) then [Ellipsis] else [];
    var B: seq<Entry> := if TrailingGap(current, total) then [Ellipsis] else [];
    var R := Run(s, e);
    assert w == [Page(1)] + A + R + B + [Page(total)];
    RunAt(s, e);
    forall j | 1 + |A| <= j < 1 + |A| + |R|
      ensures w[j] == Page(s + j - 1 - |A|)
    {
      assert w[j] == R[j - 1 - |A|];
    }
  }

  /**
   * Every index of a long window is the first page, the last page, a '...'
   * or a page of the run; a page of the run lies strictly between 1 and
   * `total`, and the parts fit together without an empty middle between two
   * '...' markers.
   */
  lemma {:induction false} LongWindowEntry(current: int, total: int, i: int)
    requires total > SmallTotal
    requires 0 <= i < |Window(current, total)|
    ensures var w := Window(current, total);
            var a, n := Lead(current), RunLength(current, total);
            && (i == 0 ==> w[i] == Page(1))
            && (i == |w| - 1 ==> w[i] == Page(total))
            && (1 + a <= i < 1 + a + n ==> w[i] == Page(Start(current) + i - 1 - a) && 1 < w[i].n < total)
            && (0 < i < |w| - 1 && !(1 + a <= i < 1 + a + n) ==> w[i] == Ellipsis)
            && (a == 1 ==> Start(current) >= 3)
            && (Trail(current, total) == 1 ==> End(current, total) <= total - 2)
            && (n > 0 ==> End(current, total) == Start(current) + n - 1)
            && (a == 0 && n > 0 ==> Start(current) == 2)
            && (Trail(current, total) == 0 && n > 0 ==> End(current, total) == total - 1)
            && (a == 1 && Trail(current, total) == 1 ==> n > 0)
            && (a == 0 && Trail(current, total) == 0 ==> n > 0)
  {
    LongWindowAt(current, total);
  }

  /** At most five pages: every page from 1 to `total`, in order, and no '...'; nothing at all when `total <= 0`. */
  lemma SmallWindow(current: int, total: int)
    requires total <= SmallTotal
    ensures |Window(current, total)| == Max(0, total)
    ensures forall k :: 0 <= k < |Window(current, total)| ==> Window(current, total)[k] == Page(k + 1)
    ensures Ellipsis !in Window(current, total)
  {
    RunAt(1, total);
  }

  /** A long window starts with page 1, ends with the last page, and has between 3 and 9 entries. */
  lemma {:induction false} LongWindowEnds(current: int, total: int)
    requires total > SmallTotal
    ensures 3 <= |Window(current, total)| <= 9
    ensures Window(current, total)[0] == Page(1)
    ensures Window(current, total)[|Window(current, total)| - 1] == Page(total)
  {
    LongWindowAt(current, total);
    LongWindowEntry(current, total, 0);
  }

  /** No window, whatever `current` is, has more than nine entries. */
  lemma {:induction false} WindowLength(current: int, total: int)
    ensures |Window(current, total)| <= 9
  {
    if total > SmallTotal {
      LongWindowEnds(current, total);
    } else {
      SmallWindow(current, total);
    }
  }

  /**
   * For a current page inside [1, total], '...' follows page 1 exactly when
   * the run starts after page 2, and '...' precedes the last page exactly
   * when the run ends before `total - 1`.
   */
  lemma {:induction false} EllipsisPlacement(current: int, total: int)
    requires total > SmallTotal && 1 <= current <= total
    ensures var w := Window(current, total);
            |w| >= 3
            && (w[1] == Ellipsis <==> Start(current) > 2)
            && (w[|w| - 2] == Ellipsis <==> End(current, total) < total - 1)
  {
    var w := Window(current, total);
    LongWindowAt(current, total);
    assert RunLength(current, total) >= 1;
    LongWindowEntry(current, total, 1);
    LongWindowEntry(current, total, |w| - 2);
  }

  /**
   * Outside [1, total] the placement rule above does not hold: for current
   * page -10 of 20 the run starts at page 2, yet '...' follows page 1 (it is
   * the marker pushed before the last page, the run being empty).
   */
  lemma OutOfRangeEllipsis()
    ensures Start(-10) == 2
    ensures Window(-10, 20) == [Page(1), Ellipsis, Page(20)]
  {
  }

  /** The windows of a 20-page listing for current pages 1, 10 and 20. */
  lemma {:induction false} TwentyPageExamples()
    ensures Window(1, 20) == [Page(1), Page(2), Page(3), Ellipsis, Page(20)]
    ensures Window(10, 20) == [Page(1), Ellipsis, Page(8), Page(9), Page(10), Page(11), Page(12), Ellipsis, Page(20)]
    ensures Window(20, 20) == [Page(1), Ellipsis, Page(18), Page(19), Page(20)]
  {
  }

  /** Which pages a window shows, stated without reference to how it is built. */
  predicate Shown(current: int, total: int, p: int)
  {
    && 1 <= p <= total
    && (total <= SmallTotal || p == 1 || p == total || current - Delta <= p <= current + Delta)
  }

  /**
   * A page appears in the window exactly when it lies in [1, total] and is
   * the first page, the last page or within two of `current` (every page,
   * when there are at most five). Holds for any `current`.
   */
  lemma {:induction false} WindowMembers(current: int, total: int, p: int)
    ensures Page(p) in Window(current, total) <==> Shown(current, total, p)
  {
    var w := Window(current, total);
    if total <= SmallTotal {
      SmallWindow(current, total);
      if 1 <= p <= total {
        assert w[p - 1] == Page(p);
      }
    } else {
      LongWindowAt(current, total);
      var a, s := Lead(current), Start(current);
      if Shown(current, total, p) {
        if p == 1 {
          assert w[0] == Page(p);
        } else if p == total {
          assert w[|w| - 1] == Page(p);
        } else {
          assert w[1 + a + (p - s)] == Page(p);
        }
      }
      if Page(p) in w {
        var i :| 0 <= i < |w| && w[i] == Page(p);
        LongWindowEntry(current, total, i);
      }
    }
  }

  /** The page numbers of a window strictly increase from left to right. */
  predicate Increasing(w: seq<Entry>)
  {
    forall i, j :: 0 <= i < j < |w| && w[i].Page? && w[j].Page? ==> w[i].n < w[j].n
  }

  /**
   * Neighbouring entries are well placed: two neighbouring pages are
   * consecutive numbers, '...' never stands first, last or next to another
   * '...', and it always hides at least one page.
   */
  predicate GapsMarked(w: seq<Entry>)
  {
    && (|w| > 0 ==> w[0].Page? && w[|w| - 1].Page?)
    && (forall i :: 0 <= i < |w| - 1 && w[i].Page? && w[i + 1].Page? ==> w[i + 1].n == w[i].n + 1)
    && (forall i :: 0 < i < |w| - 1 && w[i] == Ellipsis ==>
          w[i - 1].Page? && w[i + 1].Page? && w[i + 1].n >= w[i - 1].n + 2)
  }

  /** Every window, for any `current`, lists its pages in strictly increasing order. */
  lemma {:induction false} WindowIncreasing(current: int, total: int)
    ensures Increasing(Window(current, total))
  {
    var w := Window(current, total);
    if total <= SmallTotal {
      SmallWindow(current, total);
    } else {
      forall i, j | 0 <= i < j < |w| && w[i].Page? && w[j].Page?
        ensures w[i].n < w[j].n
      {
        LongWindowEntry(current, total, i);
        LongWindowEntry(current, total, j);
      }
    }
  }

  /** Every window, for any `current`, marks each gap between shown pages, and only those, with '...'. */
  lemma {:induction false} WindowGapsMarked(current: int, total: int)
    ensures GapsMarked(Window(current, total))
  {
    var w := Window(current, total);
    if total <= SmallTotal {
      SmallWindow(current, total);
    } else {
      LongWindowAt(current, total);
      forall i | 0 <= i < |w| - 1 && w[i].Page? && w[i + 1].Page?
        ensures w[i + 1].n == w[i].n + 1
      {
        LongWindowEntry(current, total, i);
        LongWindowEntry(current, total, i + 1);
      }
      forall i | 0 < i < |w| - 1 && w[i] == Ellipsis
        ensures w[i - 1].Page? && w[i + 1].Page? && w[i + 1].n >= w[i - 1].n + 2
      {
        LongWindowEntry(current, total, i - 1);
        LongWindowEntry(current, total, i);
        LongWindowEntry(current, total, i + 1);
      }
    }
  }

  /** `goToPage`: emit the clicked page unless it is '...' or already current. */
  function GoToPage(current: int, page: Entry): (r: Option<PaginationEvent>)
    ensures r.None? <==> page.Ellipsis? || page == Page(current)
    ensures r.Some? ==> page.Page? && page.n != current && r.value == PageChanged(page.n)
  {
    if page != Ellipsis && page != Page(current) then Some(PageChanged(page.n)) else None
  }

  /** `prevPage`: emit the previous page unless on the first one. */
  function PrevPage(current: int): (r: Option<PaginationEvent>)
    ensures r.Some? <==> current > 1
    ensures r.Some? ==> r.value == PageChanged(current - 1)
  {
    if current > 1 then Some(PageChanged(current - 1)) else None
  }

  /** `nextPage`: emit the next page unless on the last one. */
  function NextPage(current: int, total: int): (r: Option<PaginationEvent>)
    ensures r.Some? <==> current < total
    ensures r.Some? ==> r.value == PageChanged(current + 1)
  {
    if current < total then Some(PageChanged(current + 1)) else None
  }

  /**
   * `onPerpage`: emit the chosen count, or 20 when it is falsy; `None`
   * stands for `undefined`. The emitted count is never falsy.
   */
  function OnPerPage(count: Option<int>): (e: PaginationEvent)
    ensures e.PerPage? && e.count != 0
    ensures count.Some? && count.value != 0 ==> e.count == count.value
    ensures count == None || count == Some(0) ==> e.count == DefaultPerPage
  {
    if count.Some? && count.value != 0 then PerPage(count.value) else PerPage(DefaultPerPage)
  }

  /** The template shows the page list only when there is more than one page. */
  function ShowPaginator(totalPages: int): (r: bool)
    ensures r <==> NextPage(1, totalPages).Some?
  {
    totalPages > 1
  }

  /** The per-page button reads 'all' above 100 per page, else the number. */
  function Label(perPage: int): (r: PerPageLabel)
    ensures r.All? <==> perPage > 100
    ensures r.Count? ==> r.n == perPage && r.n <= 100
  {
    if perPage > 100 then All else Count(perPage)
  }

  /** The counts offered by the per-page menu, 1000 being its 'All' entry. */
  const MenuCounts: seq<int> := [20, 50, 100, 1000]

  /**
   * Clicking an entry of the window: '...' and the current page emit
   * nothing; any other entry emits a page in [1, total] other than the
   * current one, whatever the current page.
   */
  lemma {:induction false} ClickWindowEntry(current: int, total: int, k: int)
    requires 0 <= k < |Window(current, total)|
    ensures var w := Window(current, total);
            && (GoToPage(current, w[k]) == None <==> w[k] == Ellipsis || w[k] == Page(current))
            && (GoToPage(current, w[k]).Some? ==>
                  GoToPage(current, w[k]) == Some(PageChanged(w[k].n))
                  && 1 <= w[k].n <= total && w[k].n != current)
  {
    var w := Window(current, total);
    if w[k].Page? {
      assert Page(w[k].n) in w;
      WindowMembers(current, total, w[k].n);
    }
  }

  /**
   * On a current page in [1, total], Prev and Next emit only pages in
   * [1, total], Prev emits nothing exactly on page 1 and Next nothing
   * exactly on the last page.
   */
  lemma NavigationInRange(current: int, total: int)
    requires 1 <= current <= total
    ensures PrevPage(current) == None <==> current == 1
    ensures NextPage(current, total) == None <==> current == total
    ensures PrevPage(current).Some? ==> 1 <= PrevPage(current).value.page <= total
    ensures NextPage(current, total).Some? ==> 1 <= NextPage(current, total).value.page <= total
  {
  }

  /** Prev and Next undo each other: going back then forward returns to the page started from, and vice versa. */
  lemma PrevNextInverse(current: int, total: int)
    requires 1 <= current <= total
    ensures PrevPage(current).Some? ==>
              NextPage(PrevPage(current).value.page, total) == Some(PageChanged(current))
    ensures NextPage(current, total).Some? ==>
              PrevPage(NextPage(current, total).value.page) == Some(PageChanged(current))
  {
  }

  /**
   * For a page state with 1 <= current <= max(total, 1), the page list is
   * shown exactly when Prev or Next would emit something.
   */
  lemma ShownIffNavigable(current: int, total: int)
    requires 1 <= current <= Max(total, 1)
    ensures ShowPaginator(total) <==> PrevPage(current).Some? || NextPage(current, total).Some?
  {
  }

  /**
   * Whatever the current page, the page list is shown exactly when its
   * window offers more than one entry to click.
   */
  lemma {:induction false} ShownIffSeveralEntries(current: int, total: int)
    ensures ShowPaginator(total) <==> |Window(current, total)| > 1
  {
    if total > SmallTotal {
      LongWindowEnds(current, total);
    } else {
      SmallWindow(current, total);
    }
  }

  /**
   * Each per-page menu entry, once emitted and passed back as `perPage`,
   * labels the button with its own number, except the 1000 entry which reads
   * 'all'; an undefined count falls back to 20.
   */
  lemma {:induction false} PerPageMenu(i: int)
    requires 0 <= i < |MenuCounts|
    ensures var c := MenuCounts[i];
            Label(OnPerPage(Some(c)).count) == if c == 1000 then All else Count(c)
    ensures Label(OnPerPage(None).count) == Count(20)
  {
  }
}
