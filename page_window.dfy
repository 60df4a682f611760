/** Pagination arithmetic shared by the admin order table
    (`src/components/admin/orders-data.tsx`) and the customer product list
    (`src/components/customer/productList.tsx`): the page count, the window
    of page links with gap markers, and the "Showing a-b of n" range. The
    two files run the same algorithm; only the gap marker differs ("..." in
    the order table, "ellipsis" in the product list). */
module PageWindow {

  /** `Math.ceil(count / pageSize)` for a positive page size. */
  function TotalPages(count: int, pageSize: int): (pages: int)
    requires pageSize > 0
    ensures (pages - 1) * pageSize < count <= pages * pageSize
  {
    if count % pageSize == 0 then count / pageSize else count / pageSize + 1
  }

  /** No records means no pages; otherwise every record lands on a page. */
  lemma TotalPagesOfNonNegative(count: int, pageSize: int)
    requires pageSize > 0 && count >= 0
    ensures TotalPages(count, pageSize) >= 0
    ensures TotalPages(count, pageSize) == 0 <==> count == 0
  {
  }

  /** One entry of the page-link list: a page number or a gap marker. */
  datatype PageEntry = PageNumber(n: int) | Ellipsis(marker: string)

  /** The page numbers `lo, lo + 1, ..., hi` (nothing when `hi < lo`). */
  function Run(lo: int, hi: int): (r: seq<PageEntry>)
    ensures |r| == if hi < lo then 0 else hi - lo + 1
    ensures forall i :: 0 <= i < |r| ==> r[i] == PageNumber(lo + i)
    decreases hi - lo
  {
    if hi < lo then [] else [PageNumber(lo)] + Run(lo + 1, hi)
  }

  /** Appending the next number extends a run. */
  lemma RunExtend(lo: int, hi: int)
    requires lo <= hi + 1
    ensures Run(lo, hi) + [PageNumber(hi + 1)] == Run(lo, hi + 1)
  {
    var a, b := Run(lo, hi) + [PageNumber(hi + 1)], Run(lo, hi + 1);
    assert |a| == |b|;
    forall i | 0 <= i < |a| ensures a[i] == b[i] {
    }
  }

  /** The three windows of `getPageNumbers` for more than five pages, and
      every page when there are at most five. */
  function Window(page: int, totalPages: int, marker: string): (w: seq<PageEntry>)
    ensures totalPages <= 5 ==> |w| == if totalPages < 0 then 0 else totalPages
    ensures totalPages > 5 ==> 6 <= |w| <= 7 && w[0] == PageNumber(1) && w[|w| - 1] == PageNumber(totalPages)
  {
    if totalPages <= 5 then Run(1, totalPages)
    else if page <= 3 then Run(1, 4) + [Ellipsis(marker), PageNumber(totalPages)]
    else if page >= totalPages - 2 then [PageNumber(1), Ellipsis(marker)] + Run(totalPages - 3, totalPages)
    else [PageNumber(1), Ellipsis(marker)] + Run(page - 1, page + 1) + [Ellipsis(marker), PageNumber(totalPages)]
  }

  /** `getPageNumbers()`: the push loops of the source. */
  method GetPageNumbers(page: int, totalPages: int, marker: string) returns (pages: seq<PageEntry>)
    ensures pages == Window(page, totalPages, marker)
  {
    pages := [];
    if totalPages <= 5 {
      var i := 1;
      while i <= totalPages
        invariant 1 <= i <= if totalPages >= 0 then totalPages + 1 else 1
        invariant pages == Run(1, i - 1)
        decreases totalPages - i
      {
        RunExtend(1, i - 1);
        pages := pages + [PageNumber(i)];
        i := i + 1;
      }
    } else if page <= 3 {
      for i := 1 to 5
        invariant pages == Run(1, i - 1)
      {
        RunExtend(1, i - 1);
        pages := pages + [PageNumber(i)];
      }
      ghost var numbers := pages;
      pages := pages + [Ellipsis(marker)];
      pages := pages + [PageNumber(totalPages)];
      assert pages == numbers + [Ellipsis(marker), PageNumber(totalPages)];
    } else if page >= totalPages - 2 {
      pages := pages + [PageNumber(1)];
      pages := pages + [Ellipsis(marker)];
      for i := totalPages - 3 to totalPages + 1
        invariant pages == [PageNumber(1), Ellipsis(marker)] + Run(totalPages - 3, i - 1)
      {
        RunExtend(totalPages - 3, i - 1);
        pages := pages + [PageNumber(i)];
      }
    } else {
      pages := pages + [PageNumber(1)];
      pages := pages + [Ellipsis(marker)];
      for i := page - 1 to page + 2
        invariant pages == [PageNumber(1), Ellipsis(marker)] + Run(page - 1, i - 1)
      {
        RunExtend(page - 1, i - 1);
        pages := pages + [PageNumber(i)];
      }
      ghost var numbers := pages;
      pages := pages + [Ellipsis(marker)];
      pages := pages + [PageNumber(totalPages)];
      assert pages == numbers + [Ellipsis(marker), PageNumber(totalPages)];
    }
  }

  predicate NumbersIncreasing(w: seq<PageEntry>) {
    forall i, j :: 0 <= i < j < |w| && w[i].PageNumber? && w[j].PageNumber? ==> w[i].n < w[j].n
  }

  predicate NumbersWithin(w: seq<PageEntry>, totalPages: int) {
    forall i :: 0 <= i < |w| && w[i].PageNumber? ==> 1 <= w[i].n <= totalPages
  }

  /** A gap marker always sits between two page numbers that are not
      consecutive, so it hides at least one page. */
  predicate GapsHidePages(w: seq<PageEntry>) {
    forall i :: 0 <= i < |w| && w[i].Ellipsis? ==>
      0 < i < |w| - 1 && w[i - 1].PageNumber? && w[i + 1].PageNumber? && w[i - 1].n + 1 < w[i + 1].n
  }

  predicate WellShaped(w: seq<PageEntry>, page: int, totalPages: int) {
    |w| <= 7 && NumbersIncreasing(w) && NumbersWithin(w, totalPages) && GapsHidePages(w) &&
    (totalPages >= 1 ==> |w| >= 1 && w[0] == PageNumber(1) && w[|w| - 1] == PageNumber(totalPages)) &&
    (1 <= page <= totalPages ==> PageNumber(page) in w)
  }

  lemma RunShape(page: int, totalPages: int)
    requires totalPages <= 5
    ensures WellShaped(Run(1, totalPages), page, totalPages)
  {
    var w := Run(1, totalPages);
    if 1 <= page <= totalPages {
      assert w[page - 1] == PageNumber(page);
    }
  }

  lemma FirstPagesShape(page: int, totalPages: int, marker: string)
    requires totalPages > 5 && page <= 3
    ensures WellShaped(Run(1, 4) + [Ellipsis(marker), PageNumber(totalPages)], page, totalPages)
  {
    var w := Run(1, 4) + [Ellipsis(marker), PageNumber(totalPages)];
    assert w == [PageNumber(1), PageNumber(2), PageNumber(3), PageNumber(4), Ellipsis(marker), PageNumber(totalPages)];
    if 1 <= page {
      assert w[page - 1] == PageNumber(page);
    }
  }

  lemma LastPagesShape(page: int, totalPages: int, marker: string)
    requires totalPages > 5 && page > 3 && page >= totalPages - 2
    ensures WellShaped([PageNumber(1), Ellipsis(marker)] + Run(totalPages - 3, totalPages), page, totalPages)
  {
    var t := totalPages;
    var w := [PageNumber(1), Ellipsis(marker)] + Run(t - 3, t);
    assert w == [PageNumber(1), Ellipsis(marker), PageNumber(t - 3), PageNumber(t - 2), PageNumber(t - 1), PageNumber(t)];
    if page <= t {
      assert w[page - t + 5] == PageNumber(page);
    }
  }

  lemma MiddlePagesShape(page: int, totalPages: int, marker: string)
    requires totalPages > 5 && 3 < page < totalPages - 2
    ensures WellShaped([PageNumber(1), Ellipsis(marker)] + Run(page - 1, page + 1) + [Ellipsis(marker), PageNumber(totalPages)], page, totalPages)
  {
    var w := [PageNumber(1), Ellipsis(marker)] + Run(page - 1, page + 1) + [Ellipsis(marker), PageNumber(totalPages)];
    assert w == [PageNumber(1), Ellipsis(marker), PageNumber(page - 1), PageNumber(page), PageNumber(page + 1), Ellipsis(marker), PageNumber(totalPages)];
    assert w[3] == PageNumber(page);
  }

  /** The window lists page numbers in increasing order, all of them real
      pages, in at most seven entries; its gaps hide pages; the first and
      the last page are always shown, and so is the current page when it
      is a real page. */
  lemma WindowShape(page: int, totalPages: int, marker: string)
    ensures WellShaped(Window(page, totalPages, marker), page, totalPages)
  {
    if totalPages <= 5 {
      RunShape(page, totalPages);
    } else if page <= 3 {
      FirstPagesShape(page, totalPages, marker);
    } else if page >= totalPages - 2 {
      LastPagesShape(page, totalPages, marker);
    } else {
      MiddlePagesShape(page, totalPages, marker);
    }
  }

  /** With at most five pages the window is exactly `1..totalPages`. */
  lemma SmallWindowIsAllPages(page: int, totalPages: int, marker: string)
    requires totalPages <= 5
    ensures var w := Window(page, totalPages, marker);
      forall n :: PageNumber(n) in w <==> 1 <= n <= totalPages
  {
    var w := Window(page, totalPages, marker);
    forall n | 1 <= n <= totalPages ensures PageNumber(n) in w {
      assert w[n - 1] == PageNumber(n);
    }
  }

  /** The first record shown on a page: `(page - 1) * pageSize + 1`. */
  function RangeStart(page: int, pageSize: int): int {
    (page - 1) * pageSize + 1
  }

  /** The last record shown on a page: `Math.min(page * pageSize, total)`. */
  function RangeEnd(page: int, pageSize: int, total: int): int {
    if page * pageSize < total then page * pageSize else total
  }

  /** On a real page the range is non-empty, inside `1..total` and at most
      one page long. */
  lemma RangeWithinTotal(page: int, pageSize: int, total: int)
    requires pageSize > 0 && 1 <= page <= TotalPages(total, pageSize)
    ensures 1 <= RangeStart(page, pageSize) <= RangeEnd(page, pageSize, total) <= total
    ensures RangeEnd(page, pageSize, total) - RangeStart(page, pageSize) < pageSize
  {
    var p := TotalPages(total, pageSize);
    assert (page - 1) * pageSize <= (p - 1) * pageSize by {
      MultiplyMonotone(page - 1, p - 1, pageSize);
    }
    assert 0 <= (page - 1) * pageSize by {
      MultiplyMonotone(0, page - 1, pageSize);
    }
  }

  /** Consecutive pages show adjacent ranges: the next page starts right
      after the previous one ends. */
  lemma RangesAreAdjacent(page: int, pageSize: int, total: int)
    requires pageSize > 0 && 1 <= page < TotalPages(total, pageSize)
    ensures RangeStart(page + 1, pageSize) == RangeEnd(page, pageSize, total) + 1
  {
    var p := TotalPages(total, pageSize);
    assert page * pageSize <= (p - 1) * pageSize by {
      MultiplyMonotone(page, p - 1, pageSize);
    }
  }

  lemma MultiplyMonotone(a: int, b: int, c: int)
    requires a <= b && c >= 0
    ensures a * c <= b * c
  {
    assert b * c - a * c == (b - a) * c;
  }
}
