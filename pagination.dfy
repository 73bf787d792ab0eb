/** Page arithmetic shared by the transaction table (src/components/dashboard/
    TransactionsTable.tsx) and the transactions page (src/pages/Transacoes.tsx): the
    page count, the rows of a page, the "showing a to b of n" line, and the two ways
    the page buttons are laid out. */
module Paging {
  import opened Common

  function MinInt(a: int, b: int): int {
    if a <= b then a else b
  }

  /** `Math.ceil(count / perPage)`. */
  function TotalPages(count: nat, perPage: nat): (r: nat)
    requires perPage > 0
    ensures r * perPage >= count
    ensures r > 0 ==> (r - 1) * perPage < count
    ensures r == 0 <==> count == 0
  {
    var q := count / perPage;
    assert count == q * perPage + count % perPage;
    if count % perPage == 0 then q
    else
      assert (q + 1) * perPage == q * perPage + perPage;
      q + 1
  }

  /** `xs.slice((page - 1) * perPage, page * perPage)`. */
  function PageSlice<T>(xs: seq<T>, page: nat, perPage: nat): (r: seq<T>)
    requires page >= 1 && perPage > 0
    ensures |r| <= perPage
    ensures (page - 1) * perPage <= |xs| ==>
      r == xs[(page - 1) * perPage..MinInt(page * perPage, |xs|)]
  {
    assert page * perPage == (page - 1) * perPage + perPage;
    Slice(xs, (page - 1) * perPage, page * perPage)
  }

  /** Pages 1 to n, one after the other. */
  function PagesUpTo<T>(xs: seq<T>, n: nat, perPage: nat): seq<T>
    requires perPage > 0
  {
    if n == 0 then [] else PagesUpTo(xs, n - 1, perPage) + PageSlice(xs, n, perPage)
  }

  lemma {:induction false} PagesUpToIsPrefix<T>(xs: seq<T>, n: nat, perPage: nat)
    requires perPage > 0
    ensures PagesUpTo(xs, n, perPage) == xs[..MinInt(n * perPage, |xs|)]
  {
    if n > 0 {
      PagesUpToIsPrefix(xs, n - 1, perPage);
      var lo := (n - 1) * perPage;
      var hi := n * perPage;
      assert hi == lo + perPage;
      var page := PageSlice(xs, n, perPage);
      if lo <= |xs| {
        var top := MinInt(hi, |xs|);
        assert page == xs[lo..top];
        assert xs[..lo] + xs[lo..top] == xs[..top];
      } else {
        assert |page| == 0;
      }
    }
  }

  /** Paging loses and repeats nothing: the pages, read in order, are the list. */
  lemma PagesCoverList<T>(xs: seq<T>, perPage: nat)
    requires perPage > 0
    ensures PagesUpTo(xs, TotalPages(|xs|, perPage), perPage) == xs
  {
    PagesUpToIsPrefix(xs, TotalPages(|xs|, perPage), perPage);
  }

  lemma MultiplyMonotone(a: nat, b: nat, c: nat)
    requires a <= b
    ensures a * c <= b * c
  {
  }

  /** Every page up to the page count holds at least one row, and the pages after it
      hold none. */
  lemma PagesInRangeAreNonEmpty<T>(xs: seq<T>, page: nat, perPage: nat)
    requires page >= 1 && perPage > 0
    ensures PageSlice(xs, page, perPage) != [] <==> page <= TotalPages(|xs|, perPage)
  {
    var total := TotalPages(|xs|, perPage);
    var start := (page - 1) * perPage;
    assert page * perPage == start + perPage;
    if page <= total {
      MultiplyMonotone(page - 1, total - 1, perPage);
      assert start < |xs|;
      assert PageSlice(xs, page, perPage) == xs[start..MinInt(page * perPage, |xs|)];
    } else {
      MultiplyMonotone(total, page - 1, perPage);
      assert start >= |xs|;
    }
  }

  /** The "Mostrando a a b de n" line: the first and last row numbers of a page. */
  function ShownFrom(page: nat, perPage: nat): int {
    (page - 1) * perPage + 1
  }

  function ShownTo(page: nat, perPage: nat, count: nat): int {
    MinInt(page * perPage, count)
  }

  /** On a page that exists, the line counts exactly the rows of that page. */
  lemma ShownRangeCountsRows<T>(xs: seq<T>, page: nat, perPage: nat)
    requires page >= 1 && perPage > 0 && page <= TotalPages(|xs|, perPage)
    ensures ShownTo(page, perPage, |xs|) - ShownFrom(page, perPage) + 1 == |PageSlice(xs, page, perPage)|
  {
    MultiplyMonotone(page - 1, TotalPages(|xs|, perPage) - 1, perPage);
    assert page * perPage == (page - 1) * perPage + perPage;
  }

  // ---------------------------------------------------------------
  // The table's page list (TransactionsTable renderPagination)
  // ---------------------------------------------------------------

  datatype PageItem = PageNumber(n: int) | Gap

  /** The page numbers lo..hi. */
  function Numbers(lo: int, hi: int): (r: seq<PageItem>)
    decreases hi - lo
    ensures |r| == if hi < lo then 0 else hi - lo + 1
    ensures forall i :: 0 <= i < |r| ==> r[i] == PageNumber(lo + i)
  {
    if hi < lo then [] else [PageNumber(lo)] + Numbers(lo + 1, hi)
  }

  /** The page list as the component builds it: with more than seven pages, the
      trailing gap is shown only when current < total - 3. */
  function PaginationAsWritten(current: int, total: nat): seq<PageItem> {
    if total <= 7 then Numbers(1, total)
    else
      [PageNumber(1), PageNumber(2), PageNumber(3)]
      + (if current > 4 then [Gap] else [])
      + (if current > 3 && current < total - 2 then [PageNumber(current)] else [])
      + (if current < total - 3 then [Gap] else [])
      + [PageNumber(total - 1), PageNumber(total)]
  }

  /** The page list with the trailing gap shown whenever a page lies hidden between
      the current page (or page 3) and page total - 1, that is when current < total - 2. */
  function Pagination(current: int, total: nat): seq<PageItem> {
    if total <= 7 then Numbers(1, total)
    else
      [PageNumber(1), PageNumber(2), PageNumber(3)]
      + (if current > 4 then [Gap] else [])
      + (if current > 3 && current < total - 2 then [PageNumber(current)] else [])
      + (if current < total - 2 then [Gap] else [])
      + [PageNumber(total - 1), PageNumber(total)]
  }

  /** The numbers in the list strictly increase. */
  predicate Increasing(items: seq<PageItem>) {
    forall i, j :: 0 <= i < j < |items| && items[i].PageNumber? && items[j].PageNumber? ==>
      items[i].n < items[j].n
  }

  predicate NoAdjacentGaps(items: seq<PageItem>) {
    forall i :: 0 <= i < |items| - 1 ==> !(items[i].Gap? && items[i + 1].Gap?)
  }

  /** Two numbers next to each other are consecutive pages: every page left out sits
      under a gap. */
  predicate GapsMarkHiddenPages(items: seq<PageItem>) {
    forall i :: 0 <= i < |items| - 1 && items[i].PageNumber? && items[i + 1].PageNumber? ==>
      items[i + 1].n == items[i].n + 1
  }

  /** With at most seven pages, every page is listed, in order. */
  lemma ShortPaginationListsAll(current: int, total: nat)
    requires total <= 7
    ensures Pagination(current, total) == PaginationAsWritten(current, total) == Numbers(1, total)
    ensures forall p :: 1 <= p <= total ==> PageNumber(p) in Pagination(current, total)
  {
    var r := Numbers(1, total);
    forall p | 1 <= p <= total
      ensures PageNumber(p) in r
    {
      assert r[p - 1] == PageNumber(p);
    }
  }

  /** The part of a long page list between pages 1, 2, 3 and the last two pages. */
  function Middle(r: seq<PageItem>): seq<PageItem>
    requires |r| >= 5
  {
    r[3..|r| - 2]
  }

  /** Both long page lists, spelled out case by case. */
  lemma LongPaginationCases(current: int, total: nat)
    requires total > 7 && 1 <= current <= total
    ensures var head := [PageNumber(1), PageNumber(2), PageNumber(3)];
      var tail := [PageNumber(total - 1), PageNumber(total)];
      var c := PageNumber(current);
      && (current <= 3 ==> PaginationAsWritten(current, total) == Pagination(current, total) == head + [Gap] + tail)
      && (current == 4 ==> PaginationAsWritten(current, total) == Pagination(current, total) == head + [c, Gap] + tail)
      && (4 < current < total - 3 ==> PaginationAsWritten(current, total) == Pagination(current, total) == head + [Gap, c, Gap] + tail)
      && (current == total - 3 ==> PaginationAsWritten(current, total) == head + [Gap, c] + tail)
      && (current == total - 3 ==> Pagination(current, total) == head + [Gap, c, Gap] + tail)
      && (current >= total - 2 ==> PaginationAsWritten(current, total) == Pagination(current, total) == head + [Gap] + tail)
  {
  }

  /** Each of the long shapes lists increasing numbers with no two gaps together. */
  lemma ShapeOrdered(r: seq<PageItem>, current: int, total: nat)
    requires total > 7
    requires var head := [PageNumber(1), PageNumber(2), PageNumber(3)];
      var tail := [PageNumber(total - 1), PageNumber(total)];
      var c := PageNumber(current);
      || r == head + [Gap] + tail
      || (current == 4 && r == head + [c, Gap] + tail)
      || (4 < current < total - 2 && r == head + [Gap, c, Gap] + tail)
      || (current == total - 3 && r == head + [Gap, c] + tail)
    ensures Increasing(r) && NoAdjacentGaps(r)
  {
    forall i, j | 0 <= i < j < |r| && r[i].PageNumber? && r[j].PageNumber?
      ensures r[i].n < r[j].n
    {
      assert forall k :: 0 <= k < |r| && r[k].PageNumber? ==> (k < 3 ==> r[k].n == k + 1);
    }
  }

  /** In the corrected long shapes, two numbers side by side are consecutive pages. */
  lemma CorrectedShapeMarksGaps(r: seq<PageItem>, current: int, total: nat)
    requires total > 7
    requires var head := [PageNumber(1), PageNumber(2), PageNumber(3)];
      var tail := [PageNumber(total - 1), PageNumber(total)];
      var c := PageNumber(current);
      || r == head + [Gap] + tail
      || (current == 4 && r == head + [c, Gap] + tail)
      || (4 < current < total - 2 && r == head + [Gap, c, Gap] + tail)
    ensures GapsMarkHiddenPages(r)
  {
    forall i | 0 <= i < |r| - 1 && r[i].PageNumber? && r[i + 1].PageNumber?
      ensures r[i + 1].n == r[i].n + 1
    {
      if i < 2 {
        assert r[i].n == i + 1 && r[i + 1].n == i + 2;
      } else if i == |r| - 2 {
        assert r[i].n == total - 1 && r[i + 1].n == total;
      }
    }
  }

  /** With more than seven pages, the list as written starts with 1, 2, 3 and ends
      with total - 1, total; between them it shows the current page iff
      3 < current < total - 2, a leading gap iff current > 4 and a trailing gap iff
      current < total - 3, and nothing else; its numbers increase and no two gaps
      touch. */
  lemma LongPaginationAsWritten(current: int, total: nat)
    requires total > 7 && 1 <= current <= total
    ensures var r := PaginationAsWritten(current, total);
      && |r| >= 5
      && r[..3] == [PageNumber(1), PageNumber(2), PageNumber(3)]
      && r[|r| - 2..] == [PageNumber(total - 1), PageNumber(total)]
      && (PageNumber(current) in Middle(r) <==> 3 < current < total - 2)
      && (forall i :: 0 <= i < |Middle(r)| ==> Middle(r)[i] in {Gap, PageNumber(current)})
      && multiset(Middle(r))[Gap] == (if current > 4 then 1 else 0) + (if current < total - 3 then 1 else 0)
      && Increasing(r) && NoAdjacentGaps(r)
  {
    LongPaginationFrame(current, total);
    LongPaginationMiddle(current, total);
  }

  lemma LongPaginationFrame(current: int, total: nat)
    requires total > 7 && 1 <= current <= total
    ensures var r := PaginationAsWritten(current, total);
      && |r| >= 5
      && r[..3] == [PageNumber(1), PageNumber(2), PageNumber(3)]
      && r[|r| - 2..] == [PageNumber(total - 1), PageNumber(total)]
      && Increasing(r) && NoAdjacentGaps(r)
  {
    LongPaginationCases(current, total);
    ShapeOrdered(PaginationAsWritten(current, total), current, total);
  }

  lemma LongPaginationMiddle(current: int, total: nat)
    requires total > 7 && 1 <= current <= total
    ensures var r := PaginationAsWritten(current, total);
      && |r| >= 5
      && (PageNumber(current) in Middle(r) <==> 3 < current < total - 2)
      && (forall i :: 0 <= i < |Middle(r)| ==> Middle(r)[i] in {Gap, PageNumber(current)})
      && multiset(Middle(r))[Gap] == (if current > 4 then 1 else 0) + (if current < total - 3 then 1 else 0)
  {
    var r := PaginationAsWritten(current, total);
    LongPaginationCases(current, total);
    var c := PageNumber(current);
    if current <= 3 || current >= total - 2 {
      assert Middle(r) == [Gap];
    } else if current == 4 {
      assert Middle(r) == [c, Gap];
    } else if current < total - 3 {
      assert Middle(r) == [Gap, c, Gap];
    } else {
      assert Middle(r) == [Gap, c];
    }
  }

  /** The list as written marks every hidden page with a gap except in one case:
      when the current page is total - 3, page total - 2 is neither listed nor under a
      gap. */
  lemma PaginationAsWrittenMarksGapsUnlessThirdFromLast(current: int, total: nat)
    requires total > 7 && 1 <= current <= total
    ensures GapsMarkHiddenPages(PaginationAsWritten(current, total)) <==> current != total - 3
  {
    LongPaginationCases(current, total);
    if current == total - 3 {
      var r := PaginationAsWritten(current, total);
      assert r[4] == PageNumber(current) && r[5] == PageNumber(total - 1);
    }
  }

  /** The smallest instance: with 8 pages and page 5 current the list as written reads
      1 2 3 ... 5 7 8, and page 6 is missing without a gap. */
  lemma PaginationAsWrittenHidesPage()
    ensures PaginationAsWritten(5, 8)
         == [PageNumber(1), PageNumber(2), PageNumber(3), Gap, PageNumber(5), PageNumber(7), PageNumber(8)]
    ensures !GapsMarkHiddenPages(PaginationAsWritten(5, 8))
  {
    var r := PaginationAsWritten(5, 8);
    assert r[4] == PageNumber(5) && r[5] == PageNumber(7);
  }

  /** The corrected list has the same frame (1, 2, 3 first, the last two pages last,
      the current page in between iff 3 < current < total - 2), its numbers increase,
      no two gaps touch, and every page it leaves out sits under a gap. */
  lemma PaginationMarksEveryGap(current: int, total: nat)
    requires total > 7 && 1 <= current <= total
    ensures var r := Pagination(current, total);
      && |r| >= 5
      && r[..3] == [PageNumber(1), PageNumber(2), PageNumber(3)]
      && r[|r| - 2..] == [PageNumber(total - 1), PageNumber(total)]
      && (PageNumber(current) in Middle(r) <==> 3 < current < total - 2)
      && Increasing(r) && NoAdjacentGaps(r) && GapsMarkHiddenPages(r)
  {
    var r := Pagination(current, total);
    LongPaginationCases(current, total);
    ShapeOrdered(r, current, total);
    CorrectedShapeMarksGaps(r, current, total);
    var c := PageNumber(current);
    if current <= 3 || current >= total - 2 {
      assert Middle(r) == [Gap];
    } else if current == 4 {
      assert Middle(r) == [c, Gap];
    } else {
      assert Middle(r) == [Gap, c, Gap];
    }
  }

  /** `renderPagination`, with the trailing gap as corrected. */
  method RenderPagination(current: int, total: nat) returns (pages: seq<PageItem>)
    ensures pages == Pagination(current, total)
  {
    pages := [];
    if total <= 7 {
      var i := 1;
      while i <= total
        invariant 1 <= i <= total + 1
        invariant pages == Numbers(1, i - 1)
      {
        assert Numbers(1, i) == Numbers(1, i - 1) + [PageNumber(i)];
        pages := pages + [PageNumber(i)];
        i := i + 1;
      }
    } else {
      pages := pages + [PageNumber(1), PageNumber(2), PageNumber(3)];
      if current > 4 {
        pages := pages + [Gap];
      }
      if current > 3 && current < total - 2 {
        pages := pages + [PageNumber(current)];
      }
      if current < total - 2 {
        pages := pages + [Gap];
      }
      pages := pages + [PageNumber(total - 1), PageNumber(total)];
    }
  }

  // ---------------------------------------------------------------
  // The page's five-button window (Transacoes)
  // ---------------------------------------------------------------

  /** The buttons for indices i..count-1 of the window starting at `first`; a button
      whose page is past the last one is not rendered. */
  function WindowButtons(first: int, i: nat, count: nat, total: nat): seq<int>
    decreases count - i
  {
    if i >= count then []
    else (if first + i > total then [] else [first + i]) + WindowButtons(first, i + 1, count, total)
  }

  /** `Array.from({ length: Math.min(5, totalPages) }, ...)`: pages 1..5 while the
      current page is at most 3, otherwise current - 2 .. current + 2, dropping the
      pages past the last one. */
  function PageWindow(current: int, total: nat): seq<int> {
    var first := if current <= 3 then 1 else current - 2;
    WindowButtons(first, 0, MinInt(5, total), total)
  }

  lemma {:induction false} WindowButtonsRun(first: int, i: nat, count: nat, total: nat)
    requires i <= count
    ensures var r := WindowButtons(first, i, count, total);
      && |r| == (if first + i > total then 0 else MinInt(count - i, total - (first + i) + 1))
      && forall k :: 0 <= k < |r| ==> r[k] == first + i + k
    decreases count - i
  {
    if i < count {
      WindowButtonsRun(first, i + 1, count, total);
    }
  }

  /** The window shows at most min(5, total) consecutive pages, all of them real
      pages, and it always shows the current page. */
  lemma PageWindowSpec(current: int, total: nat)
    requires 1 <= current <= total
    ensures var r := PageWindow(current, total);
      && |r| <= MinInt(5, total)
      && (forall k :: 0 <= k < |r| ==> 1 <= r[k] <= total)
      && (forall k :: 0 <= k < |r| - 1 ==> r[k + 1] == r[k] + 1)
      && current in r
      && (current <= 3 ==> |r| == MinInt(5, total) && r[0] == 1)
  {
    var first := if current <= 3 then 1 else current - 2;
    WindowButtonsRun(first, 0, MinInt(5, total), total);
    var r := PageWindow(current, total);
    assert r[current - first] == current;
  }

  /** The previous-page button: `Math.max(1, p - 1)`. */
  function PreviousPage(page: int): int {
    if page - 1 >= 1 then page - 1 else 1
  }

  /** The next-page button: `Math.min(totalPages, p + 1)`. */
  function NextPage(page: int, total: nat): int {
    if page + 1 <= total then page + 1 else total
  }

  /** Both buttons keep a page that is in range in range, and move it by at most one. */
  lemma StepsStayInRange(page: int, total: nat)
    requires 1 <= page <= total
    ensures 1 <= PreviousPage(page) <= total && page - 1 <= PreviousPage(page) <= page
    ensures 1 <= NextPage(page, total) <= total && page <= NextPage(page, total) <= page + 1
    ensures PreviousPage(page) == page <==> page == 1
    ensures NextPage(page, total) == page <==> page == total
  {
  }
}
