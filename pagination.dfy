/** Page arithmetic of the product list: the fixed page size, the fetch
    window of a page, the page count, the Previous/Next moves, the disabled
    flags of the two buttons and the "Showing a - b of n products" label.
    Pages are numbered from 1. No lemma assumes the page is always in
    range: those that need it say so in their `requires`, and `PrevInRange`
    and `NextInRange` say exactly when a move keeps or breaks it. */
module Pagination {

  /** Products per page (`limit`). */
  const Limit: int := 12

  /** Offset of the first product requested for `page` (`skip`). */
  function Skip(page: int): (k: int)
    ensures k % Limit == 0
    ensures k >= 0 <==> page >= 1
  {
    (page - 1) * Limit
  }

  /** The page whose window holds the 0-based product offset `offset`. */
  function PageOf(offset: nat): (p: int)
    ensures p >= 1
    ensures Skip(p) <= offset < Skip(p) + Limit
  {
    offset / Limit + 1
  }

  /** Number of pages, the ceiling of `total / Limit`. */
  function TotalPages(total: int): (n: int)
    ensures (n - 1) * Limit < total <= n * Limit
  {
    (total + Limit - 1) / Limit
  }

  /** The page lies between the first and the last page. */
  predicate InRange(page: int, pages: int)
  {
    1 <= page <= pages
  }

  /** `handlePrevPage`: one page back, but never below page 1. */
  function PrevPage(page: int): (p: int)
    ensures p >= 1
    ensures page > 1 ==> p == page - 1
  {
    if page - 1 > 1 then page - 1 else 1
  }

  /** `handleNextPage`: one page forward, but never beyond `pages`. */
  function NextPage(page: int, pages: int): (p: int)
    ensures p <= pages
    ensures page < pages ==> p == page + 1
  {
    if page + 1 < pages then page + 1 else pages
  }

  /** `disabled` of the Previous button. */
  predicate PrevDisabled(page: int)
    ensures PrevDisabled(page) <==> PrevPage(page) == page
  {
    page == 1
  }

  /** `disabled` of the Next button. */
  predicate NextDisabled(page: int, pages: int)
    ensures NextDisabled(page, pages) <==> NextPage(page, pages) == page
  {
    page == pages
  }

  /** The three numbers of "Showing first - last of total products". */
  datatype RangeLabel = RangeLabel(first: int, last: int, total: int)

  /** The label runs from the first product of the page's window to the
      end of that window, cut off at the total. */
  function Label(page: int, total: int): (l: RangeLabel)
    ensures l.total == total && l.first == Skip(page) + 1
    ensures l.last <= total && l.last <= Skip(page) + Limit
    ensures l.last == total || l.last == Skip(page) + Limit
  {
    RangeLabel((page - 1) * Limit + 1, if page * Limit < total then page * Limit else total, total)
  }

  // ---------------------------------------------------------------------
  // The fetch window

  /** Page 1 starts at offset 0, every later page 12 further on, and the
      page of a window's first offset is that page again. */
  lemma SkipWindow(page: int)
    requires page >= 1
    ensures Skip(1) == 0
    ensures Skip(page + 1) == Skip(page) + Limit
    ensures Skip(page) >= 0 && PageOf(Skip(page)) == page
  {
  }

  /** A page lies in range exactly when its window starts below the total. */
  lemma InRangeIffWindowStartsBelowTotal(page: int, total: int)
    ensures InRange(page, TotalPages(total)) <==> page >= 1 && Skip(page) < total
  {
    var n := TotalPages(total);
    if InRange(page, n) {
      assert (page - 1) * Limit <= (n - 1) * Limit;
    }
    if page >= 1 && Skip(page) < total {
      assert (page - 1) * Limit < n * Limit;
    }
  }

  /** The windows of the pages in range cover every offset below the total. */
  lemma EveryProductHasAPage(offset: nat, total: int)
    requires offset < total
    ensures InRange(PageOf(offset), TotalPages(total))
    ensures Skip(PageOf(offset)) <= offset < Skip(PageOf(offset)) + Limit
  {
    InRangeIffWindowStartsBelowTotal(PageOf(offset), total);
  }

  /** The page count of the examples: 25 products make 3 pages, none make 0. */
  lemma TotalPagesExamples()
    ensures TotalPages(25) == 3 && TotalPages(24) == 2 && TotalPages(12) == 1
    ensures TotalPages(1) == 1 && TotalPages(0) == 0
  {
  }

  /** A catalog holds at least one page exactly when it holds a product. */
  lemma NoPagesIffNoProducts(total: nat)
    ensures TotalPages(total) >= 0
    ensures TotalPages(total) == 0 <==> total == 0
  {
  }

  // ---------------------------------------------------------------------
  // Previous and Next

  /** Previous never leaves page 1 behind and stays put on page 1. */
  lemma PrevNeverBelowFirst(page: int)
    ensures PrevPage(page) >= 1
    ensures PrevPage(page) <= page || PrevPage(page) == 1
    ensures page > 1 ==> PrevPage(page) == page - 1
    ensures PrevPage(1) == 1 && PrevPage(PrevPage(1)) == 1
  {
  }

  /** Next never goes beyond the last page and otherwise moves one on. */
  lemma NextNeverBeyondLast(page: int, pages: int)
    ensures NextPage(page, pages) <= pages
    ensures page < pages - 1 ==> NextPage(page, pages) == page + 1
    ensures page + 1 >= pages ==> NextPage(page, pages) == pages
  {
  }

  /** Previous lands in range exactly when there is a page and the move
      starts no further than one beyond the last page. */
  lemma PrevInRange(page: int, pages: int)
    ensures InRange(PrevPage(page), pages) <==> pages >= 1 && page <= pages + 1
  {
  }

  /** Next lands in range exactly when there is a page and the move starts
      at page 0 or later; with no pages at all it yields page 0. */
  lemma NextInRange(page: int, pages: int)
    ensures InRange(NextPage(page, pages), pages) <==> pages >= 1 && page >= 0
    ensures pages == 0 && page >= 0 ==> NextPage(page, pages) == 0
  {
  }

  /** Inside the range, Previous undoes Next and Next undoes Previous. */
  lemma PrevNextInverse(page: int, pages: int)
    ensures 1 <= page < pages ==> PrevPage(NextPage(page, pages)) == page
    ensures 1 < page <= pages ==> NextPage(PrevPage(page), pages) == page
  {
  }

  /** A button is disabled exactly when pressing it would leave the page
      unchanged. */
  lemma DisabledIffNoMove(page: int, pages: int)
    ensures PrevDisabled(page) <==> PrevPage(page) == page
    ensures NextDisabled(page, pages) <==> NextPage(page, pages) == page
  {
  }

  /** With an empty catalog Next stays enabled on page 1, moves to page 0,
      and page 0 asks for the window starting at offset -12. */
  lemma EmptyCatalogNext()
    ensures TotalPages(0) == 0
    ensures !NextDisabled(1, TotalPages(0))
    ensures NextPage(1, TotalPages(0)) == 0 && !InRange(0, TotalPages(0))
    ensures Skip(NextPage(1, TotalPages(0))) == -12
  {
  }

  // ---------------------------------------------------------------------
  // Sequences of clicks on a fixed catalog

  datatype Click = PrevClick | NextClick

  function Move(page: int, pages: int, c: Click): int
  {
    match c
    case PrevClick => PrevPage(page)
    case NextClick => NextPage(page, pages)
  }

  /** The page reached by pressing the buttons `cs` in order. */
  function Clicks(page: int, pages: int, cs: seq<Click>): int
    decreases |cs|
  {
    if cs == [] then page else Clicks(Move(page, pages, cs[0]), pages, cs[1..])
  }

  function NextClicks(k: nat): (cs: seq<Click>)
    ensures |cs| == k
  {
    if k == 0 then [] else [NextClick] + NextClicks(k - 1)
  }

  /** Once in range, no sequence of clicks leaves the range. */
  lemma {:induction false} ClicksStayInRange(page: int, pages: int, cs: seq<Click>)
    requires InRange(page, pages)
    ensures InRange(Clicks(page, pages, cs), pages)
    decreases |cs|
  {
    if cs != [] {
      PrevInRange(page, pages);
      NextInRange(page, pages);
      ClicksStayInRange(Move(page, pages, cs[0]), pages, cs[1..]);
    }
  }

  /** Starting on a page that is not negative, clicks never reach a
      negative page, and on an empty catalog they only visit pages 0 and 1. */
  lemma {:induction false} ClicksNeverNegative(page: int, pages: nat, cs: seq<Click>)
    requires page >= 0
    ensures Clicks(page, pages, cs) >= 0
    ensures pages == 0 && page <= 1 ==> Clicks(page, pages, cs) <= 1
    decreases |cs|
  {
    if cs != [] {
      ClicksNeverNegative(Move(page, pages, cs[0]), pages, cs[1..]);
    }
  }

  /** Every page in range is reached from page 1 by pressing Next. */
  lemma {:induction false} NextClicksReach(page: int, pages: int, k: nat)
    requires 1 <= page && page + k <= pages
    ensures Clicks(page, pages, NextClicks(k)) == page + k
    decreases k
  {
    if k > 0 {
      assert NextClicks(k)[1..] == NextClicks(k - 1);
      NextClicksReach(page + 1, pages, k - 1);
    }
  }

  // ---------------------------------------------------------------------
  // The range label

  /** The label starts right after the page's fetch window opens, and on
      every page before the last it spans a full page. */
  lemma LabelFullPage(page: int, total: int)
    requires 1 <= page < TotalPages(total)
    ensures Label(page, total).first == Skip(page) + 1
    ensures Label(page, total).last - Label(page, total).first + 1 == Limit
  {
    var n := TotalPages(total);
    assert page * Limit <= (n - 1) * Limit;
  }

  /** On the last page the label ends at the total and spans between one
      and a full page. */
  lemma LabelLastPage(total: int)
    requires TotalPages(total) >= 1
    ensures Label(TotalPages(total), total).last == total
    ensures 1 <= Label(TotalPages(total), total).last - Label(TotalPages(total), total).first + 1 <= Limit
  {
  }

  /** Labels of neighbouring pages in range abut: one starts where the
      previous one ended. */
  lemma LabelsAbut(page: int, total: int)
    requires 1 <= page < TotalPages(total)
    ensures Label(page + 1, total).first == Label(page, total).last + 1
  {
    LabelFullPage(page, total);
  }

  /** The label's edge cases: page 3 of 25 shows "25 - 25 of 25", an empty
      catalog shows "1 - 0 of 0", and page 0 shows "-11 - 0 of 0". */
  lemma LabelExamples()
    ensures Label(3, 25) == RangeLabel(25, 25, 25)
    ensures Label(1, 25) == RangeLabel(1, 12, 25)
    ensures Label(1, 0) == RangeLabel(1, 0, 0)
    ensures Label(0, 0) == RangeLabel(-11, 0, 0)
  {
  }
}
