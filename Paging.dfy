/** The list view's pagination arithmetic (src/PersonList.js, lines 13-14, 40-63 and 213-241). */
module Paging {

  /** `itemsPerPage`: fixed at 4. */
  const ItemsPerPage := 4
  /** `maxPageNumbersToShow`: the width of the page-number window. */
  const MaxPageNumbersToShow := 5

  function Min(a: int, b: int): int { if a <= b then a else b }
  function Max(a: int, b: int): int { if a >= b then a else b }

  /** How `Array.prototype.slice` normalises an index: a negative one counts from the end, and the
      result is clipped to `0..len`. */
  function SliceIndex(i: int, len: nat): (k: nat)
    ensures k <= len
    ensures 0 <= i ==> k == Min(i, len)
    ensures i < 0 ==> k == Max(len + i, 0)
  {
    if i < 0 then (if len + i < 0 then 0 else len + i) else if i > len then len else i
  }

  /** `s.slice(start, end)`: the elements from the normalised start up to the normalised end, or
      nothing when the end does not lie past the start. */
  function JsSlice<T>(s: seq<T>, start: int, end: int): (r: seq<T>)
    ensures 0 <= start <= |s| && start <= end ==> r == s[start..Min(end, |s|)]
    ensures 0 <= end <= start ==> r == []
  {
    var from, to := SliceIndex(start, |s|), SliceIndex(end, |s|);
    if from < to then s[from..to] else []
  }

  /** `currentItems`: the slice `[(p-1)*4, p*4)` of the filtered list. For a page `p >= 1` these are
      exactly the filtered items from `(p-1)*4` up to `p*4` or the end, at most four, and none once
      the page starts past the end. */
  function CurrentItems<T>(filtered: seq<T>, currentPage: int): (r: seq<T>)
    ensures currentPage >= 1 ==> |r| <= ItemsPerPage
    ensures currentPage >= 1 && (currentPage - 1) * ItemsPerPage < |filtered| ==>
              r == filtered[(currentPage - 1) * ItemsPerPage .. Min(currentPage * ItemsPerPage, |filtered|)]
    ensures currentPage >= 1 && (currentPage - 1) * ItemsPerPage >= |filtered| ==> r == []
  {
    var indexOfLastItem := currentPage * ItemsPerPage;
    var indexOfFirstItem := indexOfLastItem - ItemsPerPage;
    JsSlice(filtered, indexOfFirstItem, indexOfLastItem)
  }

  /** `Math.ceil(n / itemsPerPage)`: the fewest pages of four that hold `n` items. */
  function TotalPages(n: nat): (t: nat)
    ensures t * ItemsPerPage >= n
    ensures n > 0 ==> (t - 1) * ItemsPerPage < n
    ensures t == 0 <==> n == 0
  {
    if n % ItemsPerPage == 0 then n / ItemsPerPage else n / ItemsPerPage + 1
  }

  /** The ascending run of integers `lo, lo+1, ..., hi`; empty when `lo > hi`. */
  function Range(lo: int, hi: int): (r: seq<int>)
    ensures |r| == if lo > hi then 0 else hi - lo + 1
    ensures forall k :: 0 <= k < |r| ==> r[k] == lo + k
    decreases hi - lo
  {
    if lo > hi then [] else [lo] + Range(lo + 1, hi)
  }

  /** Every item of the filtered list is shown on an existing page: item `i` is row `i % 4` of page
      `i / 4 + 1`, and that page is one of `1..TotalPages`. */
  lemma ItemPage<T>(filtered: seq<T>, i: int)
    requires 0 <= i < |filtered|
    ensures 1 <= i / ItemsPerPage + 1 <= TotalPages(|filtered|)
    ensures i % ItemsPerPage < |CurrentItems(filtered, i / ItemsPerPage + 1)|
    ensures CurrentItems(filtered, i / ItemsPerPage + 1)[i % ItemsPerPage] == filtered[i]
  {
    var page := i / ItemsPerPage + 1;
    var first := (page - 1) * ItemsPerPage;
    assert first == i - i % ItemsPerPage;
    var items := CurrentItems(filtered, page);
    assert items == filtered[first .. Min(page * ItemsPerPage, |filtered|)];
  }

  /** The loop that fills `pageNumbers` with `1..totalPages`. */
  method PageNumbers(totalPages: int) returns (pageNumbers: seq<int>)
    ensures pageNumbers == Range(1, totalPages)
  {
    pageNumbers := [];
    var i := 1;
    while i <= totalPages
      invariant 1 <= i <= Max(totalPages, 0) + 1
      invariant |pageNumbers| == i - 1
      invariant forall k :: 0 <= k < |pageNumbers| ==> pageNumbers[k] == k + 1
    {
      pageNumbers := pageNumbers + [i];
      i := i + 1;
    }
  }

  /** `startPage`: two pages before the current one, but never before page 1. */
  function StartPage(currentPage: int): (s: int)
    ensures s >= 1 && s >= currentPage - 2
    ensures s == 1 || s == currentPage - 2
  {
    Max(1, currentPage - MaxPageNumbersToShow / 2)
  }

  /** `endPage`: four pages after `startPage`, but never past the last page. */
  function EndPage(totalPages: nat, startPage: int): (e: int)
    ensures e <= totalPages && e <= startPage + 4
    ensures e == totalPages || e == startPage + 4
  {
    Min(totalPages, startPage + MaxPageNumbersToShow - 1)
  }

  /** The rendered buttons `pageNumbers.slice(startPage - 1, endPage)` are the run `startPage..endPage`. */
  lemma WindowIsRun(totalPages: nat, startPage: int, endPage: int)
    requires startPage >= 1 && 0 <= endPage <= totalPages
    ensures JsSlice(Range(1, totalPages), startPage - 1, endPage) == Range(startPage, endPage)
  {
    var all := Range(1, totalPages);
    if startPage - 1 < endPage {
      var r := all[startPage - 1 .. endPage];
      assert forall k :: 0 <= k < |r| ==> r[k] == all[startPage - 1 + k];
    }
  }

  /** The page-number window: at most five consecutive ascending existing pages, holding the current
      page whenever it exists. While the current page exists, the leading ellipsis is shown exactly
      when page 1 is not among the buttons and the trailing one exactly when the last page is not.
      Past the last page (which the unclamped page allows) `endPage` is the last page, so there is no
      trailing ellipsis, and no button either once the page is more than four past the last page. */
  lemma WindowProperties(totalPages: nat, currentPage: int)
    ensures var buttons := Range(StartPage(currentPage), EndPage(totalPages, StartPage(currentPage)));
      && |buttons| <= MaxPageNumbersToShow
      && (forall k :: 0 <= k < |buttons| ==> 1 <= buttons[k] <= totalPages)
      && (1 <= currentPage <= totalPages ==> currentPage in buttons)
      && (1 <= currentPage <= totalPages ==>
            (StartPage(currentPage) > 1 <==> 1 !in buttons) &&
            (EndPage(totalPages, StartPage(currentPage)) < totalPages <==> totalPages !in buttons))
      && (currentPage > totalPages ==> EndPage(totalPages, StartPage(currentPage)) == totalPages)
      && (currentPage > totalPages + 4 ==> buttons == [])
  {
    var startPage := StartPage(currentPage);
    var endPage := EndPage(totalPages, startPage);
    var buttons := Range(startPage, endPage);
    if 1 <= currentPage <= totalPages {
      assert buttons[currentPage - startPage] == currentPage;
      if startPage == 1 {
        assert buttons[0] == 1;
      }
      if endPage == totalPages {
        assert buttons[totalPages - startPage] == totalPages;
      }
    }
  }

  /** Everything the component derives from the filtered list and the current page for rendering. */
  datatype Pager<T> = Pager(
    currentItems: seq<T>,
    totalPages: nat,
    startPage: int,
    endPage: int,
    pageButtons: seq<int>,
    showEllipsesStart: bool,
    showEllipsesEnd: bool,
    prevDisabled: bool,
    nextDisabled: bool)

  /** The render-time derivations of the list view, in the order the component computes them.
      The page buttons are a run of at most five consecutive ascending pages holding the current page
      whenever it exists; while it exists, an ellipsis is shown on a side exactly when the first or last
      page is not among the buttons, and past the last page there is never a trailing one; Prev is off
      on page 1 and Next is off on the last page, so with no matches (zero pages) Next stays on. */
  method Paginate<T>(filtered: seq<T>, currentPage: int) returns (v: Pager<T>)
    ensures v.currentItems == CurrentItems(filtered, currentPage)
    ensures v.totalPages == TotalPages(|filtered|)
    ensures v.startPage == StartPage(currentPage) && v.endPage == EndPage(v.totalPages, v.startPage)
    ensures v.pageButtons == Range(v.startPage, v.endPage)
    ensures |v.pageButtons| <= MaxPageNumbersToShow
    ensures forall k :: 0 <= k < |v.pageButtons| ==> 1 <= v.pageButtons[k] <= v.totalPages
    ensures 1 <= currentPage <= v.totalPages ==> currentPage in v.pageButtons
    ensures 1 <= currentPage <= v.totalPages ==>
              (v.showEllipsesStart <==> 1 !in v.pageButtons) &&
              (v.showEllipsesEnd <==> v.totalPages !in v.pageButtons)
    ensures v.showEllipsesStart <==> v.startPage > 1
    ensures v.showEllipsesEnd <==> v.endPage < v.totalPages
    ensures v.showEllipsesStart <==> currentPage > 3
    ensures currentPage > v.totalPages ==> !v.showEllipsesEnd
    ensures v.prevDisabled <==> currentPage == 1
    ensures v.nextDisabled <==> currentPage == v.totalPages
    ensures filtered == [] && currentPage == 1 ==> v.prevDisabled && !v.nextDisabled
  {
    var indexOfLastItem := currentPage * ItemsPerPage;
    var indexOfFirstItem := indexOfLastItem - ItemsPerPage;
    var currentItems := JsSlice(filtered, indexOfFirstItem, indexOfLastItem);
    var totalPages := TotalPages(|filtered|);
    var pageNumbers := PageNumbers(totalPages);
    var startPage := Max(1, currentPage - MaxPageNumbersToShow / 2);
    var endPage := Min(totalPages, startPage + MaxPageNumbersToShow - 1);
    WindowIsRun(totalPages, startPage, endPage);
    WindowProperties(totalPages, currentPage);
    var pageButtons := JsSlice(pageNumbers, startPage - 1, endPage);
    v := Pager(currentItems, totalPages, startPage, endPage, pageButtons,
               startPage > 1, endPage < totalPages, currentPage == 1, currentPage == totalPages);
  }
}
