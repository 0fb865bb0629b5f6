/** The pagination calculator: maps a 1-based page number and a page size
    (10 when omitted) to the `limit`/`offset` pair of the product API. */
module Pagination {

  /** Page size used when the caller leaves `itemsPerPage` out. */
  const DefaultItemsPerPage: int := 10

  /** The `{limit, offset}` record the calculator returns. */
  datatype PageWindow = PageWindow(limit: int, offset: int)

  /** `calculatePagination(page, itemsPerPage = 10)`: the window of items
      that `page` covers. The source puts no bound on either argument. */
  function CalculatePagination(page: int, itemsPerPage: int := DefaultItemsPerPage): (r: PageWindow)
    ensures r.limit == itemsPerPage
    ensures r.offset + r.limit == page * itemsPerPage
    ensures page >= 1 && itemsPerPage >= 0 ==> r.offset >= 0
  {
    PageWindow(itemsPerPage, (page - 1) * itemsPerPage)
  }

  /** The item indices `offset, offset + 1, ..., offset + limit - 1` a
      request with this pagination asks for. */
  function Window(p: PageWindow): seq<int>
  {
    Range(p.offset, p.offset + p.limit)
  }

  /** The integers `lo, lo + 1, ..., hi - 1`, in order. */
  function Range(lo: int, hi: int): (r: seq<int>)
    ensures |r| == if lo <= hi then hi - lo else 0
    ensures forall k :: 0 <= k < |r| ==> r[k] == lo + k
    decreases hi - lo
  {
    if lo >= hi then [] else [lo] + Range(lo + 1, hi)
  }

  /** The item indices requested, in order, by loading pages 1 to `n`. */
  function ItemsThrough(n: nat, itemsPerPage: int): seq<int>
  {
    if n == 0 then [] else ItemsThrough(n - 1, itemsPerPage) + Window(CalculatePagination(n, itemsPerPage))
  }

  /** Omitting the page size is the same as passing 10. */
  lemma DefaultIsTen(page: int)
    ensures CalculatePagination(page) == CalculatePagination(page, 10)
    ensures CalculatePagination(page).limit == 10
    ensures CalculatePagination(page).offset == 10 * (page - 1)
  {
  }

  /** The first page starts at the first item, whatever the page size. */
  lemma FirstPageStartsAtZero(itemsPerPage: int)
    ensures CalculatePagination(1, itemsPerPage).offset == 0
  {
  }

  /** Consecutive pages abut: the next page starts where this one ends. */
  lemma PagesAbut(page: int, itemsPerPage: int)
    ensures CalculatePagination(page + 1, itemsPerPage).offset
         == CalculatePagination(page, itemsPerPage).offset + CalculatePagination(page, itemsPerPage).limit
  {
  }

  lemma {:induction false} RangeSplit(lo: int, mid: int, hi: int)
    requires lo <= mid <= hi
    ensures Range(lo, mid) + Range(mid, hi) == Range(lo, hi)
    decreases mid - lo
  {
    if lo < mid {
      RangeSplit(lo + 1, mid, hi);
      assert Range(lo, mid) == [lo] + Range(lo + 1, mid);
      assert Range(lo, hi) == [lo] + Range(lo + 1, hi);
    }
  }

  /** Loading pages 1 to `n` one after another requests every item from 0
      to `n * itemsPerPage - 1` exactly once and in order: no gap, no
      overlap. */
  lemma {:induction false} ItemsThroughIsPrefix(n: nat, itemsPerPage: nat)
    ensures ItemsThrough(n, itemsPerPage) == Range(0, n * itemsPerPage)
  {
    if n > 0 {
      ItemsThroughIsPrefix(n - 1, itemsPerPage);
      var p := CalculatePagination(n, itemsPerPage);
      assert p.offset == (n - 1) * itemsPerPage;
      assert p.offset + p.limit == n * itemsPerPage;
      assert 0 <= p.offset;
      RangeSplit(0, p.offset, n * itemsPerPage);
    }
  }

  /** For a positive page size, item `i` lies on page `page` exactly when
      `page` is `i / itemsPerPage + 1`: every item belongs to one page. */
  lemma {:induction false} ItemOnPage(i: int, page: int, itemsPerPage: int)
    requires i >= 0 && page >= 1 && itemsPerPage > 0
    ensures var p := CalculatePagination(page, itemsPerPage);
            p.offset <= i < p.offset + p.limit <==> page == i / itemsPerPage + 1
  {
    var p := CalculatePagination(page, itemsPerPage);
    var q, r := i / itemsPerPage, i % itemsPerPage;
    assert i == q * itemsPerPage + r && 0 <= r < itemsPerPage;
    if page - 1 < q {
      MulStep(page - 1, q, itemsPerPage);
    } else if q < page - 1 {
      MulStep(q, page - 1, itemsPerPage);
    }
  }

  /** For `a < b` and `c > 0`, the `c`-block starting at `a * c` ends no
      later than `b * c` starts. */
  lemma MulStep(a: int, b: int, c: int)
    requires a < b && c > 0
    ensures a * c + c <= b * c
  {
    assert b * c - a * c == (b - a) * c;
    assert (b - a) * c >= c by { assert (b - a) * c == c + (b - a - 1) * c; }
  }
}
