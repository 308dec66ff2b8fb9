/** The query parameters of the token listing and the token-id window they select. */
module Pagination {

  newtype u32 = x: int | 0 <= x < 0x1_0000_0000

  /** The `page` and `limit` query parameters, both `u32`. */
  datatype Pagination = Pagination(page: u32, limit: u32)

  /** A half-open range `[first, last)` of token ids. */
  datatype IdRange = IdRange(first: u32, last: u32)

  /** The first token id of a page, in exact arithmetic: pages are numbered from 1
      and token ids start at 1. */
  function WindowStart(page: int, limit: int): int
  {
    (page - 1) * limit + 1
  }

  /** The page whose window holds token id `id`. */
  function PageOf(id: int, limit: int): int
    requires limit >= 1
  {
    (id - 1) / limit + 1
  }

  /** The parameters for which the `u32` window arithmetic neither underflows
      (`page - 1`) nor overflows (the end of the window). */
  predicate WindowFits(p: Pagination)
  {
    1 <= p.page && WindowStart(p.page as int, p.limit as int) + p.limit as int < 0x1_0000_0000
  }

  /** `Pagination::default()`. */
  function DefaultPagination(): (p: Pagination)
    ensures WindowFits(p)
    ensures Window(p) == IdRange(1, 11)
  {
    Pagination(1, 10)
  }

  /** The window the listing scans, computed in `u32` as the handler computes it:
      exactly `limit` ids, starting at `(page - 1) * limit + 1`, with no wrap-around. */
  function Window(p: Pagination): (w: IdRange)
    requires WindowFits(p)
    ensures 1 <= w.first
    ensures w.first as int == WindowStart(p.page as int, p.limit as int)
    ensures w.last as int - w.first as int == p.limit as int
  {
    NonNegativeProduct(p.page as int - 1, p.limit as int);
    var first := (p.page - 1) * p.limit + 1;
    IdRange(first, first + p.limit)
  }

  lemma NonNegativeProduct(a: int, b: int)
    requires 0 <= a && 0 <= b
    ensures 0 <= a * b
  {
  }

  /** Two sample requests: page 1 of 10 scans ids 1..10, page 2 of 5 scans ids 6..10. */
  lemma SampleWindows()
    ensures Window(Pagination(1, 10)) == IdRange(1, 11)
    ensures Window(Pagination(2, 5)) == IdRange(6, 11)
  {
  }

  /** Consecutive pages are adjacent: each page starts where the previous one ends. */
  lemma PagesAreAdjacent(page: int, limit: int)
    ensures WindowStart(page + 1, limit) == WindowStart(page, limit) + limit
  {
  }

  lemma MulAtLeast(d: int, limit: int)
    requires 1 <= d && 0 <= limit
    ensures limit <= d * limit
  {
  }

  /** Euclidean division by the page size recovers the quotient of `q * limit + r`. */
  lemma DivideWindowOffset(q: int, limit: int, r: int)
    requires 1 <= limit && 0 <= r < limit
    ensures (q * limit + r) / limit == q
  {
    var n := q * limit + r;
    var q', r' := n / limit, n % limit;
    assert (q' - q) * limit == r - r';
    if q' > q {
      MulAtLeast(q' - q, limit);
    } else if q' < q {
      MulAtLeast(q - q', limit);
    }
  }

  /** A positive token id lies in the window of the page `PageOf` names. */
  lemma IdLiesOnItsPage(id: int, limit: int)
    requires 1 <= id && 1 <= limit
    ensures WindowStart(PageOf(id, limit), limit) <= id < WindowStart(PageOf(id, limit), limit) + limit
  {
  }

  /** A token id lies in the window of no other page. */
  lemma PageOfIdIsUnique(id: int, limit: int, page: int)
    requires 1 <= limit
    requires WindowStart(page, limit) <= id < WindowStart(page, limit) + limit
    ensures page == PageOf(id, limit)
  {
    DivideWindowOffset(page - 1, limit, id - WindowStart(page, limit));
  }

  /** Every positive token id lies on exactly one page, whatever the page size: the
      windows of the pages 1, 2, 3, ... tile the ids 1, 2, 3, ... */
  lemma EachIdOnExactlyOnePage(id: int, limit: int, page: int)
    requires 1 <= id && 1 <= limit
    ensures WindowStart(page, limit) <= id < WindowStart(page, limit) + limit
            <==> page == PageOf(id, limit)
  {
    if page == PageOf(id, limit) {
      IdLiesOnItsPage(id, limit);
    }
    if WindowStart(page, limit) <= id < WindowStart(page, limit) + limit {
      PageOfIdIsUnique(id, limit, page);
    }
  }
}
