/**
 * The back-end's paging and sorting parameters and the paginated reply.
 * FastAPI validates the query before the parameter objects exist; a request
 * it rejects (with status 422) is `None` here.
 */
module Pagination {
  import opened Wrappers
  import opened Text

  const DefaultPage: int := 1
  const DefaultPageSize: int := 20
  const MaxPageSize: int := 100
  const DefaultSortBy: string := "created_at"
  const DefaultSortOrder: string := "desc"

  datatype PaginationParams = PaginationParams(page: int, pageSize: int, offset: int)

  /** A page of at least 1 and a size of 1 to 100, with the offset of the page's first row. */
  function MakePagination(page: Option<int>, pageSize: Option<int>): (p: Option<PaginationParams>)
    ensures p.Some? <==> page.GetOr(DefaultPage) >= 1 && 1 <= pageSize.GetOr(DefaultPageSize) <= MaxPageSize
    ensures p.Some? ==> p.value.page == page.GetOr(DefaultPage) && p.value.pageSize == pageSize.GetOr(DefaultPageSize)
    ensures p.Some? ==> p.value.offset == (p.value.page - 1) * p.value.pageSize && p.value.offset >= 0
  {
    var pg := page.GetOr(DefaultPage);
    var size := pageSize.GetOr(DefaultPageSize);
    if pg >= 1 && 1 <= size <= MaxPageSize then Some(PaginationParams(pg, size, (pg - 1) * size)) else None
  }

  datatype SortParams = SortParams(sortBy: string, sortOrder: string)

  /**
   * `sort_by` is free text defaulting to `created_at`; `sort_order` must be
   * `asc` or `desc` (default `desc`) and is stored lower-cased.
   */
  function MakeSort(sortBy: Option<string>, sortOrder: Option<string>): (s: Option<SortParams>)
    ensures s.Some? <==> sortOrder.GetOr(DefaultSortOrder) == "asc" || sortOrder.GetOr(DefaultSortOrder) == "desc"
    ensures s.Some? ==> s.value.sortBy == sortBy.GetOr(DefaultSortBy)
    ensures s.Some? ==> s.value.sortOrder == sortOrder.GetOr(DefaultSortOrder)
  {
    var order := sortOrder.GetOr(DefaultSortOrder);
    if order == "asc" || order == "desc" then Some(SortParams(sortBy.GetOr(DefaultSortBy), ToLower(order)))
    else None
  }

  /** Lower-casing leaves an accepted order as it was: the stored order is always `asc` or `desc`. */
  lemma SortOrderIsLowerCase(sortBy: Option<string>, sortOrder: Option<string>)
    requires MakeSort(sortBy, sortOrder).Some?
    ensures var o := MakeSort(sortBy, sortOrder).value.sortOrder; (o == "asc" || o == "desc") && ToLower(o) == o
  {
  }

  /**
   * `ceil(total / page_size)`, or 0 for a page size that is not positive:
   * the fewest pages of that size that hold `total` rows.
   */
  function TotalPages(total: int, pageSize: int): (n: int)
    ensures pageSize > 0 ==> (n - 1) * pageSize < total <= n * pageSize
    ensures pageSize <= 0 ==> n == 0
  {
    if pageSize > 0 then CeilDiv(total, pageSize) else 0
  }

  /** Ceiling division, through Euclidean division of the negated total. */
  function CeilDiv(total: int, size: int): (n: int)
    requires size > 0
    ensures (n - 1) * size < total <= n * size
  {
    var q := (-total) / size;
    var r := (-total) % size;
    assert -total == q * size + r && 0 <= r < size;
    assert -q * size == total + r;
    assert (-q - 1) * size == total + r - size;
    -q
  }

  /** The pages of a count: none for no rows, and never negative. */
  lemma TotalPagesBounds(total: int, pageSize: int)
    requires pageSize > 0 && total >= 0
    ensures TotalPages(total, pageSize) >= 0
    ensures TotalPages(total, pageSize) == 0 <==> total == 0
    ensures total <= pageSize ==> TotalPages(total, pageSize) <= 1
  {
    var n := TotalPages(total, pageSize);
    if n < 0 {
      MulNonPositive(n, pageSize);
    }
    if total == 0 && n >= 1 {
      MulMonotone(1, n - 1 + 1, pageSize);
    }
    if total <= pageSize && n >= 2 {
      MulMonotone(1, n - 1, pageSize);
    }
  }

  lemma TotalPagesExamples()
    ensures TotalPages(25, 10) == 3 && TotalPages(0, 10) == 0 && TotalPages(20, 10) == 2 && TotalPages(7, 0) == 0
  {
    TotalPagesUnique(25, 10, 3);
    TotalPagesUnique(0, 10, 0);
    TotalPagesUnique(20, 10, 2);
  }

  /** The ceiling is the only count with that property. */
  lemma TotalPagesUnique(total: int, pageSize: int, m: int)
    requires pageSize > 0 && (m - 1) * pageSize < total <= m * pageSize
    ensures TotalPages(total, pageSize) == m
  {
    var n := TotalPages(total, pageSize);
    if n < m {
      MulMonotone(n, m - 1, pageSize);
    } else if n > m {
      MulMonotone(m, n - 1, pageSize);
    }
  }

  lemma MulMonotone(a: int, b: int, c: int)
    requires a <= b && c >= 0
    ensures a * c <= b * c
  {
    assert b * c - a * c == (b - a) * c;
  }

  lemma MulNonPositive(a: int, c: int)
    requires a < 0 && c > 0
    ensures a * c < 0
  {
  }

  /**
   * A valid page has rows exactly when it is one of the `total_pages` pages:
   * its offset falls inside the count.
   */
  lemma OffsetWithinTotal(p: PaginationParams, total: int)
    requires p.page >= 1 && 1 <= p.pageSize && p.offset == (p.page - 1) * p.pageSize
    ensures p.offset < total <==> p.page <= TotalPages(total, p.pageSize)
  {
    var n := TotalPages(total, p.pageSize);
    if p.page <= n {
      MulMonotone(p.page - 1, n - 1, p.pageSize);
    } else {
      MulMonotone(n, p.page - 1, p.pageSize);
    }
  }

  /** Row `i` of the result lies on page `i / page_size + 1`, one of the reported pages. */
  lemma RowOnPage(total: int, pageSize: int, i: int)
    requires pageSize >= 1 && 0 <= i < total
    ensures var k := i / pageSize + 1;
      1 <= k <= TotalPages(total, pageSize) && (k - 1) * pageSize <= i < k * pageSize
  {
    var k := i / pageSize + 1;
    assert i == (k - 1) * pageSize + i % pageSize;
    var p := PaginationParams(k, pageSize, (k - 1) * pageSize);
    OffsetWithinTotal(p, total);
  }

  datatype PaginatedResponse<T> = PaginatedResponse(
    items: seq<T>, page: int, pageSize: int, total: int, totalPages: int, sortBy: string, sortOrder: string)

  /** `paginate`: the rows, the request's page and sort echoed, and the page count of the total. */
  function Paginate<T>(items: seq<T>, total: int, p: PaginationParams, s: SortParams): (r: PaginatedResponse<T>)
    ensures r.items == items && r.total == total && r.page == p.page && r.pageSize == p.pageSize
    ensures r.sortBy == s.sortBy && r.sortOrder == s.sortOrder
    ensures p.pageSize > 0 ==> (r.totalPages - 1) * p.pageSize < total <= r.totalPages * p.pageSize
  {
    PaginatedResponse(items, p.page, p.pageSize, total, TotalPages(total, p.pageSize), s.sortBy, s.sortOrder)
  }
}
