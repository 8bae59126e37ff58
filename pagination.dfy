/** The pagination row under the payments table: how many pages there are,
    which buttons are enabled, what the next/previous buttons commit, and
    whether the row is shown at all. */
module Pagination {
  import opened Wrappers
  import opened PaymentTypes

  /** `Math.ceil(a / b)` for a positive divisor, on integers. Dafny's `/` rounds
      down for a positive divisor, so one is added when there is a remainder. */
  function CeilDiv(a: int, b: int): (q: int)
    requires b >= 1
    ensures (q - 1) * b < a <= q * b
    ensures a >= 0 ==> q >= 0
    ensures a > 0 ==> q >= 1
  {
    var r := a / b;
    if a % b == 0 then r else r + 1
  }

  /** The quotient characterised by `(q - 1) * b < a <= q * b` is unique, so
      CeilDiv is exactly the integer ceiling of `a / b`. */
  lemma CeilingIsUnique(a: int, b: int, q: int)
    requires b >= 1
    requires (q - 1) * b < a <= q * b
    ensures q == CeilDiv(a, b)
  {
    var c := CeilDiv(a, b);
    if q < c {
      assert q * b <= (c - 1) * b by { MulMonotone(q, c - 1, b); }
      assert false;
    } else if q > c {
      assert c * b <= (q - 1) * b by { MulMonotone(c, q - 1, b); }
      assert false;
    }
  }

  lemma MulMonotone(x: int, y: int, b: int)
    requires x <= y && b >= 1
    ensures x * b <= y * b
  {
    assert y * b - x * b == (y - x) * b;
  }

  /** `data ? Math.ceil(data.total / filters.pageSize) : 1`. The page size comes
      from the committed filters, not from the response. */
  function TotalPages(data: Option<SearchResponse>, pageSize: int): (n: int)
    requires pageSize >= 1
    ensures data.None? ==> n == 1
    ensures data.Some? ==> (n - 1) * pageSize < data.value.total <= n * pageSize
    ensures data.Some? && data.value.total == 0 ==> n == 0
  {
    if data.Some? then CeilDiv(data.value.total, pageSize) else 1
  }

  /** The previous button is enabled exactly from page 2 on, so it is disabled
      on page 1. */
  function CanGoToPrevious(filters: Filters): (enabled: bool)
    ensures enabled <==> filters.page >= 2
  {
    filters.page > 1
  }

  /** The next button is enabled exactly before the last page, that is, exactly
      when some of the matching payments lie beyond the current page. */
  function CanGoToNext(data: SearchResponse, filters: Filters): (enabled: bool)
    requires filters.pageSize >= 1
    ensures enabled <==> filters.page * filters.pageSize < data.total
  {
    var totalPages := TotalPages(Some(data), filters.pageSize);
    BeforeCeiling(filters.page, filters.pageSize, data.total, totalPages);
    filters.page < totalPages
  }

  /** For the ceiling n of total / size, a page p lies before page n exactly
      when the first p pages do not hold all `total` items. */
  lemma BeforeCeiling(p: int, size: int, total: int, n: int)
    requires size >= 1
    requires (n - 1) * size < total <= n * size
    ensures p < n <==> p * size < total
  {
    if p < n {
      MulMonotone(p, n - 1, size);
    } else {
      MulMonotone(n, p, size);
    }
  }

  /** The filters committed by the next button: the page moves up by one but
      never past the last page; nothing else changes. */
  function NextPage(data: SearchResponse, filters: Filters): (f: Filters)
    requires filters.pageSize >= 1
    ensures f.search == filters.search && f.currency == filters.currency
    ensures f.pageSize == filters.pageSize
    ensures f.page <= filters.page + 1
    ensures f.page <= TotalPages(Some(data), filters.pageSize)
    ensures CanGoToNext(data, filters) ==> f.page == filters.page + 1
    ensures !CanGoToNext(data, filters) ==> f.page == TotalPages(Some(data), filters.pageSize)
  {
    var totalPages := TotalPages(Some(data), filters.pageSize);
    filters.(page := if totalPages < filters.page + 1 then totalPages else filters.page + 1)
  }

  /** The filters committed by the previous button: the page moves down by one
      but never below 1; nothing else changes. */
  function PreviousPage(filters: Filters): (f: Filters)
    ensures f.search == filters.search && f.currency == filters.currency
    ensures f.pageSize == filters.pageSize
    ensures f.page >= 1 && f.page >= filters.page - 1
    ensures CanGoToPrevious(filters) ==> f.page == filters.page - 1
    ensures !CanGoToPrevious(filters) ==> f.page == 1
  {
    filters.(page := if 1 > filters.page - 1 then 1 else filters.page - 1)
  }

  /** What the pagination row shows when it is rendered. */
  datatype Controls = Controls(previousDisabled: bool, page: int, nextDisabled: bool)

  /** The render gate: the row appears only when this page has payments and
      there is more than one page; otherwise nothing at all is rendered. */
  function PaginationRow(data: SearchResponse, filters: Filters): (c: Option<Controls>)
    requires filters.pageSize >= 1
    ensures c.Some? <==> |data.payments| > 0 && TotalPages(Some(data), filters.pageSize) > 1
    ensures c.Some? ==> c.value.previousDisabled == (filters.page <= 1)
    ensures c.Some? ==> c.value.nextDisabled == (filters.page >= TotalPages(Some(data), filters.pageSize))
    ensures c.Some? ==> c.value.page == filters.page
  {
    var totalPages := TotalPages(Some(data), filters.pageSize);
    if |data.payments| > 0 && totalPages > 1 then
      Some(Controls(!CanGoToPrevious(filters), filters.page, !CanGoToNext(data, filters)))
    else
      None
  }

  // ---------------------------------------------------------------------------
  // Properties relating the two buttons, the bounds and the gate.

  /** On the last page next commits the filters unchanged; on page 1 previous does. */
  lemma NoOpAtBoundaries(data: SearchResponse, filters: Filters)
    requires filters.pageSize >= 1
    ensures filters.page == TotalPages(Some(data), filters.pageSize) ==> NextPage(data, filters) == filters
    ensures filters.page == 1 ==> PreviousPage(filters) == filters
  {
  }

  /** A button is enabled exactly when pressing it changes the filters
      (for a page inside the range the buttons are meant for). */
  lemma EnabledIffMoves(data: SearchResponse, filters: Filters)
    requires filters.pageSize >= 1
    requires 1 <= filters.page <= TotalPages(Some(data), filters.pageSize)
    ensures CanGoToNext(data, filters) <==> NextPage(data, filters) != filters
    ensures CanGoToPrevious(filters) <==> PreviousPage(filters) != filters
  {
  }

  /** Navigation keeps a page that is in range in range. */
  lemma NavigationStaysInRange(data: SearchResponse, filters: Filters)
    requires filters.pageSize >= 1
    requires 1 <= filters.page <= TotalPages(Some(data), filters.pageSize)
    ensures 1 <= NextPage(data, filters).page <= TotalPages(Some(data), filters.pageSize)
    ensures 1 <= PreviousPage(filters).page <= TotalPages(Some(data), filters.pageSize)
  {
  }

  /** Next then previous returns to the starting filters when next was enabled,
      and previous then next does when previous was enabled. */
  lemma NextPreviousRoundTrip(data: SearchResponse, filters: Filters)
    requires filters.pageSize >= 1
    requires 1 <= filters.page
    ensures CanGoToNext(data, filters) ==> PreviousPage(NextPage(data, filters)) == filters
    ensures (CanGoToPrevious(filters) && filters.page <= TotalPages(Some(data), filters.pageSize)) ==>
              NextPage(data, PreviousPage(filters)) == filters
  {
  }

  /** Whenever the row is shown and the page is at least 1, both buttons commit
      a page of at least 1: the clamp to 0 that `total = 0` would allow cannot
      be reached through the rendered buttons. */
  lemma ShownButtonsCommitPositivePages(data: SearchResponse, filters: Filters)
    requires filters.pageSize >= 1 && filters.page >= 1
    requires PaginationRow(data, filters).Some?
    ensures NextPage(data, filters).page >= 1
    ensures PreviousPage(filters).page >= 1
  {
  }

  /** Only `data.total`, `data.payments` and the filters matter: the page size
      the server reports is ignored. */
  lemma ResponsePageSizeIgnored(data: SearchResponse, filters: Filters, reported: int)
    requires filters.pageSize >= 1
    ensures PaginationRow(data.(pageSize := reported), filters) == PaginationRow(data, filters)
    ensures NextPage(data.(pageSize := reported), filters) == NextPage(data, filters)
  {
  }

  // ---------------------------------------------------------------------------
  // The scenarios of the component's tests.

  lemma TwoPagesOfOne()
    ensures TotalPages(Some(SearchResponse([], 2, 1, 1)), 1) == 2
  {
  }

  lemma HiddenWithoutPayments(filters: Filters)
    requires filters.pageSize >= 1
    ensures PaginationRow(SearchResponse([], 0, 1, 5), filters).None?
  {
  }

  lemma HiddenWithOnePage(payments: seq<Payment>)
    ensures PaginationRow(SearchResponse(payments, 1, 1, 5), Filters("", "", 1, 1)).None?
  {
  }

  lemma FirstAndLastPage(payments: seq<Payment>)
    requires |payments| == 2
    ensures PaginationRow(SearchResponse(payments, 2, 1, 1), Filters("", "", 1, 1))
              == Some(Controls(true, 1, false))
    ensures PaginationRow(SearchResponse(payments, 2, 1, 1), Filters("", "", 2, 1))
              == Some(Controls(false, 2, true))
    ensures NextPage(SearchResponse(payments, 2, 1, 1), Filters("", "", 1, 1)) == Filters("", "", 2, 1)
    ensures PreviousPage(Filters("", "", 2, 1)) == Filters("", "", 1, 1)
  {
  }
}
