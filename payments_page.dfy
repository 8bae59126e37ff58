/** The payments page of the older snapshot: the page owns the committed filters
    and the two uncommitted inputs, fetches with its own copy of the request code
    (which, unlike the hook, also rejects any status other than 200), classifies
    errors as the hook does, and chooses between the loading, error and table views. */
module PaymentsPage {
  import opened Wrappers
  import opened I18n
  import opened PaymentTypes
  import opened Pagination
  import opened FetchData
  import opened PaymentsTableRow

  /** The filters the page starts with: what "Clear filters" leaves, on a
      page size of 5. */
  function InitialFilters(): (f: Filters)
    ensures Cleared(f) == f && f.pageSize == 5
    ensures forall g: Filters :: Cleared(g) == g && g.pageSize == 5 ==> g == f
  {
    Filters("", "", 1, 5)
  }

  /** Whether a search or currency filter is committed; the filter bar shows its
      clear button only then, which is exactly when the request carries a
      parameter besides the two paging ones. */
  function HasActiveFilters(f: Filters): (active: bool)
    ensures active <==> Get(QueryParams(f), "search").Some? || Get(QueryParams(f), "currency").Some?
    ensures active <==> |QueryParams(f)| > 2
  {
    OptionalParams(f);
    f.search != "" || f.currency != ""
  }

  /** The filters after "Search": both inputs committed, back to page 1, same page size. */
  function Committed(f: Filters, searchInput: string, currencyInput: string): (r: Filters)
    ensures r.search == searchInput && r.currency == currencyInput
    ensures r.page == 1 && r.pageSize == f.pageSize
  {
    f.(search := searchInput, currency := currencyInput, page := 1)
  }

  /** The filters after "Clear filters": no search, no currency, page 1, same page size. */
  function Cleared(f: Filters): (r: Filters)
    ensures !HasActiveFilters(r)
    ensures r.page == 1 && r.pageSize == f.pageSize
  {
    f.(search := "", currency := "", page := 1)
  }

  /** The state held by the page's three state cells. */
  class Page {
    var filters: Filters
    var searchInput: string
    var currencyInput: string

    /** Every transition keeps the page and the page size positive. */
    ghost predicate Valid()
      reads this
    {
      filters.page >= 1 && filters.pageSize >= 1
    }

    constructor ()
      ensures Valid()
      ensures filters == InitialFilters()
      ensures searchInput == "" && currencyInput == ""
    {
      filters := InitialFilters();
      searchInput := "";
      currencyInput := "";
    }

    /** Typing in the search box changes only the uncommitted search text. */
    method SetSearchInput(value: string)
      requires Valid()
      modifies this
      ensures Valid()
      ensures searchInput == value
      ensures currencyInput == old(currencyInput) && filters == old(filters)
    {
      searchInput := value;
    }

    /** Picking a currency changes only the uncommitted currency. */
    method SetCurrencyInput(value: string)
      requires Valid()
      modifies this
      ensures Valid()
      ensures currencyInput == value
      ensures searchInput == old(searchInput) && filters == old(filters)
    {
      currencyInput := value;
    }

    /** "Search" commits the inputs and leaves them as they are. */
    method HandleSearch()
      requires Valid()
      modifies this
      ensures Valid()
      ensures filters == Committed(old(filters), old(searchInput), old(currencyInput))
      ensures searchInput == old(searchInput) && currencyInput == old(currencyInput)
    {
      filters := filters.(search := searchInput, currency := currencyInput, page := 1);
    }

    /** "Clear filters" empties both inputs and the committed filters. */
    method HandleClearFilters()
      requires Valid()
      modifies this
      ensures Valid()
      ensures filters == Cleared(old(filters))
      ensures searchInput == "" && currencyInput == ""
    {
      searchInput := "";
      currencyInput := "";
      filters := filters.(search := "", currency := "", page := 1);
    }

    /** The pagination row's next button, which exists only while the row is shown. */
    method HandleNextPage(data: SearchResponse)
      requires Valid()
      requires PaginationRow(data, filters).Some?
      modifies this
      ensures Valid()
      ensures filters == NextPage(data, old(filters))
      ensures searchInput == old(searchInput) && currencyInput == old(currencyInput)
    {
      ShownButtonsCommitPositivePages(data, filters);
      filters := NextPage(data, filters);
    }

    /** The pagination row's previous button. */
    method HandlePreviousPage()
      requires Valid()
      modifies this
      ensures Valid()
      ensures filters == PreviousPage(old(filters))
      ensures searchInput == old(searchInput) && currencyInput == old(currencyInput)
    {
      filters := PreviousPage(filters);
    }
  }

  // ---------------------------------------------------------------------------
  // The page's own fetch.

  /** This copy of `fetchPayments` turns a response whose status is not 200 into
      an ordinary (non HTTP-client) error. */
  function PageSettle(r: HttpResult): (outcome: Result<SearchResponse, FetchError>)
    ensures outcome.Ok? <==> r.Responded? && r.status == 200
    ensures outcome.Ok? ==> outcome.value == r.body
    ensures r.Responded? && r.status != 200 ==> outcome == Err(OtherErr)
    ensures r.Rejected? ==> outcome == Err(r.error)
  {
    match r
    case Responded(status, body) => if status != 200 then Err(OtherErr) else Ok(body)
    case Rejected(e) => Err(e)
  }

  /** The page's `fetchPayments`, with the HTTP client and the endpoint as parameters. */
  method FetchPayments(filters: Filters, apiUrl: string, get: string -> HttpResult)
    returns (outcome: Result<SearchResponse, FetchError>)
    ensures outcome == PageSettle(get(RequestUrl(apiUrl, filters)))
  {
    var params := BuildParams(filters);
    var response := get(apiUrl + "?" + Serialize(params.entries));
    if response.Responded? && response.status != 200 {
      outcome := Err(OtherErr);
    } else if response.Responded? {
      outcome := Ok(response.body);
    } else {
      outcome := Err(response.error);
    }
  }

  // ---------------------------------------------------------------------------
  // The view.

  /** The table body: the empty-table row, or one row per payment. */
  datatype Body = EmptyTable | PaymentRows(rows: seq<Row>)

  /** The table with its pagination row (absent when the row renders nothing). */
  datatype TableView = TableView(body: Body, pagination: Option<Controls>)

  /** What the page renders below its title. */
  datatype Screen = Screen(
    clearButtonShown: bool,
    loading: bool,
    error: Option<Text>,
    table: Option<TableView>)

  /** The page's rendering for the committed filters and the query state. */
  function Render(filters: Filters, q: QueryState, formatDate: string -> string, formatAmount: real -> string)
    : (s: Screen)
    requires filters.pageSize >= 1
    ensures s.clearButtonShown == HasActiveFilters(filters)
    ensures s.loading == q.isLoading
    ensures s.error.Some? <==> q.error.Some?
    ensures s.error.Some? ==> s.error.value == ErrorMessage(q.error)
    ensures s.table.Some? <==> !q.isLoading && q.error.None? && q.data.Some?
    ensures s.table.Some? ==> (s.table.value.body.EmptyTable? <==> |q.data.value.payments| == 0)
    ensures s.table.Some? && s.table.value.body.PaymentRows? ==>
              s.table.value.body.rows == Rows(q.data.value, formatDate, formatAmount)
    ensures s.table.Some? ==> s.table.value.pagination == PaginationRow(q.data.value, filters)
  {
    var errorMessage := ErrorMessage(q.error);
    var table :=
      if !q.isLoading && IsBlank(errorMessage) && q.data.Some? then
        var data := q.data.value;
        Some(TableView(
          if |data.payments| == 0 then EmptyTable else PaymentRows(Rows(data, formatDate, formatAmount)),
          PaginationRow(data, filters)))
      else None;
    Screen(HasActiveFilters(filters), q.isLoading, if IsBlank(errorMessage) then None else Some(errorMessage), table)
  }

  // ---------------------------------------------------------------------------
  // Properties of the transitions.

  /** The page starts with no active filter and an empty search and currency. */
  lemma InitialState()
    ensures !HasActiveFilters(InitialFilters())
    ensures Get(QueryParams(InitialFilters()), "search").None?
    ensures Get(QueryParams(InitialFilters()), "currency").None?
    ensures Get(QueryParams(InitialFilters()), "page") == Some("1")
    ensures Get(QueryParams(InitialFilters()), "pageSize") == Some("5")
  {
    OptionalParams(InitialFilters());
    PagingParams(InitialFilters());
    Decimal.SmallSpellings();
  }

  /** A filter is active after "Search" exactly when one of the inputs was non-empty. */
  lemma CommitActivity(f: Filters, searchInput: string, currencyInput: string)
    ensures HasActiveFilters(Committed(f, searchInput, currencyInput)) <==> searchInput != "" || currencyInput != ""
  {
  }

  /** "Search" with both inputs empty commits the same filters as "Clear filters". */
  lemma EmptySearchIsClear(f: Filters)
    ensures Committed(f, "", "") == Cleared(f)
  {
  }

  /** Both commit actions are idempotent. */
  lemma CommitIdempotent(f: Filters, searchInput: string, currencyInput: string)
    ensures Committed(Committed(f, searchInput, currencyInput), searchInput, currencyInput)
              == Committed(f, searchInput, currencyInput)
    ensures Cleared(Cleared(f)) == Cleared(f)
  {
  }

  /** The request after "Search" carries exactly the committed inputs, page 1
      and the unchanged page size; after "Clear filters" it carries no filter. */
  lemma CommittedRequest(f: Filters, searchInput: string, currencyInput: string)
    ensures DecodeQuery(QueryParams(Committed(f, searchInput, currencyInput)))
              == Some(Filters(searchInput, currencyInput, 1, f.pageSize))
    ensures Get(QueryParams(Cleared(f)), "search").None? && Get(QueryParams(Cleared(f)), "currency").None?
  {
    DecodeQueryParams(Committed(f, searchInput, currencyInput));
    OptionalParams(Cleared(f));
  }

  // ---------------------------------------------------------------------------
  // Properties of the fetch and the view.

  /** The two copies of `fetchPayments` agree on a 200 response and on every
      rejection, and differ on any other resolved status: the hook hands over
      the body, the page fails with an ordinary error. */
  lemma FetchVariants(r: HttpResult)
    ensures (r.Rejected? || r.status == 200) ==> PageSettle(r) == Settle(r)
    ensures r.Responded? && r.status != 200 ==> Settle(r) == Ok(r.body) && PageSettle(r) == Err(OtherErr)
  {
  }

  /** A resolved response whose status is not 200 ends as the generic message,
      and no table is shown. */
  lemma NonOkStatusIsGeneric(filters: Filters, status: int, body: SearchResponse,
                             formatDate: string -> string, formatAmount: real -> string)
    requires filters.pageSize >= 1
    requires status != 200
    ensures Render(filters, Settled(PageSettle(Responded(status, body))), formatDate, formatAmount).error
              == Some(Translated(SomethingWentWrong))
    ensures Render(filters, Settled(PageSettle(Responded(status, body))), formatDate, formatAmount).table.None?
  {
  }

  /** A 200 response shows the table and nothing else: the empty-table row
      exactly when the page has no payments. */
  lemma OkStatusShowsTable(filters: Filters, body: SearchResponse,
                           formatDate: string -> string, formatAmount: real -> string)
    requires filters.pageSize >= 1
    ensures var s := Render(filters, Settled(PageSettle(Responded(200, body))), formatDate, formatAmount);
      && !s.loading && s.error.None? && s.table.Some?
      && (s.table.value.body.EmptyTable? <==> body.payments == [])
  {
  }

  /** The table is never shown together with the loading indicator or an error. */
  lemma TableExcludesLoadingAndError(filters: Filters, q: QueryState,
                                     formatDate: string -> string, formatAmount: real -> string)
    requires filters.pageSize >= 1
    ensures var s := Render(filters, q, formatDate, formatAmount);
      s.table.Some? ==> !s.loading && s.error.None?
  {
  }

  /** Every failure is visible: whenever the query holds an error the page shows
      one of the three messages. */
  lemma ErrorsAreShown(filters: Filters, q: QueryState,
                       formatDate: string -> string, formatAmount: real -> string)
    requires filters.pageSize >= 1
    requires q.error.Some?
    ensures Render(filters, q, formatDate, formatAmount).error.Some?
    ensures Render(filters, q, formatDate, formatAmount).error.value
              in {Translated(PaymentNotFound), Translated(InternalServerError), Translated(SomethingWentWrong)}
  {
  }
}
