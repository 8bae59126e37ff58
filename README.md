# Payments list view: filters, fetch and pagination

A model, in Dafny, of the logic inside a small React page that lists payment
records fetched from a remote API. The page keeps a committed filter state
(search text, currency, page, page size) and two uncommitted inputs. "Search"
commits the inputs, "Clear filters" empties everything, and the pagination row
moves the page. Each filter state becomes one GET request, whose parameters are
built in a fixed order. A failed request is classified into one of three
messages. The page then shows a loading indicator, an error, or the table with
one row per payment and a pagination row.

Modules, one per source file or shared concept:

- `Wrappers`: `Option` (TypeScript's `T | undefined`) and `Result` (a resolved
  or rejected promise).
- `I18n`: the translation keys the logic uses, kept abstract. A displayed
  string is `Str(s)` or `Translated(key)`. Entries under different keys are
  different, and none is empty. `IsBlank` is JavaScript's falsiness for strings.
- `Decimal`: `Number.prototype.toString()` on integers below 10^21 in
  magnitude, with a parser proved to be its inverse.
- `PaymentTypes`: the `Payment`, `PaymentSearchResponse` and `PaymentsFilters`
  records and the four-valued status.
- `Pagination`: `PaginationTableRow`, covering the page count, the two enabled
  flags, the two handlers and the render gate.
- `FetchData`: the `FetchData` hook. It holds the parameter building (a
  `SearchParams` class whose `Append` extends its entry list in place), the
  request as a method, and the error classification.
- `PaymentsTableRow`: the per-payment row mapping.
- `PaymentsPage`: the older page component. It has a `Page` class for its three
  state cells, its own fetch with the extra status check, and the view selection.

The HTTP client (`axios.get`) and the endpoint (`API_URL`) are parameters of the
fetch methods (`get: string -> HttpResult`, `apiUrl`). The state reported by
`useQuery` is an input (`QueryState`). `Settled` is the state once a single
fetch has finished with retries off, which is the set-up of the hook's tests.
The date and amount formatters are function parameters of the row mapping.

Two facts about the code that shape the model:

- `Math.ceil(0 / pageSize)` is 0, so with `total = 0` the page count is 0
  (`Pagination.TotalPages`), and the next button would clamp the page to 0.
  The render gate hides the row in that case, and
  `Pagination.ShownButtonsCommitPositivePages` shows that the clamp cannot be
  reached through a rendered button.
- The commit actions update up to three separate `useState` cells (the
  filters and the two inputs), so `PaymentsPage.Page` is a class with one
  field per cell.

`PaymentsPage.tsx` imports its table header, empty row and row components from
`PaymentTable/`. Of those, only `PaymentTable/PaymentEmptyTableRow.tsx` is
present, and it is markup. `PaymentTable/PaymentTableRow` is not part of this
model. The page's table body is modelled with the row mapping of
`PaymentsTable/PaymentsTableRow.tsx`.

## Model

| member | source | states |
|---|---|---|
| `Pagination.CeilDiv` | src/components/PaginationRow/PaginationTableRow.tsx:12 | for a positive divisor the result q satisfies (q - 1) * b < a <= q * b, is non-negative for a non-negative total and at least 1 for a positive one |
| `Pagination.CeilingIsUnique` | src/components/PaginationRow/PaginationTableRow.tsx:12 | any q with (q - 1) * b < a <= q * b equals CeilDiv(a, b), so CeilDiv is exactly the integer ceiling of a / b |
| `Pagination.TotalPages` | src/components/PaginationRow/PaginationTableRow.tsx:12 | without data the count is 1; with data it is the ceiling of data.total over the filters' page size (not the response's), and 0 when total is 0 |
| `Pagination.CanGoToPrevious` | src/components/PaginationRow/PaginationTableRow.tsx:13 | previous is enabled exactly from page 2 on |
| `Pagination.CanGoToNext` | src/components/PaginationRow/PaginationTableRow.tsx:14 | next is enabled exactly when page * pageSize < total, that is, when some matching payments lie beyond the current page |
| `Pagination.NextPage` | src/components/PaginationRow/PaginationTableRow.tsx:16-21 | search, currency and page size are unchanged; when next is enabled the page goes up by one, otherwise it becomes the last page; the page never exceeds the page count |
| `Pagination.PreviousPage` | src/components/PaginationRow/PaginationTableRow.tsx:23-28 | search, currency and page size are unchanged; when previous is enabled the page goes down by one, otherwise it becomes 1; the page is never below 1 |
| `Pagination.PaginationRow` | src/components/PaginationRow/PaginationTableRow.tsx:30-53 | the row is rendered exactly when the response has payments and there is more than one page; previous is disabled exactly at page <= 1, next exactly at page >= page count; the label shows the current page |
| `Pagination.NoOpAtBoundaries` | src/components/PaginationRow/PaginationTableRow.tsx:16-28 | next on the last page and previous on page 1 return filters equal to their input |
| `Pagination.EnabledIffMoves` | src/components/PaginationRow/PaginationTableRow.tsx:13-28 | for a page in range, each button is enabled exactly when pressing it changes the filters |
| `Pagination.NavigationStaysInRange` | src/components/PaginationRow/PaginationTableRow.tsx:16-28 | a page between 1 and the page count stays in that range after next and after previous |
| `Pagination.NextPreviousRoundTrip` | src/components/PaginationRow/PaginationTableRow.tsx:16-28 | previous undoes an enabled next, and next undoes an enabled previous from a page in range |
| `Pagination.ShownButtonsCommitPositivePages` | src/components/PaginationRow/PaginationTableRow.tsx:16-32 | while the row is shown, both buttons commit a page of at least 1 |
| `Pagination.ResponsePageSizeIgnored` | src/components/PaginationRow/PaginationTableRow.tsx:12 | the page size the response reports changes neither the row nor the next page |
| `Pagination.TwoPagesOfOne` | src/components/PaginationRow/PaginationTableRow.test.tsx:10-15 | a total of 2 at page size 1 makes 2 pages |
| `Pagination.HiddenWithoutPayments` | src/components/PaginationRow/PaginationTableRow.test.tsx:29-38 | a response with no payments and total 0 renders no pagination row |
| `Pagination.HiddenWithOnePage` | src/components/PaginationRow/PaginationTableRow.test.tsx:40-49 | total 1 with filters at page size 1 is one page, and the row is hidden |
| `Pagination.FirstAndLastPage` | src/components/PaginationRow/PaginationTableRow.test.tsx:65-113 | of 2 pages, page 1 has previous disabled and next enabled, page 2 the reverse; next from 1 commits page 2 and previous from 2 commits page 1 |
| `Decimal.NatToString` | src/hooks/FetchData.tsx:17-18 | the spelling of a natural number is a non-empty run of digits with no leading zero, "0" for zero |
| `Decimal.IntToString` | src/hooks/FetchData.tsx:17-18 | `toString()` of an integer below 10^21 in magnitude is digits, after a '-' exactly for negative numbers |
| `Decimal.ParseNatToString` | src/hooks/FetchData.tsx:17-18 | reading back the spelling of a natural number gives that number |
| `Decimal.ParseIntToString` | src/hooks/FetchData.tsx:17-18 | reading back `n.toString()` gives n |
| `Decimal.IntToStringInjective` | src/hooks/FetchData.tsx:17-18 | different integers have different spellings |
| `Decimal.SmallSpellings` | src/hooks/FetchData.test.tsx:98-110 | 1, 5, 10 and -3 are spelled "1", "5", "10" and "-3" |
| `FetchData.BuildParams` | src/hooks/FetchData.tsx:14-18 | the appended entries are exactly QueryParams(filters), in a fresh parameter object |
| `FetchData.SearchParams.Append` | src/hooks/FetchData.tsx:15-18 | appending adds one entry at the end and changes nothing else |
| `FetchData.QueryParams` | src/hooks/FetchData.tsx:15-18 | there are two entries plus one per non-empty filter; search, when set, comes first with its value, currency, when set, comes just before the paging ones, and the last two are page and pageSize spelled by `toString()` |
| `FetchData.SearchParams.constructor` | src/hooks/FetchData.tsx:14 | a new parameter object holds no entries |
| `FetchData.Serialize` | src/hooks/FetchData.tsx:20 | no parameters give ""; for names and values without '&' or '=', the string has exactly one '=' per entry and one '&' fewer than there are entries |
| `FetchData.SerializeRoundTrip` | src/hooks/FetchData.tsx:20 | for names and values without '&' or '=', an independent reader (split at each '&', then at the first '=') recovers exactly the serialised entries, names and values in order |
| `FetchData.RequestUrl` | src/hooks/FetchData.tsx:20 | the URL is the endpoint, then '?', then the serialised parameters |
| `FetchData.OptionalParams` | src/hooks/FetchData.tsx:15-16 | a search parameter is sent exactly when the search filter is non-empty, with that value; likewise currency |
| `FetchData.PagingParams` | src/hooks/FetchData.tsx:17-18 | page and pageSize are always sent, as the decimal strings of the fields |
| `FetchData.ParamOrder` | src/hooks/FetchData.tsx:14-18 | the order is search, currency, page, pageSize; the optional ones appear only when set, and page and pageSize are always the last two |
| `FetchData.DecodeQueryParams` | src/hooks/FetchData.tsx:14-18 | reading the filters back from the parameters (a missing search or currency meaning empty) gives the original filters |
| `FetchData.QueryParamsInjective` | src/hooks/FetchData.tsx:14-18 | different filter states produce different parameter lists |
| `FetchData.ExpectedParams` | src/hooks/FetchData.test.tsx:98-110 | the test's filters give search=test, currency=USD, page=1, pageSize=10 in that order |
| `FetchData.ExpectedQueryString` | src/hooks/FetchData.test.tsx:98-110 | the test's filters serialise to "search=test&currency=USD&page=1&pageSize=10" |
| `FetchData.Settle` | src/hooks/FetchData.tsx:20-21 | the hook's fetch resolves to the body of any response, whatever its status, and passes a rejection through |
| `FetchData.FetchPayments` | src/hooks/FetchData.tsx:13-22 | the outcome is what the client returns for the endpoint, '?', and the serialised parameters of the filters, settled as above |
| `FetchData.ErrorMessage` | src/hooks/FetchData.tsx:30-43 | the message is blank exactly when there is no error; every error gives one of the three messages; not-found exactly for an HTTP-client 404, server error exactly for a 500 |
| `FetchData.Settled` | src/hooks/FetchData.tsx:25-28 | after one settled fetch nothing is loading; data is present exactly on success and is the resolved body; an error is present exactly on failure and is the rejection |
| `FetchData.UseFetchData` | src/hooks/FetchData.tsx:24-46 | the hook passes data and loading through; its message is ErrorMessage of the query's error, so blank exactly when there is no error |
| `FetchData.ClassifiedScenarios` | src/hooks/FetchData.test.tsx:36-96 | success gives '', 404 not-found, 500 server error, a non-client error and a client error without response the generic message |
| `FetchData.OtherStatusesAreGeneric` | src/hooks/FetchData.tsx:37-39 | an HTTP-client error with any status other than 404 and 500, or none, gives the generic message |
| `FetchData.SettledFetchMessage` | src/hooks/FetchData.tsx:20-43 | after one fetch the hook shows a message exactly when the client rejected, and then has no data |
| `I18n.OrElse` | src/components/PaymentsTable/PaymentsTableRow.tsx:26-27 | `s || fallback` is never blank; it is the string exactly when it is non-empty and the fallback entry exactly when it is empty |
| `PaymentTypes.StatusName` | src/types/payment.ts:7 | each of the four statuses has a non-empty wire name |
| `PaymentsTableRow.PaymentRow` | src/components/PaymentsTable/PaymentsTableRow.tsx:22-33 | the key and first cell are the id verbatim; date and amount are the formatters' output; customer and currency fall back to their placeholders exactly when empty and are never blank; the status cell is the status name, and the badge is the status |
| `PaymentsTableRow.Rows` | src/components/PaymentsTable/PaymentsTableRow.tsx:18-37 | there is one row per payment, and row i is the row of payment i |
| `PaymentsTableRow.RowsInPaymentOrder` | src/components/PaymentsTable/PaymentsTableRow.tsx:21-22 | the row keys, in order, are the payment ids |
| `PaymentsTableRow.RowsOfConcatenation` | src/components/PaymentsTable/PaymentsTableRow.tsx:21 | the rows of two concatenated payment lists are the rows of the first followed by those of the second |
| `PaymentsTableRow.NoPaymentsNoRows` | src/components/PaymentsTable/PaymentsTableRow.tsx:21 | an empty payment list renders no rows |
| `PaymentsTableRow.StatusCellsDistinct` | src/components/PaymentsTable/PaymentsTableRow.tsx:28-31 | the status cell tells the four statuses apart |
| `PaymentsPage.InitialFilters` | src/components/PaymentsPage.tsx:33-38 | the initial filters are the unique filters that "Clear filters" leaves unchanged with page size 5 |
| `PaymentsPage.HasActiveFilters` | src/components/PaymentsPage.tsx:63 | a filter is active exactly when the request carries a search or currency parameter, that is, more than the two paging parameters |
| `PaymentsPage.Committed` | src/components/PaymentsPage.tsx:65-72 | "Search" commits both inputs and resets the page to 1; the page size is unchanged |
| `PaymentsPage.Cleared` | src/components/PaymentsPage.tsx:77-82 | "Clear filters" leaves no active filter, page 1 and the same page size |
| `PaymentsPage.Page.constructor` | src/components/PaymentsPage.tsx:33-61 | the page starts with empty search and currency, page 1, page size 5 and both inputs empty |
| `PaymentsPage.Page.SetSearchInput` | src/components/PaymentsPage.tsx:88-92 | typing changes only the search input, not the currency input or the committed filters |
| `PaymentsPage.Page.SetCurrencyInput` | src/components/PaymentsPage.tsx:88-92 | picking a currency changes only the currency input |
| `PaymentsPage.Page.HandleSearch` | src/components/PaymentsPage.tsx:65-72 | the new filters are the old ones with the inputs committed and page 1; the inputs are untouched; page and page size stay positive |
| `PaymentsPage.Page.HandleClearFilters` | src/components/PaymentsPage.tsx:74-83 | both inputs become empty and the filters are cleared; page and page size stay positive |
| `PaymentsPage.Page.HandleNextPage` | src/components/PaymentsPage.tsx:112-116 | the pagination row's next button, while the row is shown, commits NextPage; the page stays at least 1 and the inputs are untouched |
| `PaymentsPage.Page.HandlePreviousPage` | src/components/PaymentsPage.tsx:112-116 | the previous button commits PreviousPage; the inputs are untouched |
| `PaymentsPage.PageSettle` | src/components/PaymentsPage.tsx:23-29 | the page's fetch succeeds exactly on a status-200 response, with its body; any other resolved status becomes a non-client error, and a rejection passes through |
| `PaymentsPage.FetchPayments` | src/components/PaymentsPage.tsx:16-30 | the outcome is what the client returns for the request URL of the filters, settled with the 200 check |
| `PaymentsPage.Render` | src/components/PaymentsPage.tsx:85-119 | the clear button follows the active filters, loading follows the query, an error is shown exactly when there is one; the table exactly when not loading, without error and with data; in it the empty row exactly when there are no payments, otherwise the mapped rows and the pagination row |
| `PaymentsPage.InitialState` | src/components/PaymentsPage.tsx:33-38 | the first request has no search or currency and carries page=1 and pageSize=5 |
| `PaymentsPage.CommitActivity` | src/components/PaymentsPage.tsx:63-72 | after "Search" a filter is active exactly when one of the inputs was non-empty |
| `PaymentsPage.EmptySearchIsClear` | src/components/PaymentsPage.tsx:65-83 | "Search" with empty inputs commits the same filters as "Clear filters" |
| `PaymentsPage.CommitIdempotent` | src/components/PaymentsPage.tsx:65-83 | committing the same inputs twice, or clearing twice, changes nothing the second time |
| `PaymentsPage.CommittedRequest` | src/components/PaymentsPage.tsx:17-21 | after "Search" the request carries exactly the inputs, page 1 and the page size; after a clear it carries no search or currency |
| `PaymentsPage.FetchVariants` | src/components/PaymentsPage.tsx:23-29 | the page's fetch agrees with the hook's on 200 and on rejections, and fails with a non-client error where the hook returns the body of another status |
| `PaymentsPage.NonOkStatusIsGeneric` | src/components/PaymentsPage.tsx:24-27 | a resolved response with a status other than 200 shows the generic message and no table |
| `PaymentsPage.OkStatusShowsTable` | src/components/PaymentsPage.tsx:102-110 | a 200 response shows the table with no loading or error, and the empty row exactly when there are no payments |
| `PaymentsPage.TableExcludesLoadingAndError` | src/components/PaymentsPage.tsx:98-102 | the table is never shown together with the loading indicator or an error |
| `PaymentsPage.ErrorsAreShown` | src/components/PaymentsPage.tsx:45-58 | whenever the query holds an error the page shows one of the three messages |

## Left out

- HTTP and the endpoint: `axios.get` and `API_URL` are parameters of the fetch
  methods. Whether axios rejects a given status is up to the `get` passed in.
- React Query: caching, refetching when the key changes, stale-response
  handling, retries and loading timing belong to a library outside the model.
  The query state is an input, and `Settled` covers one completed fetch.
- Percent encoding: `FetchData.Serialize` joins `name=value` entries with '&'
  and does not escape. It matches `URLSearchParams.toString()` only for names
  and values that need no escaping.
- Amount and date formatting (`Intl.NumberFormat` on floats, date-fns with time
  zones): the formatters are function parameters, and the model
  states only where their outputs appear.
- Numbers: JavaScript numbers are modelled as unbounded integers for page,
  page size and total, and as reals for amounts. Fractional pages, NaN and
  Infinity are not modelled.
- Decimal.IntToString: plain digits for every integer; JavaScript writes
  magnitudes of 10^21 and above in exponent notation, which page and page size
  never reach.
- Pagination.TotalPages: requires a page size of at least 1. With page size 0
  the code divides by zero and gets Infinity or NaN, which is not modelled. The
  page never produces such a size: it starts at 5 and no transition changes it.
- Response bodies: a resolved body is assumed to match `PaymentSearchResponse`.
  A malformed body (the hook's test resolves `{ data: {} }`), which would make
  the page's render throw at `data.payments.length`, is not modelled.
- The translation table: its entries are abstract, pairwise distinct and
  non-empty. Their wording is not modelled.
- Markup-only components render without logic and are not modelled:
  `PaymentsFilter/PaymentsFilter.tsx` (it forwards events and shows the clear
  button on the `hasActiveFilters` prop, which appears as
  `Screen.clearButtonShown`), `PaymentsTableHeader.tsx`,
  `PaymentsEmptyTableRow.tsx`, `PaymentTable/PaymentEmptyTableRow.tsx`,
  `PaymentsLoading.tsx` and `PaymentsError.tsx`.
- The test files are evidence for the properties above, not part of the model.
