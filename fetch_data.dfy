/** The data-fetching hook: the request parameters built from the filters, the
    request itself (the HTTP client and the endpoint are parameters), and the
    classification of a failed fetch into one of three messages. */
module FetchData {
  import opened Wrappers
  import opened I18n
  import opened Decimal
  import opened PaymentTypes

  /** One `name=value` entry of a query string. */
  datatype Param = Param(name: string, value: string)

  /** The parameters of the request for `filters`, in the order they are
      appended: `search` and `currency` only when non-empty, then `page` and
      `pageSize` as decimal strings. */
  function QueryParams(filters: Filters): (params: seq<Param>)
    ensures |params| == 2 + (if filters.search != "" then 1 else 0) + (if filters.currency != "" then 1 else 0)
    ensures filters.search != "" ==> params[0] == Param("search", filters.search)
    ensures filters.currency != "" ==> params[|params| - 3] == Param("currency", filters.currency)
    ensures params[|params| - 2] == Param("page", IntToString(filters.page))
    ensures params[|params| - 1] == Param("pageSize", IntToString(filters.pageSize))
  {
    (if filters.search != "" then [Param("search", filters.search)] else [])
    + (if filters.currency != "" then [Param("currency", filters.currency)] else [])
    + [Param("page", IntToString(filters.page)), Param("pageSize", IntToString(filters.pageSize))]
  }

  /** `params.get(name)`: the value of the first entry with that name. */
  function Get(params: seq<Param>, name: string): (v: Option<string>)
    ensures v.None? <==> forall i :: 0 <= i < |params| ==> params[i].name != name
    ensures v.Some? ==>
              exists i :: 0 <= i < |params| && params[i] == Param(name, v.value)
                && forall j :: 0 <= j < i ==> params[j].name != name
  {
    if params == [] then None
    else if params[0].name == name then
      assert params[0] == Param(name, params[0].value);
      Some(params[0].value)
    else
      var rest := Get(params[1..], name);
      assert rest.Some? ==>
        exists i :: 0 <= i < |params| - 1 && params[1..][i] == Param(name, rest.value)
          && forall j :: 0 <= j < i ==> params[1..][j].name != name;
      assert rest.Some? ==>
        exists i :: 1 <= i < |params| && params[i] == Param(name, rest.value)
          && forall j :: 0 <= j < i ==> params[j].name != name
        by {
          if rest.Some? {
            var k :| 0 <= k < |params| - 1 && params[1..][k] == Param(name, rest.value)
              && forall j :: 0 <= j < k ==> params[1..][j].name != name;
            assert params[k + 1] == Param(name, rest.value);
            assert forall j :: 0 <= j < k + 1 ==> params[j].name != name by {
              forall j | 0 <= j < k + 1 ensures params[j].name != name {
                if j > 0 { assert params[j] == params[1..][j - 1]; }
              }
            }
          }
        }
      rest
  }

  /** The names of the entries, in order. */
  function Names(params: seq<Param>): (names: seq<string>)
    ensures |names| == |params|
    ensures forall i :: 0 <= i < |params| ==> names[i] == params[i].name
  {
    if params == [] then [] else [params[0].name] + Names(params[1..])
  }

  /** The number of times `c` occurs in `s`. */
  function Occurrences(s: string, c: char): nat
  {
    if s == [] then 0 else (if s[0] == c then 1 else 0) + Occurrences(s[1..], c)
  }

  lemma {:induction false} OccurrencesAppend(a: string, b: string, c: char)
    ensures Occurrences(a + b, c) == Occurrences(a, c) + Occurrences(b, c)
    decreases |a|
  {
    if a == [] {
      assert a + b == b;
    } else {
      assert (a + b)[1..] == a[1..] + b;
      OccurrencesAppend(a[1..], b, c);
    }
  }

  lemma {:induction false} OccurrencesAbsent(s: string, c: char)
    requires c !in s
    ensures Occurrences(s, c) == 0
    decreases |s|
  {
    if s != [] {
      OccurrencesAbsent(s[1..], c);
    }
  }

  /** Names and values that contain neither separator, so need no escaping. */
  predicate Plain(params: seq<Param>)
  {
    forall i :: 0 <= i < |params| ==>
      '&' !in params[i].name && '=' !in params[i].name && '&' !in params[i].value && '=' !in params[i].value
  }

  /** `name=value`, the spelling of one entry. */
  function Entry(p: Param): (e: string)
    ensures '&' !in p.name && '=' !in p.name && '&' !in p.value && '=' !in p.value ==>
              Occurrences(e, '&') == 0 && Occurrences(e, '=') == 1
  {
    EntryCounts(p);
    p.name + "=" + p.value
  }

  lemma EntryCounts(p: Param)
    ensures Occurrences(p.name + "=" + p.value, '&')
              == Occurrences(p.name, '&') + Occurrences(p.value, '&')
    ensures Occurrences(p.name + "=" + p.value, '=')
              == Occurrences(p.name, '=') + 1 + Occurrences(p.value, '=')
    ensures '&' !in p.name ==> Occurrences(p.name, '&') == 0
    ensures '=' !in p.name ==> Occurrences(p.name, '=') == 0
    ensures '&' !in p.value ==> Occurrences(p.value, '&') == 0
    ensures '=' !in p.value ==> Occurrences(p.value, '=') == 0
  {
    OccurrencesAppend(p.name + "=", p.value, '&');
    OccurrencesAppend(p.name + "=", p.value, '=');
    OccurrencesAppend(p.name, "=", '&');
    OccurrencesAppend(p.name, "=", '=');
    if '&' !in p.name { OccurrencesAbsent(p.name, '&'); }
    if '=' !in p.name { OccurrencesAbsent(p.name, '='); }
    if '&' !in p.value { OccurrencesAbsent(p.value, '&'); }
    if '=' !in p.value { OccurrencesAbsent(p.value, '='); }
  }

  /** `URLSearchParams.toString()` without percent encoding: the entries'
      `name=value` spellings joined by '&'. For plain parameters the string has
      one '=' per entry and one '&' between consecutive entries, and the reader
      ParseQueryString splits it back into exactly the entries it was made from
      (SerializeRoundTrip). */
  function Serialize(params: seq<Param>): (s: string)
    ensures params == [] ==> s == ""
    ensures Plain(params) && params != [] ==>
              Occurrences(s, '&') == |params| - 1 && Occurrences(s, '=') == |params|
    decreases |params|
  {
    if params == [] then ""
    else if |params| == 1 then Entry(params[0])
    else
      var head := Entry(params[0]) + "&";
      var tail := Serialize(params[1..]);
      OccurrencesAppend(Entry(params[0]), "&", '&');
      OccurrencesAppend(Entry(params[0]), "&", '=');
      OccurrencesAppend(head, tail, '&');
      OccurrencesAppend(head, tail, '=');
      assert Plain(params) ==> Plain(params[1..]) by {
        if Plain(params) {
          forall i | 0 <= i < |params| - 1 ensures
            '&' !in params[1..][i].name && '=' !in params[1..][i].name
            && '&' !in params[1..][i].value && '=' !in params[1..][i].value
          {
            assert params[1..][i] == params[i + 1];
          }
        }
      }
      head + tail
  }

  /** How the receiving end reads the filters back from the parameters: a
      missing `search` or `currency` is the empty filter, and `page` and
      `pageSize` must be present and decimal. It serves as the inverse against
      which the parameter list is checked to lose no information. */
  function DecodeQuery(params: seq<Param>): (f: Option<Filters>)
  {
    var search := Get(params, "search");
    var currency := Get(params, "currency");
    var page := Get(params, "page");
    var pageSize := Get(params, "pageSize");
    if page.Some? && pageSize.Some? && IsDecimal(page.value) && IsDecimal(pageSize.value) then
      Some(Filters(
        if search.Some? then search.value else "",
        if currency.Some? then currency.value else "",
        ParseInt(page.value),
        ParseInt(pageSize.value)))
    else
      None
  }

  /** The text of `s` before the first `c`, and what follows that `c` if
      there is one. */
  function SplitFirst(s: string, c: char): (r: (string, Option<string>))
    ensures c !in r.0
    ensures r.1.None? ==> r.0 == s
    ensures r.1.Some? ==> s == r.0 + [c] + r.1.value
    decreases |s|
  {
    if s == [] then ("", None)
    else if s[0] == c then ("", Some(s[1..]))
    else
      var r := SplitFirst(s[1..], c);
      assert r.1.Some? ==> s == [s[0]] + (r.0 + [c] + r.1.value);
      ([s[0]] + r.0, r.1)
  }

  /** A reader of query strings, written independently of Serialize: one entry
      per '&'-separated piece, its name before the first '=' and its value after
      it (empty when there is no '='). */
  function ParseQueryString(s: string): seq<Param>
    decreases |s|
  {
    if s == [] then []
    else
      var (piece, rest) := SplitFirst(s, '&');
      var (name, value) := SplitFirst(piece, '=');
      var entry := Param(name, if value.Some? then value.value else "");
      if rest.Some? then [entry] + ParseQueryString(rest.value) else [entry]
  }

  /** Splitting `x + [c] + y` at the first `c` gives `x` and `y` when `x` has no `c`. */
  lemma {:induction false} SplitFirstAt(x: string, y: string, c: char)
    requires c !in x
    ensures SplitFirst(x + [c] + y, c) == (x, Some(y))
    decreases |x|
  {
    if x != [] {
      assert (x + [c] + y)[1..] == x[1..] + [c] + y;
      SplitFirstAt(x[1..], y, c);
      assert [x[0]] + x[1..] == x;
    }
  }

  /** Splitting a string without `c` leaves it whole. */
  lemma {:induction false} SplitFirstWithout(x: string, c: char)
    requires c !in x
    ensures SplitFirst(x, c) == (x, None)
    decreases |x|
  {
    if x != [] {
      SplitFirstWithout(x[1..], c);
      assert [x[0]] + x[1..] == x;
    }
  }

  /** One plain entry reads back as itself. */
  lemma EntryRoundTrip(p: Param)
    requires '&' !in p.name && '=' !in p.name && '&' !in p.value && '=' !in p.value
    ensures '&' !in Entry(p)
    ensures SplitFirst(Entry(p), '=') == (p.name, Some(p.value))
  {
    assert Entry(p) == p.name + ['='] + p.value;
    SplitFirstAt(p.name, p.value, '=');
  }

  /** Reading back the serialisation of plain parameters gives the parameters:
      names and values are all there, in order, and the separators fall exactly
      between them. */
  lemma {:induction false} SerializeRoundTrip(params: seq<Param>)
    requires Plain(params)
    ensures ParseQueryString(Serialize(params)) == params
    decreases |params|
  {
    if params != [] {
      var p := params[0];
      assert '&' !in p.name && '=' !in p.name && '&' !in p.value && '=' !in p.value;
      EntryRoundTrip(p);
      if |params| == 1 {
        SplitFirstWithout(Entry(p), '&');
      } else {
        var rest := params[1..];
        assert Plain(rest) by {
          forall i | 0 <= i < |rest| ensures
            '&' !in rest[i].name && '=' !in rest[i].name && '&' !in rest[i].value && '=' !in rest[i].value
          {
            assert rest[i] == params[i + 1];
          }
        }
        assert Serialize(params) == Entry(p) + "&" + Serialize(rest);
        assert Entry(p) + "&" + Serialize(rest) == Entry(p) + ['&'] + Serialize(rest);
        SplitFirstAt(Entry(p), Serialize(rest), '&');
        assert Serialize(params) != [];
        SerializeRoundTrip(rest);
        assert [p] + rest == params;
      }
    }
  }

  /** The `URLSearchParams` object: an ordered list of entries that `Append`
      extends in place. */
  class SearchParams {
    var entries: seq<Param>

    constructor ()
      ensures entries == []
    {
      entries := [];
    }

    method Append(name: string, value: string)
      modifies this
      ensures entries == old(entries) + [Param(name, value)]
    {
      entries := entries + [Param(name, value)];
    }

  }

  /** The parameter building at the head of `fetchPayments`. */
  method BuildParams(filters: Filters) returns (params: SearchParams)
    ensures fresh(params)
    ensures params.entries == QueryParams(filters)
  {
    params := new SearchParams();
    if filters.search != "" {
      params.Append("search", filters.search);
    }
    if filters.currency != "" {
      params.Append("currency", filters.currency);
    }
    params.Append("page", IntToString(filters.page));
    params.Append("pageSize", IntToString(filters.pageSize));
  }

  /** The request URL: the endpoint, '?', and the serialised parameters. */
  function RequestUrl(apiUrl: string, filters: Filters): (url: string)
    ensures |url| > |apiUrl|
    ensures url[..|apiUrl|] == apiUrl && url[|apiUrl|] == '?'
    ensures url[|apiUrl| + 1..] == Serialize(QueryParams(filters))
  {
    var query := Serialize(QueryParams(filters));
    var url := apiUrl + "?" + query;
    assert url[..|apiUrl|] == apiUrl;
    assert url[|apiUrl| + 1..] == query;
    url
  }

  // ---------------------------------------------------------------------------
  // Fetch outcomes and their classification.

  /** A failure as the hook sees it: an HTTP-client error, with the status of
      the response when there was one, or any other thrown error. */
  datatype FetchError = AxiosErr(status: Option<int>) | OtherErr

  /** What `axios.get` settles to: a response with its status and body, or a
      rejection. */
  datatype HttpResult = Responded(status: int, body: SearchResponse) | Rejected(error: FetchError)

  /** `fetchPayments` in the hook resolves to the response body whatever its
      status and passes a rejection through. */
  function Settle(r: HttpResult): (outcome: Result<SearchResponse, FetchError>)
    ensures outcome.Ok? <==> r.Responded?
    ensures r.Responded? ==> outcome.value == r.body
    ensures r.Rejected? ==> outcome.error == r.error
  {
    match r
    case Responded(_, body) => Ok(body)
    case Rejected(e) => Err(e)
  }

  /** `fetchPayments(filters)` with the HTTP client `get` and the endpoint
      `apiUrl` as parameters. */
  method FetchPayments(filters: Filters, apiUrl: string, get: string -> HttpResult)
    returns (outcome: Result<SearchResponse, FetchError>)
    ensures outcome == Settle(get(RequestUrl(apiUrl, filters)))
  {
    var params := BuildParams(filters);
    var response := get(apiUrl + "?" + Serialize(params.entries));
    match response
    case Responded(_, body) => outcome := Ok(body);
    case Rejected(e) => outcome := Err(e);
  }

  /** The message for the current error: empty when there is none, the not-found
      or server-error message for a 404 or a 500 from the HTTP client, and the
      generic message for every other error. */
  function ErrorMessage(error: Option<FetchError>): (m: Text)
    ensures IsBlank(m) <==> error.None?
    ensures error.Some? ==>
              m in {Translated(PaymentNotFound), Translated(InternalServerError), Translated(SomethingWentWrong)}
    ensures m == Translated(PaymentNotFound) <==> error == Some(AxiosErr(Some(404)))
    ensures m == Translated(InternalServerError) <==> error == Some(AxiosErr(Some(500)))
  {
    if error.None? then Str("")
    else match error.value
      case AxiosErr(status) =>
        if status == Some(404) then Translated(PaymentNotFound)
        else if status == Some(500) then Translated(InternalServerError)
        else Translated(SomethingWentWrong)
      case OtherErr => Translated(SomethingWentWrong)
  }

  /** What `useQuery` reports: the data of the last success, whether the first
      fetch is still pending, and the error of the last failure. */
  datatype QueryState = QueryState(data: Option<SearchResponse>, isLoading: bool, error: Option<FetchError>)

  /** The query state once a single fetch has settled (no retry). */
  function Settled(outcome: Result<SearchResponse, FetchError>): (q: QueryState)
    ensures !q.isLoading
    ensures q.data.Some? <==> outcome.Ok?
    ensures q.error.Some? <==> outcome.Err?
    ensures outcome.Ok? ==> q.data == Some(outcome.value)
    ensures outcome.Err? ==> q.error == Some(outcome.error)
  {
    match outcome
    case Ok(d) => QueryState(Some(d), false, None)
    case Err(e) => QueryState(None, false, Some(e))
  }

  /** The hook's own result. */
  datatype FetchDataResult = FetchDataResult(data: Option<SearchResponse>, isLoading: bool, errorMessage: Text)

  /** `FetchData(filters)`: the query state with its error turned into a message. */
  function UseFetchData(q: QueryState): (r: FetchDataResult)
    ensures r.data == q.data && r.isLoading == q.isLoading
    ensures r.errorMessage == ErrorMessage(q.error)
    ensures IsBlank(r.errorMessage) <==> q.error.None?
  {
    FetchDataResult(q.data, q.isLoading, ErrorMessage(q.error))
  }

  // ---------------------------------------------------------------------------
  // Properties of the parameters.

  /** `search` is sent exactly when the search filter is non-empty, with that value;
      likewise `currency`. */
  lemma OptionalParams(filters: Filters)
    ensures Get(QueryParams(filters), "search") == (if filters.search != "" then Some(filters.search) else None)
    ensures Get(QueryParams(filters), "currency") == (if filters.currency != "" then Some(filters.currency) else None)
  {
  }

  /** Entries without the name in front do not change what `Get` finds. */
  lemma {:induction false} GetSkips(front: seq<Param>, back: seq<Param>, name: string)
    requires forall i :: 0 <= i < |front| ==> front[i].name != name
    ensures Get(front + back, name) == Get(back, name)
    decreases |front|
  {
    if front != [] {
      var all := front + back;
      assert all[0] == front[0] && all[0].name != name;
      assert all[1..] == front[1..] + back;
      assert Get(all, name) == Get(all[1..], name);
      GetSkips(front[1..], back, name);
    } else {
      assert front + back == back;
    }
  }

  /** `page` and `pageSize` are always sent, as the decimal strings of the fields. */
  lemma PagingParams(filters: Filters)
    ensures Get(QueryParams(filters), "page") == Some(IntToString(filters.page))
    ensures Get(QueryParams(filters), "pageSize") == Some(IntToString(filters.pageSize))
  {
    var front := (if filters.search != "" then [Param("search", filters.search)] else [])
      + (if filters.currency != "" then [Param("currency", filters.currency)] else []);
    var back := [Param("page", IntToString(filters.page)), Param("pageSize", IntToString(filters.pageSize))];
    assert QueryParams(filters) == front + back;
    GetSkips(front, back, "page");
    GetSkips(front, back, "pageSize");
  }

  /** The parameters come in the order search, currency, page, pageSize, each
      at most once, and the two paging parameters always last. */
  lemma ParamOrder(filters: Filters)
    ensures var names := Names(QueryParams(filters));
      && |names| >= 2
      && names[|names| - 2..] == ["page", "pageSize"]
      && (filters.search != "" ==> names[0] == "search")
      && (filters.currency != "" ==> names[if filters.search != "" then 1 else 0] == "currency")
      && |names| == 2 + (if filters.search != "" then 1 else 0) + (if filters.currency != "" then 1 else 0)
  {
    var params := QueryParams(filters);
    var names := Names(params);
    assert names[|names| - 2..] == [params[|params| - 2].name, params[|params| - 1].name];
  }

  /** The parameters lose nothing: reading them back gives the filters. */
  lemma DecodeQueryParams(filters: Filters)
    ensures DecodeQuery(QueryParams(filters)) == Some(filters)
  {
    OptionalParams(filters);
    PagingParams(filters);
    ParseIntToString(filters.page);
    ParseIntToString(filters.pageSize);
  }

  /** So two filter states that differ give different requests. */
  lemma QueryParamsInjective(f: Filters, g: Filters)
    ensures QueryParams(f) == QueryParams(g) ==> f == g
  {
    DecodeQueryParams(f);
    DecodeQueryParams(g);
  }

  /** The parameters of the hook's test filters. */
  lemma ExpectedParams()
    ensures QueryParams(Filters("test", "USD", 1, 10))
              == [Param("search", "test"), Param("currency", "USD"), Param("page", "1"), Param("pageSize", "10")]
  {
    SmallSpellings();
  }

  // Steps of ExpectedQueryString below, each literal string equality proved
  // on its own so that every proof context stays small.

  /** Serialize unfolded once at the front of a list of two or more entries. */
  lemma SerializeCons(p: Param, rest: seq<Param>)
    requires rest != []
    ensures Serialize([p] + rest) == Entry(p) + "&" + Serialize(rest)
  {
    assert ([p] + rest)[1..] == rest;
  }

  lemma SerializeOne(p: Param)
    ensures Serialize([p]) == p.name + "=" + p.value
  {
  }

  lemma PagingPiece()
    ensures "page" + "=" + "1" + "&" + ("pageSize" + "=" + "10") == "page=1&pageSize=10"
  {
  }

  lemma SerializePaging()
    ensures Serialize([Param("page", "1"), Param("pageSize", "10")]) == "page=1&pageSize=10"
  {
    var p2, p3 := Param("page", "1"), Param("pageSize", "10");
    SerializeCons(p2, [p3]);
    assert [p2] + [p3] == [p2, p3];
    SerializeOne(p3);
    PagingPiece();
  }

  lemma CurrencyPiece()
    ensures "currency" + "=" + "USD" + "&" + "page=1&pageSize=10" == "currency=USD&page=1&pageSize=10"
  {
  }

  lemma SearchPiece()
    ensures "search" + "=" + "test" + "&" + "currency=USD&page=1&pageSize=10"
              == "search=test&currency=USD&page=1&pageSize=10"
  {
  }

  /** The query string the hook's test expects. */
  lemma ExpectedQueryString()
    ensures Serialize(QueryParams(Filters("test", "USD", 1, 10))) == "search=test&currency=USD&page=1&pageSize=10"
  {
    ExpectedParams();
    SerializePaging();
    var p0, p1, p2, p3 := Param("search", "test"), Param("currency", "USD"), Param("page", "1"), Param("pageSize", "10");
    CurrencyPiece();
    SearchPiece();
    SerializeCons(p1, [p2, p3]);
    assert [p1] + [p2, p3] == [p1, p2, p3];
    SerializeCons(p0, [p1, p2, p3]);
    assert [p0] + [p1, p2, p3] == [p0, p1, p2, p3];
  }

  // ---------------------------------------------------------------------------
  // Properties of the classification.

  /** The scenarios of the hook's tests. */
  lemma ClassifiedScenarios(body: SearchResponse)
    ensures UseFetchData(Settled(Ok(body))).errorMessage == Str("")
    ensures UseFetchData(Settled(Err(AxiosErr(Some(404))))).errorMessage == Translated(PaymentNotFound)
    ensures UseFetchData(Settled(Err(AxiosErr(Some(500))))).errorMessage == Translated(InternalServerError)
    ensures UseFetchData(Settled(Err(OtherErr))).errorMessage == Translated(SomethingWentWrong)
    ensures UseFetchData(Settled(Err(AxiosErr(None)))).errorMessage == Translated(SomethingWentWrong)
  {
  }

  /** Every HTTP-client error other than a 404 or a 500, including one without a
      response, gets the generic message. */
  lemma OtherStatusesAreGeneric(status: Option<int>)
    requires status != Some(404) && status != Some(500)
    ensures ErrorMessage(Some(AxiosErr(status))) == Translated(SomethingWentWrong)
  {
  }

  /** After one settled fetch, the hook shows a message exactly when the HTTP
      client rejected, and then the data is absent. */
  lemma SettledFetchMessage(r: HttpResult)
    ensures !IsBlank(UseFetchData(Settled(Settle(r))).errorMessage) <==> r.Rejected?
    ensures r.Rejected? ==> UseFetchData(Settled(Settle(r))).data.None?
  {
  }
}
