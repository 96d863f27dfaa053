/** The data hooks over the breach store: the metrics query and the search
    mutation with their fixed fallbacks, the search-parameter merge with the
    store values read at render time, the filter shortcuts, and the page count. */
module BreachHooks {
  import opened Strings
  import opened Filters
  import opened BreachSlice
  import SearchLegacy

  datatype SearchParams = SearchParams(query: string, filters: seq<StoreFilter>, page: int, limit: int)

  /** `Partial<SearchParams>`: `None` is an absent or `undefined` member. */
  datatype PartialParams = PartialParams(
    query: Option<string>, filters: Option<seq<StoreFilter>>, page: Option<int>, limit: Option<int>)

  const NoParams: PartialParams := PartialParams(None, None, None, None)

  /** The store values the hook read when the component rendered. */
  datatype Snapshot = Snapshot(searchQuery: string, searchFilters: seq<StoreFilter>,
                               currentPage: int, itemsPerPage: int)

  datatype SearchResponse = SearchResponse(results: seq<Row>, total: int, page: int, totalPages: int)

  /** `params?.x ?? stored.x` member by member. */
  function MergeParams(p: PartialParams, s: Snapshot): (r: SearchParams)
    ensures r.query == if p.query.Some? then p.query.value else s.searchQuery
    ensures r.filters == if p.filters.Some? then p.filters.value else s.searchFilters
    ensures r.page == if p.page.Some? then p.page.value else s.currentPage
    ensures r.limit == if p.limit.Some? then p.limit.value else s.itemsPerPage
  {
    SearchParams(OrElse(p.query, s.searchQuery), OrElse(p.filters, s.searchFilters),
                 OrElse(p.page, s.currentPage), OrElse(p.limit, s.itemsPerPage))
  }

  /** With nothing supplied the request repeats the stored search. */
  lemma MergeNothing(s: Snapshot)
    ensures MergeParams(NoParams, s) ==
              SearchParams(s.searchQuery, s.searchFilters, s.currentPage, s.itemsPerPage)
  {
  }

  /** Fully supplied parameters ignore the store. */
  lemma MergeEverything(q: string, fs: seq<StoreFilter>, page: int, limit: int, s: Snapshot)
    ensures MergeParams(PartialParams(Some(q), Some(fs), Some(page), Some(limit)), s) ==
              SearchParams(q, fs, page, limit)
  {
  }

  /** Members fall back with `??`, not `||`: a supplied empty query, empty
      filter list, page 0 or limit 0 is sent as given. */
  lemma MergeKeepsFalsyValues(s: Snapshot)
    ensures MergeParams(PartialParams(Some(""), Some([]), Some(0), Some(0)), s) == SearchParams("", [], 0, 0)
  {
  }

  // ----------------------------------------------------------- fallbacks

  /** The single record of the fixed search fallback; its creation time is the
      clock reading at the failure. */
  function MockRecord(nowIso: string): Row {
    SearchLegacy.LegacyResult(1, "https://example.com/login", "admin", "redacted", "example.com",
      Some("192.168.1.1"), Some(443), Some("/login"), ["critical", "unresolved", "healthcare"],
      Some("Admin Login"), false, true, true, Some("basic"), Some("WordPress"), false, true, nowIso)
  }

  function MockResponse(nowIso: string): SearchResponse {
    SearchResponse([MockRecord(nowIso)], 1, 1, 1)
  }

  const MockMetrics: DashboardMetrics := DashboardMetrics(
    1250, 600, 180, 325,
    [AppShare("WordPress", 450, 500), AppShare("Citrix", 300, 500), AppShare("Exchange", 250, 500),
     AppShare("SharePoint", 150, 500), AppShare("Custom", 100, 500)],
    [TimelinePoint("2024-01", 120, 80), TimelinePoint("2024-02", 150, 100), TimelinePoint("2024-03", 90, 130)],
    LoginForms(400, 200, 150, 50))

  /** The metrics query: the decoded body of a 2xx response, or `None` for a
      non-2xx status, a thrown fetch or an undecodable body. */
  type MetricsApi = () -> Option<DashboardMetrics>
  /** The search endpoint, likewise. */
  type SearchApi = SearchParams -> Option<SearchResponse>

  /** The metrics query function: any failure yields the fixed metrics. */
  function QueryMetrics(api: MetricsApi): (m: DashboardMetrics)
    ensures api().None? ==> m == MockMetrics
    ensures api().Some? ==> m == api().value
  {
    OrElse(api(), MockMetrics)
  }

  /** The mutation function: any failure yields the fixed one-record response. */
  function MutateSearch(api: SearchApi, params: SearchParams, nowIso: string): (r: SearchResponse)
    ensures api(params).None? ==> r == MockResponse(nowIso)
    ensures api(params).Some? ==> r == api(params).value
  {
    OrElse(api(params), MockResponse(nowIso))
  }

  /** The fallback answer is self-consistent: one result, total 1, one page of it. */
  lemma MockResponseConsistent(nowIso: string)
    ensures |MockResponse(nowIso).results| == MockResponse(nowIso).total == 1
    ensures MockResponse(nowIso).page == MockResponse(nowIso).totalPages == 1
    ensures TotalPages(MockResponse(nowIso).total, 20) == Pages(1)
  {
  }

  /** The fallback does not reflect the request: whatever query, filters and
      page were asked for, a failed search answers page 1 of one record. */
  lemma FallbackIgnoresRequest(api: SearchApi, a: SearchParams, b: SearchParams, nowIso: string)
    requires api(a).None? && api(b).None?
    ensures MutateSearch(api, a, nowIso) == MutateSearch(api, b, nowIso)
    ensures MutateSearch(api, a, nowIso).page == 1 && |MutateSearch(api, a, nowIso).results| == 1
  {
  }

  /** Every failure of the metrics query gives the same metrics, so a failed
      query cannot be told from a backend that reports the mock figures. */
  lemma MetricsFallbackFixed(api: MetricsApi, other: MetricsApi)
    requires api().None? && other() == Some(MockMetrics)
    ensures QueryMetrics(api) == QueryMetrics(other) == MockMetrics
  {
  }

  // ----------------------------------------------------------- dispatches

  /** `search(params)`: store the supplied query and page, then run the
      mutation with the merged parameters. */
  method Search(store: BreachStore, snap: Snapshot, p: PartialParams, api: SearchApi, nowIso: string)
    returns (sent: SearchParams, response: SearchResponse)
    requires store.Valid()
    modifies store
    ensures store.Valid()
    ensures sent == MergeParams(p, snap)
    ensures response == MutateSearch(api, sent, nowIso)
    ensures store.searchQuery == OrElse(p.query, old(store.searchQuery))
    ensures store.currentPage == OrElse(p.page, old(store.currentPage))
    ensures store.searchFilters == old(store.searchFilters) && store.searchResults == old(store.searchResults)
    ensures store.totalResults == old(store.totalResults) && store.itemsPerPage == old(store.itemsPerPage)
    ensures store.metrics == old(store.metrics)
    ensures store.loadingSearch == old(store.loadingSearch) && store.errorSearch == old(store.errorSearch)
    ensures store.loadingMetrics == old(store.loadingMetrics) && store.errorMetrics == old(store.errorMetrics)
  {
    sent := MergeParams(p, snap);
    if p.query.Some? {
      store.SetSearchQuery(p.query.value);
    }
    if p.page.Some? {
      store.SetCurrentPage(p.page.value);
    }
    response := MutateSearch(api, sent, nowIso);
  }

  /** `addFilter`: push a filter whose id is the clock reading in decimal, then
      search page 1 with the filters read at render, which lack the new one. */
  method AddFilter(store: BreachStore, snap: Snapshot, kind: FilterType, value: string,
                   nowMillis: nat, api: SearchApi, nowIso: string)
    returns (added: StoreFilter, sent: SearchParams)
    requires store.Valid()
    modifies store
    ensures store.Valid()
    ensures added == StoreFilter(NatToString(nowMillis), None, kind, value)
    ensures store.searchFilters == old(store.searchFilters) + [added]
    ensures store.currentPage == 1
    ensures sent == SearchParams(snap.searchQuery, snap.searchFilters, 1, snap.itemsPerPage)
    ensures store.searchQuery == old(store.searchQuery) && store.searchResults == old(store.searchResults)
    ensures store.totalResults == old(store.totalResults) && store.itemsPerPage == old(store.itemsPerPage)
    ensures store.metrics == old(store.metrics)
    ensures store.loadingSearch == old(store.loadingSearch) && store.errorSearch == old(store.errorSearch)
    ensures store.loadingMetrics == old(store.loadingMetrics) && store.errorMetrics == old(store.errorMetrics)
  {
    added := StoreFilter(NatToString(nowMillis), None, kind, value);
    store.AddSearchFilter(added);
    var response;
    sent, response := Search(store, snap, PartialParams(None, None, Some(1), None), api, nowIso);
  }

  /** `removeFilter`: dispatch the removal, then search page 1 with the filters
      read at render, which still hold the removed one. */
  method RemoveFilter(store: BreachStore, snap: Snapshot, filterId: string, api: SearchApi, nowIso: string)
    returns (sent: SearchParams)
    requires store.Valid()
    modifies store
    ensures store.Valid()
    ensures store.searchFilters == WithoutStoreId(old(store.searchFilters), filterId)
    ensures store.currentPage == 1
    ensures sent == SearchParams(snap.searchQuery, snap.searchFilters, 1, snap.itemsPerPage)
    ensures store.searchQuery == old(store.searchQuery) && store.searchResults == old(store.searchResults)
    ensures store.totalResults == old(store.totalResults) && store.itemsPerPage == old(store.itemsPerPage)
    ensures store.metrics == old(store.metrics)
    ensures store.loadingSearch == old(store.loadingSearch) && store.errorSearch == old(store.errorSearch)
    ensures store.loadingMetrics == old(store.loadingMetrics) && store.errorMetrics == old(store.errorMetrics)
  {
    store.RemoveSearchFilter(filterId);
    var response;
    sent, response := Search(store, snap, PartialParams(None, None, Some(1), None), api, nowIso);
  }

  /** The request sent by `addFilter` omits the filter it has just added, when
      the render-time list is the store's list before the call. */
  lemma AddedFilterNotSent(snapFilters: seq<StoreFilter>, added: StoreFilter)
    requires !HasStoreId(snapFilters, added.id)
    ensures added !in snapFilters
  {
    forall i | 0 <= i < |snapFilters| ensures snapFilters[i] != added {
      assert snapFilters[i].id != added.id;
    }
  }

  // ---------------------------------------------------------- page count

  /** `Math.ceil(total / perPage)` as a JavaScript number. */
  datatype PageCount = Pages(n: int) | PosInfinity | NegInfinity | NaN

  /** The ceiling of `t / p` for a non-zero divisor. */
  function CeilDiv(t: int, p: int): int
    requires p != 0
  {
    if p > 0 then -((-t) / p) else -(t / (-p))
  }

  function TotalPages(total: int, perPage: int): (c: PageCount)
    ensures perPage != 0 ==> c.Pages?
    ensures perPage == 0 ==> (c == NaN <==> total == 0)
  {
    if perPage != 0 then Pages(CeilDiv(total, perPage))
    else if total == 0 then NaN
    else if total > 0 then PosInfinity
    else NegInfinity
  }

  /** For a positive page size the count is the least number of pages that
      hold every result. */
  lemma TotalPagesIsCeiling(total: int, perPage: int)
    requires perPage > 0
    ensures TotalPages(total, perPage).n * perPage >= total
    ensures (TotalPages(total, perPage).n - 1) * perPage < total
  {
    var q, r := (-total) / perPage, (-total) % perPage;
    assert -total == q * perPage + r && 0 <= r < perPage;
    assert TotalPages(total, perPage).n == -q;
    assert -q * perPage == total + r;
    assert (-q - 1) * perPage == total + r - perPage;
  }

  /** No results give no pages, whatever positive or negative page size. */
  lemma NoResultsNoPages(perPage: int)
    requires perPage != 0
    ensures TotalPages(0, perPage) == Pages(0)
  {
  }

  /** Page counts never fall when results grow. */
  lemma TotalPagesMonotone(a: int, b: int, perPage: int)
    requires perPage > 0 && a <= b
    ensures TotalPages(a, perPage).n <= TotalPages(b, perPage).n
  {
    TotalPagesIsCeiling(a, perPage);
    TotalPagesIsCeiling(b, perPage);
    var m, n := TotalPages(a, perPage).n, TotalPages(b, perPage).n;
    if m > n {
      assert (m - 1) * perPage >= n * perPage by {
        assert m - 1 >= n;
        MulMonotone(n, m - 1, perPage);
      }
    }
  }

  lemma MulMonotone(x: int, y: int, k: int)
    requires x <= y && k > 0
    ensures x * k <= y * k
  {
    assert y * k - x * k == (y - x) * k;
  }
}
