/** The breach store slice: the search query, filters, paging and results of the
    dashboard search, the dashboard metrics, and a loading flag and error message
    for each of the two requests. Reducers assign fields of the state in place. */
module BreachSlice {
  import opened Strings
  import opened Filters
  import SearchLegacy

  /** The slice's own filter record: a token plus an optional list of tags. */
  datatype StoreFilter = StoreFilter(id: string, tags: Option<seq<string>>, kind: FilterType, value: string)

  /** Result rows as the slice declares them: the shape with tags as an array. */
  type Row = SearchLegacy.LegacyResult

  datatype AppShare = AppShare(name: string, value: int, fullMark: int)
  datatype TimelinePoint = TimelinePoint(date: string, newBreaches: int, resolved: int)
  datatype LoginForms = LoginForms(basic: int, captcha: int, otp: int, other: int)

  datatype DashboardMetrics = DashboardMetrics(
    totalBreaches: int, resolvedBreaches: int, activeVulnerabilities: int, highRiskCount: int,
    applicationBreakdown: seq<AppShare>, timeline: seq<TimelinePoint>, loginFormDistribution: LoginForms)

  const EmptyMetrics: DashboardMetrics :=
    DashboardMetrics(0, 0, 0, 0, [], [], LoginForms(0, 0, 0, 0))

  const SearchFailed: string := "Search failed"
  const MetricsFailed: string := "Failed to fetch metrics"

  function OtherStoreId(id: string): StoreFilter -> bool {
    (f: StoreFilter) => f.id != id
  }

  /** `filters.filter(f => f.id !== id)`. */
  function WithoutStoreId(fs: seq<StoreFilter>, id: string): (r: seq<StoreFilter>)
    ensures Subseq(r, fs)
    ensures forall i :: 0 <= i < |r| ==> r[i].id != id && r[i] in fs
    ensures forall i :: 0 <= i < |fs| && fs[i].id != id ==> fs[i] in r
  {
    FilterIsSubseq(fs, OtherStoreId(id));
    Filter(fs, OtherStoreId(id))
  }

  predicate HasStoreId(fs: seq<StoreFilter>, id: string) {
    exists i :: 0 <= i < |fs| && fs[i].id == id
  }

  /** Removing an unknown id changes nothing. */
  lemma RemoveUnknownId(fs: seq<StoreFilter>, id: string)
    requires !HasStoreId(fs, id)
    ensures WithoutStoreId(fs, id) == fs
  {
    FilterAll(fs, OtherStoreId(id));
  }

  /** Removing the id of a filter just pushed with a fresh id restores the list. */
  lemma RemoveAfterAdd(fs: seq<StoreFilter>, f: StoreFilter)
    requires !HasStoreId(fs, f.id)
    ensures WithoutStoreId(fs + [f], f.id) == fs
  {
    var p := OtherStoreId(f.id);
    FilterConcat(fs, [f], p);
    FilterAll(fs, p);
    assert Filter([f], p) == [];
  }

  /** Removing twice is removing once. */
  lemma RemoveIdempotent(fs: seq<StoreFilter>, id: string)
    ensures WithoutStoreId(WithoutStoreId(fs, id), id) == WithoutStoreId(fs, id)
  {
    var r := WithoutStoreId(fs, id);
    FilterAll(r, OtherStoreId(id));
  }

  /** The slice state. */
  class BreachStore {
    var searchResults: seq<Row>
    var searchFilters: seq<StoreFilter>
    var searchQuery: string
    var currentPage: int
    var totalResults: int
    var itemsPerPage: int
    var metrics: DashboardMetrics
    var loadingSearch: bool
    var loadingMetrics: bool
    var errorSearch: Option<string>
    var errorMetrics: Option<string>

    /** A request in flight never shows an error of its own. */
    predicate Valid()
      reads this
    {
      (loadingSearch ==> errorSearch.None?) && (loadingMetrics ==> errorMetrics.None?)
    }

    /** `initialState`. */
    constructor ()
      ensures Valid()
      ensures searchResults == [] && searchFilters == [] && searchQuery == ""
      ensures currentPage == 1 && totalResults == 0 && itemsPerPage == 20
      ensures metrics == EmptyMetrics
      ensures !loadingSearch && !loadingMetrics && errorSearch.None? && errorMetrics.None?
    {
      searchResults := [];
      searchFilters := [];
      searchQuery := "";
      currentPage := 1;
      totalResults := 0;
      itemsPerPage := 20;
      metrics := EmptyMetrics;
      loadingSearch := false;
      loadingMetrics := false;
      errorSearch := None;
      errorMetrics := None;
    }

    method SetSearchQuery(q: string)
      requires Valid()
      modifies this
      ensures Valid()
      ensures searchQuery == q
      ensures searchResults == old(searchResults) && searchFilters == old(searchFilters)
      ensures currentPage == old(currentPage) && totalResults == old(totalResults)
      ensures itemsPerPage == old(itemsPerPage) && metrics == old(metrics)
      ensures loadingSearch == old(loadingSearch) && loadingMetrics == old(loadingMetrics)
      ensures errorSearch == old(errorSearch) && errorMetrics == old(errorMetrics)
    {
      searchQuery := q;
    }

    /** `state.searchFilters.push(payload)`. */
    method AddSearchFilter(f: StoreFilter)
      requires Valid()
      modifies this
      ensures Valid()
      ensures searchFilters == old(searchFilters) + [f]
      ensures searchResults == old(searchResults) && searchQuery == old(searchQuery)
      ensures currentPage == old(currentPage) && totalResults == old(totalResults)
      ensures itemsPerPage == old(itemsPerPage) && metrics == old(metrics)
      ensures loadingSearch == old(loadingSearch) && loadingMetrics == old(loadingMetrics)
      ensures errorSearch == old(errorSearch) && errorMetrics == old(errorMetrics)
    {
      searchFilters := searchFilters + [f];
    }

    method RemoveSearchFilter(id: string)
      requires Valid()
      modifies this
      ensures Valid()
      ensures searchFilters == WithoutStoreId(old(searchFilters), id)
      ensures searchResults == old(searchResults) && searchQuery == old(searchQuery)
      ensures currentPage == old(currentPage) && totalResults == old(totalResults)
      ensures itemsPerPage == old(itemsPerPage) && metrics == old(metrics)
      ensures loadingSearch == old(loadingSearch) && loadingMetrics == old(loadingMetrics)
      ensures errorSearch == old(errorSearch) && errorMetrics == old(errorMetrics)
    {
      searchFilters := WithoutStoreId(searchFilters, id);
    }

    method ClearSearchFilters()
      requires Valid()
      modifies this
      ensures Valid()
      ensures searchFilters == []
      ensures searchResults == old(searchResults) && searchQuery == old(searchQuery)
      ensures currentPage == old(currentPage) && totalResults == old(totalResults)
      ensures itemsPerPage == old(itemsPerPage) && metrics == old(metrics)
      ensures loadingSearch == old(loadingSearch) && loadingMetrics == old(loadingMetrics)
      ensures errorSearch == old(errorSearch) && errorMetrics == old(errorMetrics)
    {
      searchFilters := [];
    }

    method SetCurrentPage(page: int)
      requires Valid()
      modifies this
      ensures Valid()
      ensures currentPage == page
      ensures searchResults == old(searchResults) && searchFilters == old(searchFilters)
      ensures searchQuery == old(searchQuery) && totalResults == old(totalResults)
      ensures itemsPerPage == old(itemsPerPage) && metrics == old(metrics)
      ensures loadingSearch == old(loadingSearch) && loadingMetrics == old(loadingMetrics)
      ensures errorSearch == old(errorSearch) && errorMetrics == old(errorMetrics)
    {
      currentPage := page;
    }

    method SetItemsPerPage(n: int)
      requires Valid()
      modifies this
      ensures Valid()
      ensures itemsPerPage == n
      ensures searchResults == old(searchResults) && searchFilters == old(searchFilters)
      ensures searchQuery == old(searchQuery) && totalResults == old(totalResults)
      ensures currentPage == old(currentPage) && metrics == old(metrics)
      ensures loadingSearch == old(loadingSearch) && loadingMetrics == old(loadingMetrics)
      ensures errorSearch == old(errorSearch) && errorMetrics == old(errorMetrics)
    {
      itemsPerPage := n;
    }

    // ------------------------------------------------------ metrics request

    method MetricsPending()
      requires Valid()
      modifies this
      ensures Valid()
      ensures loadingMetrics && errorMetrics.None? && metrics == old(metrics)
      ensures searchResults == old(searchResults) && searchFilters == old(searchFilters)
      ensures searchQuery == old(searchQuery) && currentPage == old(currentPage)
      ensures totalResults == old(totalResults) && itemsPerPage == old(itemsPerPage)
      ensures loadingSearch == old(loadingSearch) && errorSearch == old(errorSearch)
    {
      loadingMetrics := true;
      errorMetrics := None;
    }

    method MetricsFulfilled(payload: DashboardMetrics)
      requires Valid()
      modifies this
      ensures Valid()
      ensures !loadingMetrics && metrics == payload && errorMetrics == old(errorMetrics)
      ensures searchResults == old(searchResults) && searchFilters == old(searchFilters)
      ensures searchQuery == old(searchQuery) && currentPage == old(currentPage)
      ensures totalResults == old(totalResults) && itemsPerPage == old(itemsPerPage)
      ensures loadingSearch == old(loadingSearch) && errorSearch == old(errorSearch)
    {
      loadingMetrics := false;
      metrics := payload;
    }

    method MetricsRejected(message: Option<string>)
      requires Valid()
      modifies this
      ensures Valid()
      ensures !loadingMetrics && errorMetrics == Some(ErrorText(message, MetricsFailed))
      ensures metrics == old(metrics)
      ensures searchResults == old(searchResults) && searchFilters == old(searchFilters)
      ensures searchQuery == old(searchQuery) && currentPage == old(currentPage)
      ensures totalResults == old(totalResults) && itemsPerPage == old(itemsPerPage)
      ensures loadingSearch == old(loadingSearch) && errorSearch == old(errorSearch)
    {
      loadingMetrics := false;
      errorMetrics := Some(ErrorText(message, MetricsFailed));
    }

    // ------------------------------------------------------- search request

    method SearchPending()
      requires Valid()
      modifies this
      ensures Valid()
      ensures loadingSearch && errorSearch.None?
      ensures searchResults == old(searchResults) && totalResults == old(totalResults)
      ensures searchFilters == old(searchFilters) && searchQuery == old(searchQuery)
      ensures currentPage == old(currentPage) && itemsPerPage == old(itemsPerPage)
      ensures metrics == old(metrics) && loadingMetrics == old(loadingMetrics)
      ensures errorMetrics == old(errorMetrics)
    {
      loadingSearch := true;
      errorSearch := None;
    }

    method SearchFulfilled(results: seq<Row>, total: int)
      requires Valid()
      modifies this
      ensures Valid()
      ensures !loadingSearch && searchResults == results && totalResults == total
      ensures errorSearch == old(errorSearch)
      ensures searchFilters == old(searchFilters) && searchQuery == old(searchQuery)
      ensures currentPage == old(currentPage) && itemsPerPage == old(itemsPerPage)
      ensures metrics == old(metrics) && loadingMetrics == old(loadingMetrics)
      ensures errorMetrics == old(errorMetrics)
    {
      loadingSearch := false;
      searchResults := results;
      totalResults := total;
    }

    method SearchRejected(message: Option<string>)
      requires Valid()
      modifies this
      ensures Valid()
      ensures !loadingSearch && errorSearch == Some(ErrorText(message, SearchFailed))
      ensures searchResults == old(searchResults) && totalResults == old(totalResults)
      ensures searchFilters == old(searchFilters) && searchQuery == old(searchQuery)
      ensures currentPage == old(currentPage) && itemsPerPage == old(itemsPerPage)
      ensures metrics == old(metrics) && loadingMetrics == old(loadingMetrics)
      ensures errorMetrics == old(errorMetrics)
    {
      loadingSearch := false;
      errorSearch := Some(ErrorText(message, SearchFailed));
    }
  }

  /** A rejected request always leaves a non-empty error message. */
  lemma RejectionAlwaysExplains(message: Option<string>)
    ensures ErrorText(message, SearchFailed) != "" && ErrorText(message, MetricsFailed) != ""
  {
  }

  /** An empty message is as good as none. */
  lemma EmptyMessageFallsBack(fallback: string)
    ensures ErrorText(Some(""), fallback) == ErrorText(None, fallback) == fallback
  {
  }
}
