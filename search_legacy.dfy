/** The older advanced-search component: the same filter tokens, but a local
    evaluator with case-sensitive free text over domain, URI and address, an IP
    exclusion that compares the part of each range before `/` as a textual prefix,
    and tags kept as an array of strings. */
module SearchLegacy {
  import opened Strings
  import opened Filters
  import IpRanges
  import SearchV2

  datatype LegacyResult = LegacyResult(
    id: int, uri: string, username: string, password: string, domain: string,
    ip_address: Option<string>, port: Option<int>, path: Option<string>, tags: seq<string>,
    title: Option<string>, is_resolved: bool, is_accessible: bool, has_login_form: bool,
    login_form_type: Option<string>, web_application: Option<string>, is_parked: bool,
    is_breached: bool, created_at: string)

  /** A non-empty address; an empty one is as falsy as `null`. */
  predicate HasAddress(r: LegacyResult) {
    r.ip_address.Some? && r.ip_address.value != ""
  }

  /** Free text: empty, or a case-sensitive substring of domain, URI or address. */
  predicate MatchesQuery(r: LegacyResult, q: string) {
    q == "" || Contains(r.domain, q) || Contains(r.uri, q) ||
    (HasAddress(r) && Contains(r.ip_address.value, q))
  }

  /** The chain of conditional expressions for `status`. */
  predicate StatusMatches(r: LegacyResult, v: string) {
    if v == "unresolved" then !r.is_resolved
    else if v == "accessible" then r.is_accessible
    else if v == "login_form" then r.has_login_form
    else if v == "parked" then r.is_parked
    else if v == "breached" then r.is_breached
    else true
  }

  predicate FilterMatches(r: LegacyResult, f: SearchFilter) {
    match f.kind
    case Status => StatusMatches(r, f.value)
    case Application => r.web_application.Some? && ToLower(r.web_application.value) == f.value
    case LoginType => r.login_form_type == Some(f.value)
    case Tag => f.value in r.tags
    case _ => true
  }

  /** The part of a range before its first `/`. */
  function RangePrefix(range: string): (p: string)
    ensures NoChar(p, '/')
  {
    Split(range, '/')[0]
  }

  predicate NotExcluded(r: LegacyResult, ranges: seq<string>) {
    !HasAddress(r) ||
    !exists j :: 0 <= j < |ranges| && StartsWith(r.ip_address.value, RangePrefix(ranges[j]))
  }

  predicate Keep(r: LegacyResult, q: string, fs: seq<SearchFilter>, ranges: seq<string>) {
    MatchesQuery(r, q) && (forall i :: 0 <= i < |fs| ==> FilterMatches(r, fs[i])) && NotExcluded(r, ranges)
  }

  function Keeps(q: string, fs: seq<SearchFilter>, ranges: seq<string>): LegacyResult -> bool {
    (r: LegacyResult) => Keep(r, q, fs, ranges)
  }

  /** `mockResults.filter(...)` inside `performSearch`. */
  function Evaluate(records: seq<LegacyResult>, q: string, fs: seq<SearchFilter>, ranges: seq<string>)
    : (rs: seq<LegacyResult>)
    ensures Subseq(rs, records)
    ensures forall i :: 0 <= i < |rs| ==> rs[i] in records && Keep(rs[i], q, fs, ranges)
    ensures forall i :: 0 <= i < |records| && Keep(records[i], q, fs, ranges) ==> records[i] in rs
  {
    FilterIsSubseq(records, Keeps(q, fs, ranges));
    Filter(records, Keeps(q, fs, ranges))
  }

  // -------------------------------------------------------------------- rules

  /** An application token with an uppercase letter never matches, because only
      the record side is lowercased. */
  lemma UppercaseApplicationNeverMatches(r: LegacyResult, f: SearchFilter)
    requires f.kind == Application && HasUpper(f.value)
    ensures !FilterMatches(r, f)
  {
    if r.web_application.Some? {
      ToLowerHasNoUpper(r.web_application.value);
    }
  }

  /** A range `p/n` with `p` free of `/` excludes exactly the addresses that start
      with `p`, whatever the prefix length says. */
  lemma PrefixBeforeSlash(p: string, n: string)
    requires NoChar(p, '/')
    ensures RangePrefix(p + "/" + n) == p
  {
    assert p + "/" + n == p + ['/'] + n;
    SplitConcat(p, '/', n);
  }

  /** `10.0.0.15` is excluded by `10.0.0.1/32`: the prefix length is ignored. */
  lemma HostRangeExcludesLongerAddress(s: LegacyResult)
    requires s.ip_address == Some("10.0.0.15")
    ensures !Keep(s, "", [], ["10.0.0.1/32"])
  {
    RangeCoversAddress(s, "10.0.0.1/32", "10.0.0.1", "32");
  }

  /** A record whose address starts with `p` is dropped by the single range `p/n`. */
  lemma RangeCoversAddress(s: LegacyResult, range: string, p: string, n: string)
    requires s.ip_address.Some? && s.ip_address.value != "" && StartsWith(s.ip_address.value, p)
    requires range == p + "/" + n && NoChar(p, '/')
    ensures !Keep(s, "", [], [range])
  {
    PrefixBeforeSlash(p, n);
    assert [range][0] == range;
  }

  /** `10.0.0.1` is not excluded by `10.0.0.0/8`: the comparison is textual. */
  lemma NetworkRangeMissesHost(r: LegacyResult)
    requires r.ip_address == Some("10.0.0.1")
    ensures Keep(r, "", [], ["10.0.0.0/8"])
  {
    var ranges := ["10.0.0.0/8"];
    assert ranges[0] == "10.0.0.0" + "/" + "8";
    PrefixBeforeSlash("10.0.0.0", "8");
    assert "10.0.0.1"[7] != "10.0.0.0"[7];
    assert !StartsWith(r.ip_address.value, RangePrefix(ranges[0]));
  }

  /** Records without an address are never excluded. */
  lemma NoAddressNeverExcluded(r: LegacyResult, ranges: seq<string>)
    requires !HasAddress(r)
    ensures NotExcluded(r, ranges)
  {
  }

  /** Clicking a tag chip adds that exact tag, and the record carrying it passes. */
  lemma ChipTokenMatchesItsRecord(r: LegacyResult, i: nat, id: string)
    requires i < |r.tags|
    ensures FilterMatches(r, SearchFilter(id, Tag, r.tags[i]))
  {
  }

  /** The status mapping agrees with the newer component's `switch` on any
      record with the same flags. */
  lemma StatusSameAsNewer(r: LegacyResult, n: SearchV2.SearchResult, v: string)
    requires r.is_resolved == n.is_resolved && r.is_accessible == n.is_accessible
    requires r.has_login_form == n.has_login_form && r.is_parked == n.is_parked
    requires r.is_breached == n.is_breached
    ensures StatusMatches(r, v) == SearchV2.StatusMatches(n, v)
  {
  }

  // -------------------------------------------------------------- mock data

  const MockResults: seq<LegacyResult> := [
    LegacyResult(1, "https://example.com/login", "admin", "redacted", "example.com",
                 Some("192.168.1.1"), Some(443), Some("/login"), ["critical", "unresolved", "healthcare"],
                 Some("Admin Login"), false, true, true, Some("basic"), Some("WordPress"), false, true,
                 "2024-01-18T10:00:00Z"),
    LegacyResult(2, "https://test.example.org/admin", "user", "redacted", "test.example.org",
                 Some("10.0.0.1"), Some(8080), Some("/admin"), ["medium", "resolved", "internal"],
                 Some("User Portal"), true, true, true, Some("captcha"), Some("Custom"), false, false,
                 "2024-01-17T15:30:00Z")]

  /** A mismatch at some position rules a prefix out. */
  lemma MismatchNotPrefix(s: string, p: string, k: nat)
    requires k < |p| && k < |s| && s[k] != p[k]
    ensures !StartsWith(s, p)
  {
    if |p| <= |s| { assert s[..|p|][k] != p[k]; }
  }

  /** A range `p/n` misses an address that differs from `p` at some position. */
  lemma RangeMissesAddress(range: string, p: string, n: string, ip: string, k: nat)
    requires range == p + "/" + n && NoChar(p, '/')
    requires k < |p| && k < |ip| && ip[k] != p[k]
    ensures !StartsWith(ip, RangePrefix(range))
  {
    PrefixBeforeSlash(p, n);
    MismatchNotPrefix(ip, p, k);
  }

  /** Neither mock address starts with the part before `/` of a default range. */
  lemma MockAddressesNotExcluded(j: nat)
    requires j < |IpRanges.DefaultExcludedRanges|
    ensures !StartsWith("192.168.1.1", RangePrefix(IpRanges.DefaultExcludedRanges[j]))
    ensures !StartsWith("10.0.0.1", RangePrefix(IpRanges.DefaultExcludedRanges[j]))
  {
    var d := IpRanges.DefaultExcludedRanges;
    if j == 0 {
      RangeMissesAddress(d[j], "127.0.0.0", "8", "192.168.1.1", 1);
      RangeMissesAddress(d[j], "127.0.0.0", "8", "10.0.0.1", 1);
    } else if j == 1 {
      RangeMissesAddress(d[j], "10.0.0.0", "8", "192.168.1.1", 1);
      RangeMissesAddress(d[j], "10.0.0.0", "8", "10.0.0.1", 7);
    } else if j == 2 {
      RangeMissesAddress(d[j], "172.16.0.0", "12", "192.168.1.1", 1);
      RangeMissesAddress(d[j], "172.16.0.0", "12", "10.0.0.1", 1);
    } else {
      RangeMissesAddress(d[j], "192.168.0.0", "16", "192.168.1.1", 8);
      RangeMissesAddress(d[j], "192.168.0.0", "16", "10.0.0.1", 1);
    }
  }

  /** No address of the mock list starts with the part before `/` of any default
      range, so even the displayed defaults would drop nothing from it. */
  lemma DefaultsDropNoMock()
    ensures Evaluate(MockResults, "", [], IpRanges.DefaultExcludedRanges) == MockResults
  {
    var d := IpRanges.DefaultExcludedRanges;
    forall j | 0 <= j < |d|
      ensures !StartsWith(MockResults[0].ip_address.value, RangePrefix(d[j]))
      ensures !StartsWith(MockResults[1].ip_address.value, RangePrefix(d[j]))
    {
      MockAddressesNotExcluded(j);
    }
    assert NotExcluded(MockResults[0], d) && NotExcluded(MockResults[1], d);
    forall r | r in MockResults ensures Keeps("", [], d)(r) {
    }
    FilterAll(MockResults, Keeps("", [], d));
  }

  /** The second mock record carries no `healthcare` tag. */
  lemma SecondMockLacksHealthcare()
    ensures "healthcare" !in MockResults[1].tags
  {
    var t := MockResults[1].tags;
    assert t == ["medium", "resolved", "internal"];
    assert t[0][0] != 'h' && t[1][0] != 'h' && t[2][0] != 'h';
  }

  /** Exclusions start empty here, so a search made before the range editor
      reports keeps both mock records, and a chip tag of the first record keeps
      only that one. */
  lemma InitialSearchExamples()
    ensures Evaluate(MockResults, "", [], []) == MockResults
    ensures Evaluate(MockResults, "", [SearchFilter("filter_1", Tag, "healthcare")], []) == [MockResults[0]]
  {
    FilterAll(MockResults, Keeps("", [], []));
    var f := SearchFilter("filter_1", Tag, "healthcare");
    assert MockResults[0].tags[2] == "healthcare";
    SecondMockLacksHealthcare();
    assert Keep(MockResults[0], "", [f], []);
    assert !FilterMatches(MockResults[1], [f][0]);
    assert !Keep(MockResults[1], "", [f], []);
    assert MockResults == [MockResults[0]] + [MockResults[1]];
    FilterConcat([MockResults[0]], [MockResults[1]], Keeps("", [f], []));
  }

  // ---------------------------------------------------------- component state

  /** The component's React state, plus lodash's id counter. */
  class LegacySearchPanel {
    var searchQuery: string
    var activeFilters: seq<SearchFilter>
    var results: seq<LegacyResult>
    var isLoading: bool
    var excludedIpRanges: seq<string>
    var idCounter: nat

    ghost predicate Valid()
      reads this
    {
      DistinctIds(activeFilters) && IssuedBefore(activeFilters, idCounter)
    }

    constructor ()
      ensures Valid()
      ensures searchQuery == "" && activeFilters == [] && results == [] && !isLoading
      ensures excludedIpRanges == [] && idCounter == 0
    {
      searchQuery := "";
      activeFilters := [];
      results := [];
      isLoading := false;
      excludedIpRanges := [];
      idCounter := 0;
    }

    /** `performSearch`; `thrown` says whether the awaited call threw, which makes
        the results empty. */
    method PerformSearch(query: string, filters: seq<SearchFilter>, ipRanges: seq<string>, thrown: bool)
      modifies this
      ensures results == if thrown then [] else Evaluate(MockResults, query, filters, ipRanges)
      ensures !isLoading
      ensures searchQuery == old(searchQuery) && activeFilters == old(activeFilters)
      ensures excludedIpRanges == old(excludedIpRanges) && idCounter == old(idCounter)
    {
      isLoading := true;
      if thrown {
        results := [];
      } else {
        results := Evaluate(MockResults, query, filters, ipRanges);
      }
      isLoading := false;
    }

    method AddFilter(kind: FilterType, value: string, thrown: bool)
      requires Valid()
      modifies this
      ensures Valid()
      ensures idCounter == old(idCounter) + 1
      ensures activeFilters == old(activeFilters) + [SearchFilter(UniqueId(idCounter), kind, value)]
      ensures !HasId(old(activeFilters), UniqueId(idCounter))
      ensures searchQuery == old(searchQuery) && excludedIpRanges == old(excludedIpRanges)
      ensures results == if thrown then [] else Evaluate(MockResults, searchQuery, activeFilters, excludedIpRanges)
      ensures !isLoading
    {
      AddFreshKeepsIds(activeFilters, idCounter, kind, value);
      idCounter := idCounter + 1;
      var updated := WithFilter(activeFilters, SearchFilter(UniqueId(idCounter), kind, value));
      activeFilters := updated;
      PerformSearch(searchQuery, updated, excludedIpRanges, thrown);
    }

    method RemoveFilter(filterId: string, thrown: bool)
      requires Valid()
      modifies this
      ensures Valid()
      ensures activeFilters == WithoutId(old(activeFilters), filterId)
      ensures searchQuery == old(searchQuery) && excludedIpRanges == old(excludedIpRanges)
      ensures idCounter == old(idCounter)
      ensures results == if thrown then [] else Evaluate(MockResults, searchQuery, activeFilters, excludedIpRanges)
      ensures !isLoading
    {
      WithoutIdKeepsDistinct(activeFilters, filterId);
      WithoutIdKeepsIssued(activeFilters, filterId, idCounter);
      var updated := WithoutId(activeFilters, filterId);
      activeFilters := updated;
      PerformSearch(searchQuery, updated, excludedIpRanges, thrown);
    }

    method HandleSearchChange(newQuery: string, thrown: bool)
      requires Valid()
      modifies this
      ensures Valid()
      ensures searchQuery == newQuery && activeFilters == old(activeFilters)
      ensures excludedIpRanges == old(excludedIpRanges) && idCounter == old(idCounter)
      ensures results == if thrown then [] else Evaluate(MockResults, newQuery, activeFilters, excludedIpRanges)
      ensures !isLoading
    {
      searchQuery := newQuery;
      PerformSearch(newQuery, activeFilters, excludedIpRanges, thrown);
    }

    /** The exclusion list is replaced only when the range editor reports a change. */
    method HandleIpRangeExclusion(ranges: seq<string>, thrown: bool)
      requires Valid()
      modifies this
      ensures Valid()
      ensures excludedIpRanges == ranges && activeFilters == old(activeFilters)
      ensures searchQuery == old(searchQuery) && idCounter == old(idCounter)
      ensures results == if thrown then [] else Evaluate(MockResults, searchQuery, activeFilters, ranges)
      ensures !isLoading
    {
      excludedIpRanges := ranges;
      PerformSearch(searchQuery, activeFilters, ranges, thrown);
    }
  }
}
