/** The newer advanced-search panel: it turns the filter tokens into request
    parameters, and when the request fails it filters its own mock records with a
    local evaluator (case-insensitive free text over every field, verbatim-prefix
    IP exclusion, tags kept as JSON text and matched with `key:value` tokens). */
module SearchV2 {
  import opened Strings
  import opened Dict
  import opened Json
  import opened Filters

  /** One search hit as the API and the mock data deliver it; `tags` is JSON text. */
  datatype SearchResult = SearchResult(
    id: int, uri: string, username: string, password: string, domain: string,
    ip_address: Option<string>, port: Option<int>, path: Option<string>, tags: string,
    title: Option<string>, is_resolved: bool, is_accessible: bool, has_login_form: bool,
    login_form_type: Option<string>, web_application: Option<string>, is_parked: bool,
    is_breached: bool, created_at: string)

  /** `String(x)` of a nullable string or number. */
  function OptText(o: Option<string>): string { if o.None? then "null" else o.value }
  function OptIntText(o: Option<int>): string { if o.None? then "null" else IntToString(o.value) }

  /** `String(v)` for every `v` of `Object.values(result)`, in declaration order. */
  function FieldTexts(r: SearchResult): (ts: seq<string>)
    ensures |ts| == 18
  {
    [IntToString(r.id), r.uri, r.username, r.password, r.domain, OptText(r.ip_address),
     OptIntText(r.port), OptText(r.path), r.tags, OptText(r.title), BoolText(r.is_resolved),
     BoolText(r.is_accessible), BoolText(r.has_login_form), OptText(r.login_form_type),
     OptText(r.web_application), BoolText(r.is_parked), BoolText(r.is_breached), r.created_at]
  }

  /** The free-text stage: an empty query keeps everything; otherwise some field's
      lowercased text must contain the lowercased query. */
  predicate MatchesQuery(r: SearchResult, q: string) {
    q == "" || exists i :: 0 <= i < 18 && Contains(ToLower(FieldTexts(r)[i]), ToLower(q))
  }

  /** The IP stage: a non-empty address is dropped when it starts with some range
      string, taken verbatim. */
  predicate IpExcluded(r: SearchResult, ranges: seq<string>) {
    r.ip_address.Some? && r.ip_address.value != "" &&
    exists j :: 0 <= j < |ranges| && StartsWith(r.ip_address.value, ranges[j])
  }

  /** The `status` filter values; any other value is no constraint. */
  predicate StatusMatches(r: SearchResult, v: string) {
    if v == "unresolved" then !r.is_resolved
    else if v == "accessible" then r.is_accessible
    else if v == "login_form" then r.has_login_form
    else if v == "parked" then r.is_parked
    else if v == "breached" then r.is_breached
    else true
  }

  /** `const [tagType, tagValue] = value.split(':')`: the key, and the value when
      there is a second piece (otherwise `undefined`). */
  function TagParts(value: string): (kv: (string, Option<string>))
    ensures NoChar(kv.0, ':')
    ensures kv.1.Some? ==> NoChar(kv.1.value, ':')
  {
    var pieces := Split(value, ':');
    (pieces[0], if |pieces| >= 2 then Some(pieces[1]) else None)
  }

  /** `JSON.parse(tags)[tagType] === tagValue`. An own property compares its
      value; an inherited member is a function (or the prototype, for
      `__proto__`), equal neither to a string nor to `undefined`; a missing
      property is `undefined`. A parse error, or a `null` document whose read
      throws, is caught as no match. */
  predicate TagMatches(p: Parsed, value: string) {
    var (key, want) := TagParts(value);
    if !IsDocument(p) then false
    else
      match Get(p, key)
      case Own(v) => want.Some? && v == Str(want.value)
      case Inherited => false
      case Missing => want.None?
  }

  /** One filter token against one record. */
  predicate FilterMatches(r: SearchResult, f: SearchFilter, parse: Parser) {
    match f.kind
    case Application =>
      r.web_application.Some? && ToLower(r.web_application.value) == ToLower(f.value)
    case LoginType => r.login_form_type == Some(f.value)
    case Status => StatusMatches(r, f.value)
    case Tag => TagMatches(parse(r.tags), f.value)
    case _ => true
  }

  /** Query stage, IP stage and every filter. */
  predicate Keep(r: SearchResult, q: string, fs: seq<SearchFilter>, ranges: seq<string>, parse: Parser) {
    MatchesQuery(r, q) && !IpExcluded(r, ranges) &&
    forall i :: 0 <= i < |fs| ==> FilterMatches(r, fs[i], parse)
  }

  function Keeps(q: string, fs: seq<SearchFilter>, ranges: seq<string>, parse: Parser): SearchResult -> bool {
    (r: SearchResult) => Keep(r, q, fs, ranges, parse)
  }

  /** `mockResults.filter(...)`: the fallback evaluator. */
  function Evaluate(records: seq<SearchResult>, q: string, fs: seq<SearchFilter>,
                    ranges: seq<string>, parse: Parser): (rs: seq<SearchResult>)
    ensures Subseq(rs, records)
    ensures forall i :: 0 <= i < |rs| ==> rs[i] in records && Keep(rs[i], q, fs, ranges, parse)
    ensures forall i :: 0 <= i < |records| && Keep(records[i], q, fs, ranges, parse) ==> records[i] in rs
  {
    FilterIsSubseq(records, Keeps(q, fs, ranges, parse));
    Filter(records, Keeps(q, fs, ranges, parse))
  }

  // ---------------------------------------------------------------- query stage

  /** The query is compared case-insensitively: lowercasing it changes nothing. */
  lemma QueryCaseInsensitive(r: SearchResult, q: string)
    ensures MatchesQuery(r, q) <==> MatchesQuery(r, ToLower(q))
  {
    ToLowerIdempotent(q);
  }

  lemma ContainsSelf(s: string)
    ensures Contains(s, s)
  {
    assert s + "" == s;
    ContainsPrefix(s, "");
  }

  /** The word "null" finds every record that has a null field. */
  lemma NullQueryMatchesNullField(r: SearchResult, i: nat)
    requires i < 18 && FieldTexts(r)[i] == "null"
    ensures MatchesQuery(r, "null") && MatchesQuery(r, "NULL")
  {
    assert ToLower("null") == "null";
    assert ToLower("NULL") == "null";
    ContainsSelf("null");
    assert Contains(ToLower(FieldTexts(r)[i]), ToLower("null"));
  }

  /** "true" and "false" find records through their boolean fields. */
  lemma BooleanQueryMatches(r: SearchResult)
    ensures r.is_resolved ==> MatchesQuery(r, "true")
    ensures !r.is_resolved ==> MatchesQuery(r, "false")
  {
    assert ToLower("true") == "true";
    assert ToLower("false") == "false";
    ContainsSelf("true");
    ContainsSelf("false");
    assert FieldTexts(r)[10] == BoolText(r.is_resolved);
  }

  // ------------------------------------------------------------------- IP stage

  /** A range string holding a `/` never excludes an address without one, and a
      null address is never excluded. */
  lemma CidrNeverExcludesAddress(r: SearchResult, ranges: seq<string>)
    requires r.ip_address.Some? ==> NoChar(r.ip_address.value, '/')
    requires forall j :: 0 <= j < |ranges| ==> !NoChar(ranges[j], '/')
    ensures !IpExcluded(r, ranges)
  {
    if r.ip_address.Some? {
      var ip := r.ip_address.value;
      forall j | 0 <= j < |ranges| ensures !StartsWith(ip, ranges[j]) {
        var m :| 0 <= m < |ranges[j]| && ranges[j][m] == '/';
        if |ranges[j]| <= |ip| {
          assert ip[m] != '/';
          assert ip[..|ranges[j]|][m] != ranges[j][m];
        }
      }
    }
  }

  /** A bare address entry drops that address. */
  lemma ListedAddressExcluded(r: SearchResult, ranges: seq<string>, j: nat)
    requires j < |ranges| && r.ip_address == Some(ranges[j]) && ranges[j] != ""
    ensures IpExcluded(r, ranges)
  {
    assert ranges[j][..|ranges[j]|] == ranges[j];
  }

  // ----------------------------------------------------------------- tag filter

  /** A chip token `k:v` built from a key and a string value without `:`
      matches exactly the documents whose own property `k` is the string `v`;
      no inherited member is a string. */
  lemma TagPairMatches(p: Parsed, k: string, v: string)
    requires NoChar(k, ':') && NoChar(v, ':')
    ensures TagMatches(p, k + ":" + v) <==> IsDocument(p) && Lookup(OwnEntries(p), k) == Some(Str(v))
  {
    assert k + ":" + v == k + [':'] + v;
    SplitConcat(k, ':', v);
    SplitNoChar(v, ':');
    assert TagParts(k + ":" + v) == (k, Some(v));
  }

  /** A token without `:` matches exactly the objects that neither have the key
      nor inherit it from `Object.prototype`. */
  lemma TagKeyOnlyMatches(e: Entries<Value>, k: string)
    requires NoChar(k, ':')
    ensures TagMatches(Object(e), k) <==> k !in KeyList(e) && k !in ObjectPrototypeNames
  {
    SplitNoChar(k, ':');
    assert TagParts(k) == (k, None);
  }

  /** A key-only token naming an `Object.prototype` member, such as
      `constructor`, matches no record at all. */
  lemma PrototypeKeyNeverMatches(p: Parsed, k: string)
    requires NoChar(k, ':') && k in ObjectPrototypeNames
    ensures !TagMatches(p, k)
  {
    SplitNoChar(k, ':');
    assert TagParts(k) == (k, None);
  }

  /** Reading a string document by index: `"ab"` has the own property `0`
      holding `"a"`, so the token `0:a` matches it. */
  lemma StringDocIndexMatches()
    ensures TagMatches(StringDoc("ab"), "0:a")
    ensures !TagMatches(StringDoc("ab"), "0:b")
  {
    var p := StringDoc("ab");
    assert NatToString(0) == "0";
    var e := OwnEntries(p);
    assert e[0] == ("0", Str("a"));
    assert Lookup(e, "0") == Some(Str("a"));
    assert "0:a" == "0" + ":" + "a" && "0:b" == "0" + ":" + "b";
    TagPairMatches(p, "0", "a");
    TagPairMatches(p, "0", "b");
  }

  /** Tags that fail to parse, or parse to `null`, make every tag filter false. */
  lemma TagUnparsableFails(r: SearchResult, f: SearchFilter, parse: Parser)
    requires f.kind == Tag && (parse(r.tags).Invalid? || parse(r.tags).NullValue?)
    ensures !FilterMatches(r, f, parse)
  {
  }

  // --------------------------------------------------------------- combination

  /** Domain, ip, port and path tokens never exclude anything, and the status,
      application and login-type rules are as listed. */
  lemma FilterKinds(r: SearchResult, f: SearchFilter, parse: Parser)
    ensures f.kind in {Domain, Ip, Port, Path} ==> FilterMatches(r, f, parse)
    ensures f.kind == Application ==>
              (FilterMatches(r, f, parse) <==>
                r.web_application.Some? && ToLower(r.web_application.value) == ToLower(f.value))
    ensures f.kind == LoginType ==> (FilterMatches(r, f, parse) <==> r.login_form_type == Some(f.value))
    ensures f.kind == Status && f.value == "unresolved" ==> (FilterMatches(r, f, parse) <==> !r.is_resolved)
    ensures f.kind == Status && f.value == "breached" ==> (FilterMatches(r, f, parse) <==> r.is_breached)
    ensures r.web_application.None? && f.kind == Application ==> !FilterMatches(r, f, parse)
  {
  }

  /** With an empty query, no ranges and no filters the fallback keeps every record. */
  lemma EvaluateKeepsAll(records: seq<SearchResult>, parse: Parser)
    ensures Evaluate(records, "", [], [], parse) == records
  {
    FilterAll(records, Keeps("", [], [], parse));
  }

  /** Filters combine by conjunction: one more token only ever narrows the result. */
  lemma MoreFiltersNarrow(records: seq<SearchResult>, q: string, fs: seq<SearchFilter>,
                          f: SearchFilter, ranges: seq<string>, parse: Parser)
    ensures Subseq(Evaluate(records, q, fs + [f], ranges, parse), Evaluate(records, q, fs, ranges, parse))
  {
    forall i | 0 <= i < |records| && Keeps(q, fs + [f], ranges, parse)(records[i])
      ensures Keeps(q, fs, ranges, parse)(records[i])
    {
      forall j | 0 <= j < |fs| ensures FilterMatches(records[i], fs[j], parse) {
        assert (fs + [f])[j] == fs[j];
      }
    }
    FilterStronger(records, Keeps(q, fs + [f], ranges, parse), Keeps(q, fs, ranges, parse));
  }

  // ---------------------------------------------------------------- parameters

  datatype ParamValue = Text(s: string) | Texts(ss: seq<string>) | Undefined

  type Params = Entries<ParamValue>

  /** The key a token writes: `tag_<key>` for a tag, its type otherwise. */
  function ParamKey(f: SearchFilter): string {
    if f.kind == Tag then "tag_" + TagParts(f.value).0 else TypeName(f.kind)
  }

  function ParamVal(f: SearchFilter): ParamValue {
    if f.kind == Tag then
      (var want := TagParts(f.value).1; if want.Some? then Text(want.value) else Undefined)
    else Text(f.value)
  }

  function FilterPairs(fs: seq<SearchFilter>): (ps: Params)
    ensures |ps| == |fs|
    ensures forall i :: 0 <= i < |fs| ==> ps[i] == (ParamKey(fs[i]), ParamVal(fs[i]))
  {
    seq(|fs|, i requires 0 <= i < |fs| => (ParamKey(fs[i]), ParamVal(fs[i])))
  }

  function BaseParams(q: string, ranges: seq<string>): Params {
    [("q", Text(q)), ("excludedIpRanges", Texts(ranges))]
  }

  /** The request parameters: the base object with each token assigned in turn. */
  function ParamsOf(q: string, fs: seq<SearchFilter>, ranges: seq<string>): Params {
    Update(BaseParams(q, ranges), FilterPairs(fs))
  }

  /** No token can overwrite `q` or `excludedIpRanges`. */
  lemma ParamKeyNotFixed(f: SearchFilter)
    ensures ParamKey(f) != "q" && ParamKey(f) != "excludedIpRanges"
  {
    if f.kind == Tag {
      assert ParamKey(f)[0] == 't';
    }
  }

  /** `q` and `excludedIpRanges` are always present with the arguments' values. */
  lemma ParamsKeepFixed(q: string, fs: seq<SearchFilter>, ranges: seq<string>)
    ensures Lookup(ParamsOf(q, fs, ranges), "q") == Some(Text(q))
    ensures Lookup(ParamsOf(q, fs, ranges), "excludedIpRanges") == Some(Texts(ranges))
  {
    var ps := FilterPairs(fs);
    forall i | 0 <= i < |ps| ensures KeyList(ps)[i] != "q" && KeyList(ps)[i] != "excludedIpRanges" {
      ParamKeyNotFixed(fs[i]);
    }
    UpdateLookupLast(BaseParams(q, ranges), ps, "q");
    UpdateLookupLast(BaseParams(q, ranges), ps, "excludedIpRanges");
  }

  /** Among tokens writing the same key, the last one's value survives. */
  lemma ParamsLastTokenWins(q: string, fs: seq<SearchFilter>, ranges: seq<string>, i: nat)
    requires i < |fs|
    requires forall j :: i < j < |fs| ==> ParamKey(fs[j]) != ParamKey(fs[i])
    ensures Lookup(ParamsOf(q, fs, ranges), ParamKey(fs[i])) == Some(ParamVal(fs[i]))
  {
    var ps := FilterPairs(fs);
    LastValueAt(ps, i);
    ParamKeyNotFixed(fs[i]);
    UpdateLookupLast(BaseParams(q, ranges), ps, ParamKey(fs[i]));
  }

  /** Non-tag tokens write the same key exactly when they have the same type, and a
      tag token never shares a key with a non-tag one. */
  lemma ParamKeySameType(f: SearchFilter, g: SearchFilter)
    requires f.kind != Tag
    ensures ParamKey(f) == ParamKey(g) <==> f.kind == g.kind
  {
    if g.kind == Tag {
      assert |ParamKey(g)| >= 4 && ParamKey(g)[0] == 't';
    }
  }

  lemma FilterPairsSnoc(fs: seq<SearchFilter>, i: nat)
    requires i < |fs|
    ensures FilterPairs(fs[..i + 1]) == FilterPairs(fs[..i]) + [(ParamKey(fs[i]), ParamVal(fs[i]))]
  {
    assert fs[..i + 1] == fs[..i] + [fs[i]];
  }

  lemma ParamsStep(q: string, fs: seq<SearchFilter>, ranges: seq<string>, i: nat)
    requires i < |fs|
    ensures Update(BaseParams(q, ranges), FilterPairs(fs[..i + 1])) ==
            Set(Update(BaseParams(q, ranges), FilterPairs(fs[..i])), ParamKey(fs[i]), ParamVal(fs[i]))
  {
    FilterPairsSnoc(fs, i);
    UpdateSnoc(BaseParams(q, ranges), FilterPairs(fs[..i]), (ParamKey(fs[i]), ParamVal(fs[i])));
  }

  /** The body of the `forEach`: the key and value one token writes. */
  method TokenParam(f: SearchFilter) returns (key: string, val: ParamValue)
    ensures key == ParamKey(f) && val == ParamVal(f)
  {
    if f.kind == Tag {
      var pieces := Split(f.value, ':');
      key, val := "tag_" + pieces[0], if |pieces| >= 2 then Text(pieces[1]) else Undefined;
    } else {
      key, val := TypeName(f.kind), Text(f.value);
    }
  }

  /** `filters.forEach(...)`: fill the parameter object token by token. */
  method BuildParams(q: string, fs: seq<SearchFilter>, ranges: seq<string>) returns (params: Params)
    ensures params == ParamsOf(q, fs, ranges)
  {
    params := [("q", Text(q)), ("excludedIpRanges", Texts(ranges))];
    var i := 0;
    assert FilterPairs(fs[..0]) == [];
    while i < |fs|
      invariant 0 <= i <= |fs|
      invariant params == Update(BaseParams(q, ranges), FilterPairs(fs[..i]))
    {
      var f := fs[i];
      var key, val := TokenParam(f);
      ParamsStep(q, fs, ranges, i);
      params := Set(params, key, val);
      i := i + 1;
    }
    assert fs[..|fs|] == fs;
  }

  // ------------------------------------------------------------------ mock data

  const MockTagsText: string := "{\"type\":\"ecommerce\",\"priority\":\"high\",\"environment\":\"production\"}"

  /** The object the mock record's tag text stands for. */
  const MockTags: Entries<Value> :=
    [("type", Str("ecommerce")), ("priority", Str("high")), ("environment", Str("production"))]

  const MockRecord: SearchResult :=
    SearchResult(1, "https://example.com/login", "admin", "redacted", "example.com",
                 Some("192.168.1.1"), Some(443), Some("/login"), MockTagsText, Some("Admin Login"),
                 false, true, true, Some("basic"), Some("WordPress"), false, true,
                 "2024-01-18T10:00:00Z")

  const MockResults: seq<SearchResult> := [MockRecord]

  lemma KeepSingle(q: string, fs: seq<SearchFilter>, ranges: seq<string>, parse: Parser)
    requires Keep(MockRecord, q, fs, ranges, parse)
    ensures Evaluate(MockResults, q, fs, ranges, parse) == MockResults
  {
    FilterAll(MockResults, Keeps(q, fs, ranges, parse));
  }

  /** The lowercased application name finds the mock record. */
  lemma MockFoundByApplicationName(parse: Parser)
    ensures Evaluate(MockResults, "wordpress", [], [], parse) == MockResults
  {
    assert ToLower("WordPress") == "wordpress";
    assert ToLower("wordpress") == "wordpress";
    ContainsSelf("wordpress");
    assert FieldTexts(MockRecord)[14] == "WordPress";
    KeepSingle("wordpress", [], [], parse);
  }

  /** With a parser that reads the mock tag text as its object, the chip token
      `type:ecommerce` keeps the record. */
  lemma MockKeptByTagChip(parse: Parser)
    requires parse(MockTagsText) == Object(MockTags)
    ensures Evaluate(MockResults, "", [SearchFilter("filter_1", Tag, "type:ecommerce")], [], parse) == MockResults
  {
    var f := SearchFilter("filter_1", Tag, "type:ecommerce");
    MockTagChipMatches(f, parse);
    assert Keep(MockRecord, "", [f], [], parse);
    KeepSingle("", [f], [], parse);
  }

  lemma MockTagChipMatches(f: SearchFilter, parse: Parser)
    requires parse(MockTagsText) == Object(MockTags)
    requires f.kind == Tag && f.value == "type:ecommerce"
    ensures FilterMatches(MockRecord, f, parse)
  {
    assert f.value == "type" + ":" + "ecommerce";
    TagPairMatches(Object(MockTags), "type", "ecommerce");
    assert Lookup(MockTags, "type") == Some(Str("ecommerce"));
  }

  /** Private CIDR ranges never drop the mock record's private address. */
  lemma MockNotDroppedByCidr(parse: Parser)
    ensures Evaluate(MockResults, "", [], ["192.168.0.0/16", "10.0.0.0/8"], parse) == MockResults
  {
    assert "192.168.0.0/16"[11] == '/';
    assert "10.0.0.0/8"[8] == '/';
    CidrNeverExcludesAddress(MockRecord, ["192.168.0.0/16", "10.0.0.0/8"]);
    KeepSingle("", [], ["192.168.0.0/16", "10.0.0.0/8"], parse);
  }

  /** A bare textual prefix does drop it. */
  lemma MockDroppedByPrefix(parse: Parser)
    ensures Evaluate(MockResults, "", [], ["192.168."], parse) == []
  {
    var ranges := ["192.168."];
    assert StartsWith(MockRecord.ip_address.value, ranges[0]);
    assert IpExcluded(MockRecord, ranges);
  }

  // ----------------------------------------------------------- component state

  const FetchFailedMessage: string := "Failed to fetch search results. Falling back to mock data."

  /** The search endpoint as the component sees it: the results for a parameter
      object, or `None` when the request throws. */
  type Api = Params -> Option<seq<SearchResult>>

  /** What the panel shows once a fetch has finished. */
  datatype Shown = Shown(results: seq<SearchResult>, error: Option<string>, isMockData: bool)

  function FetchOutcome(q: string, fs: seq<SearchFilter>, ranges: seq<string>, api: Api, parse: Parser): Shown {
    var response := api(ParamsOf(q, fs, ranges));
    if response.Some? then Shown(response.value, None, false)
    else Shown(Evaluate(MockResults, q, fs, ranges, parse), Some(FetchFailedMessage), true)
  }

  /** After a fetch the mock flag and the error banner go together, and mock
      results are the records of the mock list that pass the evaluator, in order. */
  lemma FetchOutcomeFlags(q: string, fs: seq<SearchFilter>, ranges: seq<string>, api: Api, parse: Parser)
    ensures FetchOutcome(q, fs, ranges, api, parse).isMockData <==> FetchOutcome(q, fs, ranges, api, parse).error.Some?
    ensures FetchOutcome(q, fs, ranges, api, parse).isMockData ==>
              Subseq(FetchOutcome(q, fs, ranges, api, parse).results, MockResults)
    ensures !FetchOutcome(q, fs, ranges, api, parse).isMockData ==>
              api(ParamsOf(q, fs, ranges)) == Some(FetchOutcome(q, fs, ranges, api, parse).results)
  {
  }

  /** The panel's React state, plus lodash's id counter. */
  class SearchPanel {
    var searchQuery: string
    var activeFilters: seq<SearchFilter>
    var results: seq<SearchResult>
    var isLoading: bool
    var excludedIpRanges: seq<string>
    var error: Option<string>
    var isMockData: bool
    var idCounter: nat

    /** Token ids are distinct and all issued by the counter so far. */
    ghost predicate Valid()
      reads this
    {
      DistinctIds(activeFilters) && IssuedBefore(activeFilters, idCounter)
    }

    predicate Shows(o: Shown)
      reads this
    {
      results == o.results && error == o.error && isMockData == o.isMockData && !isLoading
    }

    constructor ()
      ensures Valid()
      ensures searchQuery == "" && activeFilters == [] && results == [] && !isLoading
      ensures excludedIpRanges == [] && error.None? && !isMockData && idCounter == 0
    {
      searchQuery := "";
      activeFilters := [];
      results := [];
      isLoading := false;
      excludedIpRanges := [];
      error := None;
      isMockData := false;
      idCounter := 0;
    }

    /** `fetchData`: build the parameters, ask the API, fall back to the mock
        evaluator when it throws, and end with the spinner off. */
    method FetchData(query: string, filters: seq<SearchFilter>, ipRanges: seq<string>, api: Api, parse: Parser)
      returns (params: Params)
      modifies this
      ensures params == ParamsOf(query, filters, ipRanges)
      ensures Shows(FetchOutcome(query, filters, ipRanges, api, parse))
      ensures searchQuery == old(searchQuery) && activeFilters == old(activeFilters)
      ensures excludedIpRanges == old(excludedIpRanges) && idCounter == old(idCounter)
    {
      isLoading := true;
      error := None;
      isMockData := false;
      params := BuildParams(query, filters, ipRanges);
      var response := api(params);
      if response.Some? {
        results := response.value;
      } else {
        error := Some(FetchFailedMessage);
        results := Evaluate(MockResults, query, filters, ipRanges, parse);
        isMockData := true;
      }
      isLoading := false;
    }

    method HandleSearchChange(newQuery: string, api: Api, parse: Parser)
      requires Valid()
      modifies this
      ensures Valid()
      ensures searchQuery == newQuery && activeFilters == old(activeFilters)
      ensures excludedIpRanges == old(excludedIpRanges) && idCounter == old(idCounter)
      ensures Shows(FetchOutcome(newQuery, activeFilters, excludedIpRanges, api, parse))
    {
      searchQuery := newQuery;
      var _ := FetchData(newQuery, activeFilters, excludedIpRanges, api, parse);
    }

    /** `addFilter`: append a token with a fresh `filter_<n>` id and search with the
        updated list. */
    method AddFilter(kind: FilterType, value: string, api: Api, parse: Parser)
      requires Valid()
      modifies this
      ensures Valid()
      ensures idCounter == old(idCounter) + 1
      ensures activeFilters == old(activeFilters) + [SearchFilter(UniqueId(idCounter), kind, value)]
      ensures !HasId(old(activeFilters), UniqueId(idCounter))
      ensures searchQuery == old(searchQuery) && excludedIpRanges == old(excludedIpRanges)
      ensures Shows(FetchOutcome(searchQuery, activeFilters, excludedIpRanges, api, parse))
    {
      AddFreshKeepsIds(activeFilters, idCounter, kind, value);
      idCounter := idCounter + 1;
      var updated := WithFilter(activeFilters, SearchFilter(UniqueId(idCounter), kind, value));
      activeFilters := updated;
      var _ := FetchData(searchQuery, updated, excludedIpRanges, api, parse);
    }

    /** `removeFilter`: drop every token with the id and search with the rest. */
    method RemoveFilter(filterId: string, api: Api, parse: Parser)
      requires Valid()
      modifies this
      ensures Valid()
      ensures activeFilters == WithoutId(old(activeFilters), filterId)
      ensures searchQuery == old(searchQuery) && excludedIpRanges == old(excludedIpRanges)
      ensures idCounter == old(idCounter)
      ensures Shows(FetchOutcome(searchQuery, activeFilters, excludedIpRanges, api, parse))
    {
      WithoutIdKeepsDistinct(activeFilters, filterId);
      WithoutIdKeepsIssued(activeFilters, filterId, idCounter);
      var updated := WithoutId(activeFilters, filterId);
      activeFilters := updated;
      var _ := FetchData(searchQuery, updated, excludedIpRanges, api, parse);
    }

    /** `handleIpRangeExclusion`: adopt the ranges the exclusion list reports. */
    method HandleIpRangeExclusion(ranges: seq<string>, api: Api, parse: Parser)
      requires Valid()
      modifies this
      ensures Valid()
      ensures excludedIpRanges == ranges && activeFilters == old(activeFilters)
      ensures searchQuery == old(searchQuery) && idCounter == old(idCounter)
      ensures Shows(FetchOutcome(searchQuery, activeFilters, ranges, api, parse))
    {
      excludedIpRanges := ranges;
      var _ := FetchData(searchQuery, activeFilters, ranges, api, parse);
    }
  }
}
