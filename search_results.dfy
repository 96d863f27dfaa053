/** The result table of the newer search panel: per-row status badges
    normalised from the record's options, clickable tag chips whose tokens
    feed back into the panel's tag filter, and the loading, mock-data and
    empty-result conditions. */
module SearchResults {
  import opened Strings
  import opened Dict
  import opened Json
  import opened Filters
  import opened SearchV2

  /** What the row hands to its status indicators; `None` is `undefined`. */
  datatype StatusProps = StatusProps(
    isAccessible: bool, hasLoginForm: bool, loginType: Option<string>,
    applicationName: Option<string>, title: Option<string>, isParked: bool, wasBreached: bool)

  /** A nullable string is truthy when it is present and non-empty. */
  predicate Truthy(o: Option<string>) { o.Some? && o.value != "" }

  /** `x && x.trim() !== '' ? x : undefined`. */
  function NonBlank(o: Option<string>): (r: Option<string>)
    ensures r.Some? <==> o.Some? && !IsBlank(o.value)
    ensures r.Some? ==> r == o
  {
    if o.None? then None
    else
      TrimEmptyIffBlank(o.value);
      if Truthy(o) && Trim(o.value) != "" then o else None
  }

  /** `processURLStatusData`. */
  function ProcessUrlStatus(r: SearchResult): (p: StatusProps)
    ensures p.loginType.Some? <==> r.has_login_form && Truthy(r.login_form_type)
    ensures p.loginType.Some? ==> p.loginType == r.login_form_type
    ensures p.applicationName.Some? <==> r.web_application.Some? && !IsBlank(r.web_application.value)
    ensures p.applicationName.Some? ==> p.applicationName == r.web_application
    ensures p.title.Some? <==> r.title.Some? && !IsBlank(r.title.value)
    ensures p.title.Some? ==> p.title == r.title
  {
    StatusProps(
      r.is_accessible, r.has_login_form,
      if r.has_login_form && Truthy(r.login_form_type) then r.login_form_type else None,
      NonBlank(r.web_application), NonBlank(r.title), r.is_parked, r.is_breached)
  }

  /** The four flags are the record's own booleans. */
  lemma StatusFlagsCopied(r: SearchResult)
    ensures var p := ProcessUrlStatus(r);
      p.isAccessible == r.is_accessible && p.hasLoginForm == r.has_login_form &&
      p.isParked == r.is_parked && p.wasBreached == r.is_breached
  {
  }

  /** Without a login form there is never a login type, whatever the record says. */
  lemma NoFormNoLoginType(r: SearchResult)
    requires !r.has_login_form
    ensures ProcessUrlStatus(r).loginType.None?
  {
  }

  // ------------------------------------------------------------------- chips

  /** A chip: the token it adds as a tag filter, and the text it shows. */
  datatype Chip = Chip(token: string, caption: string)

  function EntryChip(key: string, v: Value): Chip {
    Chip(key + ":" + ToText(v), key + ": " + ToText(v))
  }

  /** `renderTags`: one chip per entry of `Object.entries`, in its order, so
      a string or an array document renders its index entries and a number or
      a boolean renders none; a parse error, or a `null` document whose entries
      throw, is caught and renders nothing. */
  function RenderTags(p: Parsed): (chips: Option<seq<Chip>>)
    ensures chips.None? <==> !IsDocument(p)
    ensures chips.Some? ==> |chips.value| == |OwnEntries(p)|
    ensures chips.Some? ==> forall i :: 0 <= i < |OwnEntries(p)| ==>
              chips.value[i].token == OwnEntries(p)[i].0 + ":" + ToText(OwnEntries(p)[i].1)
  {
    if !IsDocument(p) then None
    else
      var e := OwnEntries(p);
      Some(seq(|e|, i requires 0 <= i < |e| => EntryChip(e[i].0, e[i].1)))
  }

  /** A string document renders one chip per character, keyed by its index. */
  lemma StringDocChips()
    ensures RenderTags(StringDoc("ab")).Some?
    ensures |RenderTags(StringDoc("ab")).value| == 2
    ensures RenderTags(StringDoc("ab")).value[0].token == "0:a"
    ensures RenderTags(StringDoc("ab")).value[1].token == "1:b"
  {
    var e := OwnEntries(StringDoc("ab"));
    assert e[0] == ("0", Str("a")) && e[1] == ("1", Str("b"));
  }

  /** A number or a boolean document has no entries and renders no chip. */
  lemma PrimitiveDocNoChips(p: Parsed)
    requires p.NumberDoc? || p.BoolDoc?
    ensures RenderTags(p) == Some([])
  {
  }

  /** Splitting a chip token on `:` as the search panel does gives back the key
      and the text of the value, when neither contains `:`. */
  lemma ChipTokenRoundTrip(key: string, v: Value)
    requires NoChar(key, ':') && NoChar(ToText(v), ':')
    ensures TagParts(EntryChip(key, v).token) == (key, Some(ToText(v)))
  {
    var t := ToText(v);
    assert EntryChip(key, v).token == key + [':'] + t;
    SplitConcat(key, ':', t);
    SplitNoChar(t, ':');
  }

  /** Clicking the chip of a string-valued property adds a tag filter that the
      record carrying it passes. */
  lemma ChipFindsItsRecord(r: SearchResult, parse: Parser, i: nat, id: string)
    requires IsDocument(parse(r.tags)) && UniqueKeys(OwnEntries(parse(r.tags)))
    requires i < |OwnEntries(parse(r.tags))|
    requires OwnEntries(parse(r.tags))[i].1.Str?
    requires NoChar(OwnEntries(parse(r.tags))[i].0, ':') && NoChar(OwnEntries(parse(r.tags))[i].1.s, ':')
    ensures RenderTags(parse(r.tags)).Some?
    ensures FilterMatches(r, SearchFilter(id, Tag, RenderTags(parse(r.tags)).value[i].token), parse)
  {
    var e := OwnEntries(parse(r.tags));
    var (k, v) := (e[i].0, e[i].1.s);
    assert RenderTags(parse(r.tags)).value[i].token == k + ":" + v;
    LookupEntry(e, i);
    TagPairMatches(parse(r.tags), k, v);
  }

  /** The chip of a numeric property yields a token that its own record fails,
      because the tag filter compares the parsed value to a string with `===`. */
  lemma NumericChipMissesItsRecord(r: SearchResult, parse: Parser, i: nat, id: string)
    requires IsDocument(parse(r.tags)) && UniqueKeys(OwnEntries(parse(r.tags)))
    requires i < |OwnEntries(parse(r.tags))|
    requires OwnEntries(parse(r.tags))[i].1.Num?
    requires NoChar(OwnEntries(parse(r.tags))[i].0, ':')
    ensures RenderTags(parse(r.tags)).Some?
    ensures !FilterMatches(r, SearchFilter(id, Tag, RenderTags(parse(r.tags)).value[i].token), parse)
  {
    var e := OwnEntries(parse(r.tags));
    var k := e[i].0;
    var t := ToText(e[i].1);
    assert NoChar(t, ':') by { IntToStringNoChar(e[i].1.n); }
    ChipTokenRoundTrip(k, e[i].1);
    LookupEntry(e, i);
    TagPairMatches(parse(r.tags), k, t);
  }

  lemma IntToStringNoChar(n: int)
    ensures NoChar(IntToString(n), ':')
  {
    var s := IntToString(n);
    var d := if n < 0 then NatToString(-n) else NatToString(n);
    assert s == if n < 0 then "-" + d else d;
    forall j | 0 <= j < |s| ensures s[j] != ':' {
      if n < 0 && j > 0 { assert s[j] == d[j - 1]; }
    }
  }

  // -------------------------------------------------------------------- view

  /** A table row: the address line (shown for a truthy address), the status
      badges and the chips. */
  datatype Row = Row(domain: string, uri: string, ipLine: Option<string>,
                     status: StatusProps, chips: Option<seq<Chip>>)

  /** `IP: addr`, followed by the port when it is truthy (not 0). */
  function IpLine(r: SearchResult): (line: Option<string>)
    ensures line.Some? <==> Truthy(r.ip_address)
  {
    if !Truthy(r.ip_address) then None
    else Some("IP: " + r.ip_address.value +
              (if r.port.Some? && r.port.value != 0 then " (Port: " + IntToString(r.port.value) + ")" else ""))
  }

  function RowOf(r: SearchResult, parse: Parser): Row {
    Row(r.domain, r.uri, IpLine(r), ProcessUrlStatus(r), RenderTags(parse(r.tags)))
  }

  datatype View =
    | Spinner
    | Table(error: Option<string>, mockNotice: bool, rows: seq<Row>, noResults: bool)

  const MockNotice: string := "Showing mock data for demonstration purposes"
  const NoResultsText: string := "No results found"

  /** What the component renders for its props. */
  function Render(results: seq<SearchResult>, isLoading: bool, error: Option<string>,
                  isMockData: bool, parse: Parser): (v: View)
    ensures isLoading <==> v.Spinner?
    ensures v.Table? ==> (v.mockNotice <==> isMockData)
    ensures v.Table? ==> (v.noResults <==> results == [])
    ensures v.Table? ==> (v.error.Some? <==> Truthy(error))
    ensures v.Table? ==> |v.rows| == |results|
    ensures v.Table? ==> forall i :: 0 <= i < |results| ==> v.rows[i].domain == results[i].domain
  {
    if isLoading then Spinner
    else Table(if Truthy(error) then error else None, isMockData,
               seq(|results|, i requires 0 <= i < |results| => RowOf(results[i], parse)),
               |results| == 0)
  }

  /** After a failed fetch the panel shows the mock notice, the error and the
      evaluated mock rows. */
  lemma FailedFetchShowsNotice(q: string, fs: seq<SearchFilter>, ranges: seq<string>, api: Api, parse: Parser)
    requires api(ParamsOf(q, fs, ranges)).None?
    ensures var o := FetchOutcome(q, fs, ranges, api, parse);
      var v := Render(o.results, false, o.error, o.isMockData, parse);
      v.Table? && v.mockNotice && v.error == Some(FetchFailedMessage) &&
      (v.noResults <==> Evaluate(MockResults, q, fs, ranges, parse) == [])
  {
    FetchOutcomeFlags(q, fs, ranges, api, parse);
  }
}
