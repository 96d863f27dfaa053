/** The search endpoint that writes its SQL by hand: it reads the query
    arguments, grows a `WHERE` clause and its parameter list one filter at a
    time, counts the matching rows with the filtered query wrapped in a
    `COUNT(*)`, then pages the filtered query with `LIMIT`/`OFFSET`. The
    statistics endpoint turns its grouped rows into a dictionary. The database
    is a parameter. */
module SqlSearch {
  import opened Strings
  import opened Dict
  import opened Json
  import Dashboard
  import SearchV2
  import Filters

  // ------------------------------------------------------------ arguments

  /** `request.args` as its `items()` report it: each key once, with its first
      value, in query order; `get` finds a key's first value, which is `Lookup`. */
  type Args = Entries<string>

  /** `int(text)`; `None` where Python raises `ValueError`. */
  type IntParser = string -> Option<int>

  /** `request.args.get(key, type=bool)`: `None` when absent; otherwise `bool`
      of the text, which is false only for the empty text (so `false` reads as
      true). */
  function FlagArg(args: Args, key: string): (r: Option<bool>)
    ensures r.None? <==> Lookup(args, key).None?
    ensures r == Some(false) <==> Lookup(args, key) == Some("")
  {
    match Lookup(args, key)
    case None => None
    case Some(t) => Some(t != "")
  }

  /** `int(request.args.get(key, default))`: `None` where the conversion raises. */
  function IntArg(args: Args, key: string, default: int, toInt: IntParser): Option<int> {
    match Lookup(args, key)
    case None => Some(default)
    case Some(t) => toInt(t)
  }

  /** The arguments of one search. */
  datatype SearchRequest = SearchRequest(
    q: string, field: string, page: int, perPage: int,
    isResolved: Option<bool>, hasLoginForm: Option<bool>, loginFormType: Option<string>,
    isAccessible: Option<bool>, tagFilters: Entries<string>)

  /** `{k: v for k, v in request.args.items() if k.startswith('tag_')}`. */
  function TagFilters(args: Args): (t: Entries<string>)
    ensures forall i :: 0 <= i < |t| ==> StartsWith(t[i].0, "tag_")
    decreases |args|
  {
    if |args| == 0 then []
    else (if StartsWith(args[0].0, "tag_") then [args[0]] else []) + TagFilters(args[1..])
  }

  /** The argument reads that open the endpoint; `None` when `page` or
      `per_page` is not an integer, which raises before the handler's `try`. */
  function ReadArgs(args: Args, toInt: IntParser): (r: Option<SearchRequest>)
    ensures r.None? <==> IntArg(args, "page", 1, toInt).None? || IntArg(args, "per_page", 50, toInt).None?
    ensures r.Some? && Lookup(args, "page").None? ==> r.value.page == 1
    ensures r.Some? && Lookup(args, "per_page").None? ==> r.value.perPage == 50
    ensures r.Some? && Lookup(args, "page").Some? ==> toInt(Lookup(args, "page").value) == Some(r.value.page)
    ensures r.Some? && Lookup(args, "per_page").Some? ==>
              toInt(Lookup(args, "per_page").value) == Some(r.value.perPage)
    ensures r.Some? ==> r.value.field == OrElse(Lookup(args, "field"), "domain")
    ensures r.Some? ==> forall i :: 0 <= i < |r.value.tagFilters| ==> StartsWith(r.value.tagFilters[i].0, "tag_")
  {
    var page := IntArg(args, "page", 1, toInt);
    var perPage := IntArg(args, "per_page", 50, toInt);
    if page.None? || perPage.None? then None
    else Some(SearchRequest(OrElse(Lookup(args, "q"), ""), OrElse(Lookup(args, "field"), "domain"),
                            page.value, perPage.value,
                            FlagArg(args, "is_resolved"), FlagArg(args, "has_login_form"),
                            Lookup(args, "login_form_type"), FlagArg(args, "is_accessible"),
                            TagFilters(args)))
  }

  /** Without arguments, the search is on the domain with no text, page 1 of 50. */
  lemma ReadNoArgs(toInt: IntParser)
    ensures ReadArgs([], toInt) == Some(SearchRequest("", "domain", 1, 50, None, None, None, None, []))
  {
  }

  /** Every `tag_` argument is kept as a tag filter, in order, and nothing else is. */
  lemma {:induction false} TagFiltersKeep(args: Args, k: string)
    ensures Lookup(TagFilters(args), k).Some? <==> StartsWith(k, "tag_") && Lookup(args, k).Some?
    ensures Lookup(TagFilters(args), k).Some? ==> Lookup(TagFilters(args), k) == Lookup(args, k)
    decreases |args|
  {
    if |args| > 0 {
      TagFiltersKeep(args[1..], k);
      var head := if StartsWith(args[0].0, "tag_") then [args[0]] else [];
      LookupConcat(head, TagFilters(args[1..]), k);
    }
  }

  // -------------------------------------------------------------- clauses

  /** A query parameter: text, a flag or a number. */
  datatype Param = Text(s: string) | Flag(b: bool) | Int(n: int)

  /** One condition `AND <cond> %s` and the parameter it binds. */
  datatype Clause = Clause(cond: string, param: Param)

  /** The text a condition appends to the query. */
  function ClauseSql(c: Clause): (s: string)
    ensures |s| > 0 && s[0] == ' '
  {
    " AND " + c.cond + " %s"
  }

  const BaseQuery: string := "SELECT * FROM breaches WHERE 1=1"
  const OrderLimit: string := " ORDER BY created_at DESC LIMIT"
  const OffsetWord: string := " OFFSET"
  const PageSuffix: string := OrderLimit + " %s" + OffsetWord + " %s"
  const InvalidFieldError: string := "Invalid search field"
  const UnexpectedError: string := "An unexpected error occurred"

  /** The columns the free text may be searched in. */
  const SearchFields: seq<string> := ["uri", "domain", "username", "ip_address", "web_application"]

  /** `key[4:]`: Python slicing, empty past the end. */
  function TagName(key: string): string {
    if |key| >= 4 then key[4..] else ""
  }

  /** The parameter key the newer search component writes for a tag token
      (`"tag_" + key`) names that key again here. */
  lemma TagNameOfFrontendKey(f: Filters.SearchFilter)
    requires f.kind == Filters.Tag
    ensures StartsWith(SearchV2.ParamKey(f), "tag_")
    ensures TagName(SearchV2.ParamKey(f)) == SearchV2.TagParts(f.value).0
  {
    var k := SearchV2.TagParts(f.value).0;
    assert SearchV2.ParamKey(f) == "tag_" + k;
    assert ("tag_" + k)[4..] == k;
  }

  const TagPrefix: string := "JSON_UNQUOTE(JSON_EXTRACT(tags, '$."
  const TagSuffix: string := "')) ="

  function TextClause(q: string, field: string): Clause {
    Clause(field + " LIKE", Text("%" + q + "%"))
  }

  function FlagClause(column: string, b: bool): Clause {
    Clause(column + " =", Flag(b))
  }

  function TagClause(key: string, value: string): Clause {
    Clause(TagPrefix + TagName(key) + TagSuffix, Text(value))
  }

  function FlagClauses(column: string, v: Option<bool>): seq<Clause> {
    if v.Some? then [FlagClause(column, v.value)] else []
  }

  const TypeCond: string := "login_form_type" + " ="

  function TypeClauses(t: Option<string>): seq<Clause> {
    if t.Some? && t.value != "" then [Clause(TypeCond, Text(t.value))] else []
  }

  function TextClauses(r: SearchRequest): seq<Clause> {
    if r.q != "" then [TextClause(r.q, r.field)] else []
  }

  function TagClauses(tags: Entries<string>): (cs: seq<Clause>)
    ensures |cs| == |tags|
  {
    seq(|tags|, i requires 0 <= i < |tags| => TagClause(tags[i].0, tags[i].1))
  }

  /** The conditions of a valid search, in the order the handler adds them:
      text, `is_resolved`, `has_login_form`, `login_form_type` (only when
      non-empty), `is_accessible`, then the tags. */
  function Clauses(r: SearchRequest): seq<Clause> {
    TextClauses(r) +
    FlagClauses("is_resolved", r.isResolved) +
    FlagClauses("has_login_form", r.hasLoginForm) +
    TypeClauses(r.loginFormType) +
    FlagClauses("is_accessible", r.isAccessible) +
    TagClauses(r.tagFilters)
  }

  function SqlOf(cs: seq<Clause>): string
    decreases |cs|
  {
    if |cs| == 0 then "" else SqlOf(cs[..|cs| - 1]) + ClauseSql(cs[|cs| - 1])
  }

  function ParamsOf(cs: seq<Clause>): (ps: seq<Param>)
    ensures |ps| == |cs|
  {
    seq(|cs|, i requires 0 <= i < |cs| => cs[i].param)
  }

  /** The handler answers 400 exactly for a non-empty text on an unknown column. */
  predicate InvalidField(r: SearchRequest) {
    r.q != "" && r.field !in SearchFields
  }

  function FilteredQuery(r: SearchRequest): string { BaseQuery + SqlOf(Clauses(r)) }

  function FilterParams(r: SearchRequest): seq<Param> { ParamsOf(Clauses(r)) }

  /** The counting query: the filtered query wrapped before paging is added. */
  function CountQuery(r: SearchRequest): string {
    "SELECT COUNT(*) as count FROM (" + FilteredQuery(r) + ") as count_query"
  }

  function PagedQuery(r: SearchRequest): string { FilteredQuery(r) + PageSuffix }

  function Offset(r: SearchRequest): int { (r.page - 1) * r.perPage }

  function PagedParams(r: SearchRequest): seq<Param> {
    FilterParams(r) + [Int(r.perPage), Int(Offset(r))]
  }

  /** One condition per supplied filter: the text when non-empty, each flag
      when present, the form type when non-empty, and one per tag argument. */
  lemma ClauseCount(r: SearchRequest)
    ensures |FilterParams(r)| ==
              (if r.q != "" then 1 else 0) + (if r.isResolved.Some? then 1 else 0) +
              (if r.hasLoginForm.Some? then 1 else 0) +
              (if r.loginFormType.Some? && r.loginFormType.value != "" then 1 else 0) +
              (if r.isAccessible.Some? then 1 else 0) + |r.tagFilters|
  {
  }

  /** The tag conditions bind the tag arguments' values, in order. */
  lemma TagParamsAreValues(r: SearchRequest, i: nat)
    requires i < |r.tagFilters|
    ensures FilterParams(r)[|FilterParams(r)| - |r.tagFilters| + i] == Text(r.tagFilters[i].1)
  {
    var g := TagClauses(r.tagFilters);
    var a := Clauses(r)[..|Clauses(r)| - |g|];
    assert Clauses(r) == a + g;
    assert Clauses(r)[|a| + i] == g[i];
  }

  // --------------------------------------------------------- placeholders

  /** The number of `%s` placeholders in a text. */
  function Placeholders(s: string): nat
    decreases |s|
  {
    if |s| < 2 then 0 else (if s[0] == '%' && s[1] == 's' then 1 else 0) + Placeholders(s[1..])
  }

  lemma {:induction false} NoPercentNoPlaceholder(s: string)
    requires NoChar(s, '%')
    ensures Placeholders(s) == 0
    decreases |s|
  {
    if |s| >= 2 {
      NoPercentNoPlaceholder(s[1..]);
    }
  }

  /** Placeholders add up across a seam that cannot form one. */
  lemma {:induction false} PlaceholdersConcat(a: string, b: string)
    requires |a| > 0 && |b| > 0 ==> a[|a| - 1] != '%' || b[0] != 's'
    ensures Placeholders(a + b) == Placeholders(a) + Placeholders(b)
    decreases |a|
  {
    if |a| == 0 {
      assert a + b == b;
    } else if |a| == 1 {
      if |b| >= 1 {
        assert (a + b)[1..] == b;
      }
    } else {
      assert (a + b)[1..] == a[1..] + b;
      PlaceholdersConcat(a[1..], b);
    }
  }

  lemma SpacedPlaceholder()
    ensures Placeholders(" %s") == 1
  {
    assert " %s"[1..] == "%s";
    assert "%s"[1..] == "s";
  }

  /** A condition appends its own placeholders and one more. */
  lemma ClauseSqlPlaceholders(c: Clause)
    ensures Placeholders(ClauseSql(c)) == Placeholders(c.cond) + 1
  {
    NoPercentNoPlaceholder(" AND ");
    PlaceholdersConcat(" AND ", c.cond);
    PlaceholdersConcat(" AND " + c.cond, " %s");
    SpacedPlaceholder();
  }

  /** A name between a prefix without `%` and a suffix that starts with
      neither `%` nor `s` adds no placeholder of its own. */
  lemma Enclosed(pre: string, name: string, post: string)
    requires NoChar(pre, '%') && NoChar(post, '%') && |post| > 0 && post[0] != 's'
    ensures Placeholders(pre + name + post) == Placeholders(name)
  {
    NoPercentNoPlaceholder(pre);
    NoPercentNoPlaceholder(post);
    PlaceholdersConcat(pre, name);
    PlaceholdersConcat(pre + name, post);
  }

  predicate Plain(cs: seq<Clause>) {
    forall i :: 0 <= i < |cs| ==> Placeholders(cs[i].cond) == 0
  }

  lemma PlainConcat(a: seq<Clause>, b: seq<Clause>)
    requires Plain(a) && Plain(b)
    ensures Plain(a + b)
  {
    forall i | 0 <= i < |a + b| ensures Placeholders((a + b)[i].cond) == 0 {
      if i < |a| { assert (a + b)[i] == a[i]; } else { assert (a + b)[i] == b[i - |a|]; }
    }
  }

  lemma PlainFlags(column: string, v: Option<bool>)
    requires NoChar(column, '%')
    ensures Plain(FlagClauses(column, v))
  {
    if v.Some? {
      Enclosed(column, "", " =");
      assert column + "" + " =" == FlagClause(column, v.value).cond;
    }
  }

  predicate TagNamesPlain(r: SearchRequest) {
    forall i :: 0 <= i < |r.tagFilters| ==> Placeholders(TagName(r.tagFilters[i].0)) == 0
  }

  lemma PlainTags(r: SearchRequest)
    requires TagNamesPlain(r)
    ensures Plain(TagClauses(r.tagFilters))
  {
    var g := TagClauses(r.tagFilters);
    forall i | 0 <= i < |g| ensures Placeholders(g[i].cond) == 0 {
      Enclosed(TagPrefix, TagName(r.tagFilters[i].0), TagSuffix);
    }
  }

  lemma PlainText(r: SearchRequest)
    requires !InvalidField(r)
    ensures Plain(TextClauses(r))
  {
    if r.q != "" {
      assert NoChar(r.field, '%');
      Enclosed(r.field, "", " LIKE");
      assert r.field + "" + " LIKE" == TextClause(r.q, r.field).cond;
    }
  }

  lemma PlainType(t: Option<string>)
    ensures Plain(TypeClauses(t))
  {
    if t.Some? && t.value != "" {
      Enclosed("login_form_type", "", " =");
      assert "login_form_type" + "" + " =" == TypeCond;
    }
  }

  /** No condition of a valid search has a placeholder of its own, when no tag
      name holds one. */
  lemma PlainClauses(r: SearchRequest)
    requires !InvalidField(r) && TagNamesPlain(r)
    ensures Plain(Clauses(r))
  {
    var t := TextClauses(r);
    var a := FlagClauses("is_resolved", r.isResolved);
    var h := FlagClauses("has_login_form", r.hasLoginForm);
    var l := TypeClauses(r.loginFormType);
    var x := FlagClauses("is_accessible", r.isAccessible);
    PlainText(r);
    PlainFlags("is_resolved", r.isResolved);
    PlainFlags("has_login_form", r.hasLoginForm);
    PlainType(r.loginFormType);
    PlainFlags("is_accessible", r.isAccessible);
    PlainTags(r);
    PlainConcat(t, a);
    PlainConcat(t + a, h);
    PlainConcat(t + a + h, l);
    PlainConcat(t + a + h + l, x);
    PlainConcat(t + a + h + l + x, TagClauses(r.tagFilters));
  }

  lemma {:induction false} SqlOfPlaceholders(cs: seq<Clause>)
    requires Plain(cs)
    ensures Placeholders(SqlOf(cs)) == |cs|
    decreases |cs|
  {
    if |cs| > 0 {
      var init := cs[..|cs| - 1];
      assert Plain(init) by {
        forall i | 0 <= i < |init| ensures Placeholders(init[i].cond) == 0 { assert init[i] == cs[i]; }
      }
      SqlOfPlaceholders(init);
      PlaceholdersConcat(SqlOf(init), ClauseSql(cs[|cs| - 1]));
      ClauseSqlPlaceholders(cs[|cs| - 1]);
    }
  }

  lemma BaseQueryPlain()
    ensures Placeholders(BaseQuery) == 0 && BaseQuery[|BaseQuery| - 1] != '%'
  {
    NoPercentNoPlaceholder(BaseQuery);
  }

  lemma PageSuffixPlaceholders()
    ensures Placeholders(PageSuffix) == 2
  {
    assert NoChar(OrderLimit, '%') && NoChar(OffsetWord, '%');
    TwoSlots(OrderLimit, OffsetWord);
  }

  /** Two texts without `%`, each followed by one placeholder. */
  lemma TwoSlots(a: string, b: string)
    requires NoChar(a, '%') && NoChar(b, '%')
    ensures Placeholders(a + " %s" + b + " %s") == 2
  {
    NoPercentNoPlaceholder(a);
    NoPercentNoPlaceholder(b);
    SpacedPlaceholder();
    PlaceholdersConcat(a, " %s");
    PlaceholdersConcat(b, " %s");
    assert a + " %s" + b + " %s" == (a + " %s") + (b + " %s");
    PlaceholdersConcat(a + " %s", b + " %s");
  }

  /** The filtered and the paged query have as many placeholders as they bind
      parameters, whenever no tag name holds a `%s` of its own. */
  lemma PlaceholdersMatchParams(r: SearchRequest)
    requires !InvalidField(r) && TagNamesPlain(r)
    ensures Placeholders(FilteredQuery(r)) == |FilterParams(r)|
    ensures Placeholders(PagedQuery(r)) == |PagedParams(r)|
  {
    PlainClauses(r);
    SqlOfPlaceholders(Clauses(r));
    BaseQueryPlain();
    PlaceholdersConcat(BaseQuery, SqlOf(Clauses(r)));
    PageSuffixPlaceholders();
    PlaceholdersConcat(FilteredQuery(r), PageSuffix);
  }

  // ----------------------------------------------------------- pagination

  /** Python's `//`: the floor of the quotient, for a non-zero divisor. */
  function FloorDiv(a: int, b: int): (q: int)
    requires b != 0
    ensures b > 0 ==> q * b <= a < q * b + b
    ensures b < 0 ==> q * b + b < a <= q * b
  {
    if b > 0 then a / b else (-a) / (-b)
  }

  /** `(total + per_page - 1) // per_page`. */
  function Pages(total: int, perPage: int): int
    requires perPage != 0
  {
    FloorDiv(total + perPage - 1, perPage)
  }

  /** For a positive page size the page count is the ceiling of `total / per_page`:
      the fewest pages that hold every row. */
  lemma PagesIsCeiling(total: int, perPage: int)
    requires perPage > 0
    ensures Pages(total, perPage) * perPage >= total
    ensures (Pages(total, perPage) - 1) * perPage < total
  {
    var q := Pages(total, perPage);
    assert (q - 1) * perPage == q * perPage - perPage;
  }

  /** Without `page` and `per_page` the rows asked for are the first 50. */
  lemma DefaultPaging(args: Args, toInt: IntParser)
    requires Lookup(args, "page").None? && Lookup(args, "per_page").None?
    ensures ReadArgs(args, toInt).Some?
    ensures Offset(ReadArgs(args, toInt).value) == 0
    ensures PagedParams(ReadArgs(args, toInt).value)[|FilterParams(ReadArgs(args, toInt).value)|..] ==
              [Int(50), Int(0)]
  {
  }

  // ------------------------------------------------------------- endpoint

  /** What a database call gives back: a value, or the text of the raised error. */
  datatype DbResult<T> = DbOk(value: T) | DbError(message: string)

  /** The database: the count of a query, and the rows of a query. */
  datatype Database = Database(
    count: (string, seq<Param>) -> DbResult<int>,
    fetch: (string, seq<Param>) -> DbResult<seq<Entries<Value>>>)

  /** The answer: the page of rows, a JSON error with its status, or an
      exception raised outside the handler's `try` (Flask's own 500 page). */
  datatype Response =
    | Found(total: int, pages: int, currentPage: int, results: seq<Entries<Value>>)
    | Failed(status: int, error: string)
    | Crashed

  /** `sql_query += " AND <cond> %s"; params.append(value)`. */
  method AddClause(sql: string, params: seq<Param>, ghost done: seq<Clause>, c: Clause)
    returns (sql': string, params': seq<Param>)
    requires sql == BaseQuery + SqlOf(done) && params == ParamsOf(done)
    ensures sql' == BaseQuery + SqlOf(done + [c]) && params' == ParamsOf(done + [c])
  {
    sql' := sql + " AND " + c.cond + " %s";
    params' := params + [c.param];
    assert (done + [c])[..|done|] == done;
    assert sql' == BaseQuery + (SqlOf(done) + ClauseSql(c));
  }

  /** The filtered query and its parameters, built one condition at a time;
      `None` is the 400 for an unknown column. */
  method BuildFiltered(r: SearchRequest) returns (built: Option<(string, seq<Param>)>)
    ensures built.None? <==> InvalidField(r)
    ensures built.Some? ==> built.value == (FilteredQuery(r), FilterParams(r))
  {
    var sql := BaseQuery;
    var params: seq<Param> := [];
    assert sql == BaseQuery + SqlOf([]);
    if r.q != "" {
      if r.field !in SearchFields {
        return None;
      }
      sql, params := AddClause(sql, params, [], TextClause(r.q, r.field));
      assert [] + [TextClause(r.q, r.field)] == TextClauses(r);
    }
    ghost var done := TextClauses(r);
    sql, params := AddFlag(sql, params, done, "is_resolved", r.isResolved);
    done := done + FlagClauses("is_resolved", r.isResolved);
    sql, params := AddFlag(sql, params, done, "has_login_form", r.hasLoginForm);
    done := done + FlagClauses("has_login_form", r.hasLoginForm);
    sql, params := AddType(sql, params, done, r.loginFormType);
    done := done + TypeClauses(r.loginFormType);
    sql, params := AddFlag(sql, params, done, "is_accessible", r.isAccessible);
    done := done + FlagClauses("is_accessible", r.isAccessible);
    sql, params := AddTags(sql, params, done, r.tagFilters);
    return Some((sql, params));
  }

  /** `if value is not None:` add the flag's condition. */
  method AddFlag(sql: string, params: seq<Param>, ghost done: seq<Clause>, column: string, v: Option<bool>)
    returns (sql': string, params': seq<Param>)
    requires sql == BaseQuery + SqlOf(done) && params == ParamsOf(done)
    ensures sql' == BaseQuery + SqlOf(done + FlagClauses(column, v))
    ensures params' == ParamsOf(done + FlagClauses(column, v))
  {
    sql', params' := sql, params;
    if v.Some? {
      sql', params' := AddClause(sql, params, done, FlagClause(column, v.value));
    } else {
      assert done + FlagClauses(column, v) == done;
    }
  }

  /** `if login_form_type:` add its condition; the empty text is false. */
  method AddType(sql: string, params: seq<Param>, ghost done: seq<Clause>, t: Option<string>)
    returns (sql': string, params': seq<Param>)
    requires sql == BaseQuery + SqlOf(done) && params == ParamsOf(done)
    ensures sql' == BaseQuery + SqlOf(done + TypeClauses(t))
    ensures params' == ParamsOf(done + TypeClauses(t))
  {
    sql', params' := sql, params;
    if t.Some? && t.value != "" {
      sql', params' := AddClause(sql, params, done, Clause(TypeCond, Text(t.value)));
    } else {
      assert done + TypeClauses(t) == done;
    }
  }

  /** The tag loop: one condition and one parameter per tag argument, in order. */
  method AddTags(sql: string, params: seq<Param>, ghost fixed: seq<Clause>, tags: Entries<string>)
    returns (sql': string, params': seq<Param>)
    requires sql == BaseQuery + SqlOf(fixed) && params == ParamsOf(fixed)
    ensures sql' == BaseQuery + SqlOf(fixed + TagClauses(tags))
    ensures params' == ParamsOf(fixed + TagClauses(tags))
  {
    sql', params' := sql, params;
    assert fixed + TagClauses(tags[..0]) == fixed;
    var i := 0;
    while i < |tags|
      invariant 0 <= i <= |tags|
      invariant sql' == BaseQuery + SqlOf(fixed + TagClauses(tags[..i]))
      invariant params' == ParamsOf(fixed + TagClauses(tags[..i]))
    {
      var c := TagClause(tags[i].0, tags[i].1);
      sql', params' := AddClause(sql', params', fixed + TagClauses(tags[..i]), c);
      TagClausesSnoc(fixed, tags, i);
      i := i + 1;
    }
    assert tags[..i] == tags;
  }

  lemma TagClausesSnoc(fixed: seq<Clause>, tags: Entries<string>, i: nat)
    requires i < |tags|
    ensures fixed + TagClauses(tags[..i + 1]) == (fixed + TagClauses(tags[..i])) + [TagClause(tags[i].0, tags[i].1)]
  {
    assert TagClauses(tags[..i + 1]) == TagClauses(tags[..i]) + [TagClause(tags[i].0, tags[i].1)];
  }

  /** `search` in full: the argument reads, then the answer. */
  method Search(args: Args, toInt: IntParser, db: Database) returns (resp: Response)
    ensures ReadArgs(args, toInt).None? ==> resp == Crashed
    ensures ReadArgs(args, toInt).Some? ==> resp == Respond(ReadArgs(args, toInt).value, db)
  {
    var req := ReadArgs(args, toInt);
    if req.None? {
      return Crashed;
    }
    resp := Handle(req.value, db);
  }

  /** The handler body: the 400, the count on the filtered query, the page of
      the paged query, and the page count, whose division by a zero page size
      is the generic 500. */
  method Handle(r: SearchRequest, db: Database) returns (resp: Response)
    ensures resp == Respond(r, db)
  {
    var built := BuildFiltered(r);
    if built.None? {
      return Failed(400, InvalidFieldError);
    }
    var sql, params := built.value.0, built.value.1;
    var countSql := "SELECT COUNT(*) as count FROM (" + sql + ") as count_query";
    assert countSql == CountQuery(r) && params == FilterParams(r);
    var total := db.count(countSql, params);
    if total.DbError? {
      return Failed(500, total.message);
    }
    sql := sql + PageSuffix;
    var offset := (r.page - 1) * r.perPage;
    params := params + [Int(r.perPage), Int(offset)];
    assert sql == PagedQuery(r) && params == PagedParams(r);
    var rows := db.fetch(sql, params);
    if rows.DbError? {
      return Failed(500, rows.message);
    }
    if r.perPage == 0 {
      return Failed(500, UnexpectedError);
    }
    resp := Found(total.value, FloorDiv(total.value + r.perPage - 1, r.perPage), r.page, rows.value);
  }

  /** What the handler answers to read arguments: 400 for an unknown column;
      a failed count or fetch gives 500 with the error text; then a zero page
      size gives the generic 500; otherwise the rows with the count and the
      page count. */
  function Respond(r: SearchRequest, db: Database): Response {
    var total := db.count(CountQuery(r), FilterParams(r));
    var rows := db.fetch(PagedQuery(r), PagedParams(r));
    if InvalidField(r) then Failed(400, InvalidFieldError)
    else if total.DbError? then Failed(500, total.message)
    else if rows.DbError? then Failed(500, rows.message)
    else if r.perPage == 0 then Failed(500, UnexpectedError)
    else Found(total.value, Pages(total.value, r.perPage), r.page, rows.value)
  }

  /** The count is taken before paging, so it is the same for every page. */
  lemma CountIgnoresPaging(r: SearchRequest, page: int, perPage: int, db: Database)
    requires perPage != 0 && r.perPage != 0
    requires Respond(r, db).Found? && Respond(r.(page := page, perPage := perPage), db).Found?
    ensures Respond(r, db).total == Respond(r.(page := page, perPage := perPage), db).total
  {
    assert Clauses(r) == Clauses(r.(page := page, perPage := perPage));
  }

  /** A found page reports the page asked for and the ceiling page count of a
      positive page size. */
  lemma FoundPageCount(r: SearchRequest, db: Database)
    requires Respond(r, db).Found? && r.perPage > 0
    ensures Respond(r, db).currentPage == r.page
    ensures Respond(r, db).pages * r.perPage >= Respond(r, db).total
    ensures (Respond(r, db).pages - 1) * r.perPage < Respond(r, db).total
  {
    PagesIsCeiling(Respond(r, db).total, r.perPage);
  }

  // ----------------------------------------------------------- statistics

  /** `{item['login_form_type']: item['count'] for item in rows}`. */
  function LoginFormTypes(rows: seq<(string, int)>): (d: Entries<int>)
    ensures UniqueKeys(d)
  {
    UpdateUniqueKeys([], rows);
    Update([], rows)
  }

  /** The grouped rows have one row per type: the dictionary is those rows in
      order, and every type maps to its row's count. */
  lemma LoginFormTypesOfGroups(rows: seq<(string, int)>, i: nat)
    requires UniqueKeys(rows) && i < |rows|
    ensures LoginFormTypes(rows) == rows
    ensures Lookup(LoginFormTypes(rows), rows[i].0) == Some(rows[i].1)
  {
    UpdateFresh([], rows);
    LookupEntry(rows, i);
  }

  /** A type no row reports is absent. */
  lemma LoginFormTypeAbsent(rows: seq<(string, int)>, t: string)
    requires forall i :: 0 <= i < |rows| ==> rows[i].0 != t
  ensures Lookup(LoginFormTypes(rows), t).None?
  {
    UpdateLookupLast([], rows, t);
    LastValueAbsent(rows, t);
  }

  lemma {:induction false} LastValueAbsent(rows: seq<(string, int)>, t: string)
    requires forall i :: 0 <= i < |rows| ==> rows[i].0 != t
    ensures LastValue(rows, t).None?
    decreases |rows|
  {
    if |rows| > 0 {
      LastValueAbsent(rows[..|rows| - 1], t);
    }
  }

  /** The statistics body. */
  datatype StatisticsBody = StatisticsBody(
    total_records: int, accessible_domains: int, unique_domains: int, login_forms: int,
    resolved_cases: int, login_form_types: Entries<int>)

  function Statistics(total: int, accessible: int, unique: int, logins: int, resolved: int,
                      rows: seq<(string, int)>): StatisticsBody {
    StatisticsBody(total, accessible, unique, logins, resolved, LoginFormTypes(rows))
  }

  /** The body as the dashboard reads it; the two counts it asks for but this
      endpoint never sends are given as 0, which the dashboard ignores anyway. */
  function AsDashboardStatistics(b: StatisticsBody): Dashboard.Statistics {
    Dashboard.Statistics(b.total_records, b.accessible_domains, b.unique_domains, b.login_forms,
                         b.resolved_cases, 0, 0, Some(b.login_form_types))
  }

  /** The dashboard shows this endpoint's type distribution as sent, even an
      empty one, and its resolved and accessible totals add up. */
  lemma DashboardShowsDistribution(b: StatisticsBody)
    ensures Dashboard.FromStatistics(AsDashboardStatistics(b)).loginFormDistribution == b.login_form_types
    ensures Dashboard.Consistent(Dashboard.FromStatistics(AsDashboardStatistics(b)))
    ensures Dashboard.FromStatistics(AsDashboardStatistics(b)).securityMetrics.total == b.total_records
  {
  }
}
