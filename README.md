# Breach-credential dashboard: a Dafny model of its decision logic

The system is a dashboard for leaked web credentials. A Python script
(`backend/home.py`) ingests `url:user:password` lines. It splits them, tags
each record with its protocol, resolution, reachability, environment and
priority, and detects the web application and the kind of login form from page
text. Two Flask backends (`backend/app.py`, which builds raw SQL, and
`backend/app/app.py`, which uses an ORM) serve search, statistics, upload and
tag editing. A React frontend holds two generations of the advanced-search
panel with a local fallback evaluator over mock records, an IP-range exclusion
list, result-row normalisation with tag chips, two Redux slices (breaches and
tags), data hooks, the dashboard statistics mapping, a risk classifier and a
chart-colour decoder.

The model has one Dafny module per source file, plus shared modules:

- `Strings`: ASCII case and whitespace, substring and prefix tests, splitting, decimal digits.
- `Dict`: insertion-ordered dictionaries, as both Python dicts and JavaScript objects are.
- `Json`: parsed JSON values.
- `Filters`: the filter tokens shared by both search panels and the breach store.

Pure code is modelled as functions with lemmas. Code that updates state step by
step is modelled as classes whose methods state the whole new state. These
are the React components with `useState`, the Immer reducers, and the
accumulating loops of the backends. Network, DNS, the database, the clock and
JSON parsing are function-typed parameters (oracles) or plain values read
once. On the backend, the database rows a query returns are an input too.

## Model

| member | source | states |
|---|---|---|
| Risk.GetRiskLevel | frontend/src/components/HighRiskDomains.tsx:15-41 | a score of at least 80 is Critical, 60 up to 80 High, 40 up to 60 Medium and below 40 Low, each an if-and-only-if |
| Risk.RiskMonotone | frontend/src/components/HighRiskDomains.tsx:15-41 | a higher score never gives a lower level |
| Risk.IndicatorIsBackgroundOfColor | frontend/src/components/HighRiskDomains.tsx:67-70 | every level colour starts with `text`, and the indicator class is that colour with its first `text` turned into `bg` |
| Risk.IndicatorClass | frontend/src/components/HighRiskDomains.tsx:67-70 | the indicator is always a `bg-` class; `Risk.IndicatorIsBackgroundOfColor` says which |
| Risk.CriticalIndicator | frontend/src/components/HighRiskDomains.tsx:96-99 | the bar of a critical score is `bg-red-400` |
| ChartColors.HexDigitValue | frontend/src/types/chartColors.ts:30-32 | a hex digit reads as a value below 16 |
| ChartColors.HexPairValue | frontend/src/types/chartColors.ts:30-32 | `parseInt` of two hex digits in base 16 is sixteen times the first plus the second, at most 255 |
| ChartColors.StripHash | frontend/src/types/chartColors.ts:29 | `replace('#', '')` on a text that starts with `#` drops that `#` |
| ChartColors.HexOfColor | frontend/src/types/chartColors.ts:29-32 | for `#RRGGBB` the three substrings are the three digit pairs after the `#` |
| ChartColors.DecodeHexColor | frontend/src/types/chartColors.ts:28-32 | a `#RRGGBB` colour decodes to the values of its three digit pairs, each at most 255 |
| ChartColors.ChannelsOfPairs | frontend/src/types/chartColors.ts:29-32 | the red, green and blue channels are read from characters 1-2, 3-4 and 5-6 |
| ChartColors.DoubleHashIsNaN | frontend/src/types/chartColors.ts:29-30 | only the first `#` is removed: `##…` leaves a `#` in the first pair, which reads as `NaN` |
| ChartColors.ChartColorsAreHex | frontend/src/types/chartColors.ts:2-8 | every entry of `CHART_COLORS` is `#` and six hex digits |
| ChartColors.PrimaryChannels | frontend/src/types/chartColors.ts:3 | the primary `#60A5FA` decodes to (96, 165, 250) |
| ChartColors.PrimaryHover | frontend/src/types/chartColors.ts:33-38 | its hover variant is exactly `rgba(96, 165, 250, 0.8)`, separators as written |
| ChartColors.ColorWithOpacity | frontend/src/types/chartColors.ts:28-34 | the text always starts with `rgba(` and ends with `, `, the opacity and `)`; `ChartColors.PrimaryHover` gives a whole value |
| ChartColors.CreateGradient | frontend/src/types/chartColors.ts:47-48 | the gradient keeps its input as `full` |
| ChartColors.GradientOfHexColor | frontend/src/types/chartColors.ts:37-53 | for a `#RRGGBB` colour the hover, background, border and glow variants are `rgba` of the decoded channels at 0.8, 0.1, 0.3 and 0.2 |
| Dashboard.FromStatistics | frontend/src/components/BreachMetricsDashboard/BreachMetricsDashboard.tsx:77-96 | a 200 answer gives resolved + unresolved = accessible + inaccessible = `total_records`, parked and previously-breached 0, radar, timeline and top applications from the mock data, and the login-form distribution from `login_form_types` when present, otherwise the mock one |
| Dashboard.EmptyDistributionKept | frontend/src/components/BreachMetricsDashboard/BreachMetricsDashboard.tsx:92-93 | an empty `login_form_types` object is truthy and is shown as it is |
| Dashboard.AnswerCountsIgnored | frontend/src/components/BreachMetricsDashboard/BreachMetricsDashboard.tsx:77-96 | the answer's `is_parked`, `previously_breached` and `unique_domains` never change what is shown |
| Dashboard.MockDataConsistent | frontend/src/components/BreachMetricsDashboard/BreachMetricsDashboard.tsx:18-28 | the mock totals add up too |
| Dashboard.DashboardPanel.constructor | frontend/src/components/BreachMetricsDashboard/BreachMetricsDashboard.tsx:62-65 | the component starts with the mock data, loading, no error and not refreshing |
| Dashboard.DashboardPanel.FetchData | frontend/src/components/BreachMetricsDashboard/BreachMetricsDashboard.tsx:67-112 | a 200 answer shows its mapping with no error; anything else shows the mock data with the fixed message; `onDataUpdate` receives exactly the shown data once when given; loading and refreshing end false |
| Filters.TypeName | frontend/src/components/BreachMetricsDashboard/AdvancedSearch/AdvancedSearch.tsx:61-65 | each filter type has a non-empty name, and only the tag type's name starts with `t` |
| Filters.UniqueId | frontend/src/components/BreachMetricsDashboard/AdvancedSearch/AdvancedSearch.tsx:161 | every id that `_.uniqueId("filter_")` issues starts with `filter_` |
| Filters.UniqueIdInjective | frontend/src/components/BreachMetricsDashboard/AdvancedSearch/AdvancedSearch.tsx:161 | different counter values give different ids |
| Filters.WithFilter | frontend/src/components/BreachMetricsDashboard/AdvancedSearch/AdvancedSearch.tsx:165 | the new token is appended last and the old tokens keep their places |
| Filters.WithoutId | frontend/src/components/BreachMetricsDashboard/AdvancedSearch/AdvancedSearch.tsx:171 | the result is an order-preserving subsequence without the id that keeps every token with another id |
| Filters.WithoutAbsentId | frontend/src/components/BreachMetricsDashboard/AdvancedSearch/AdvancedSearch.tsx:171 | removing an id no token carries leaves the list equal |
| Filters.RemoveFreshAfterAdd | frontend/src/components/BreachMetricsDashboard/AdvancedSearch/AdvancedSearch.tsx:159-174 | removing the token just added with a fresh id restores the list |
| Filters.WithoutIdKeepsDistinct | frontend/src/components/BreachMetricsDashboard/AdvancedSearch/AdvancedSearch.tsx:171 | removal keeps the ids pairwise distinct |
| Filters.SubseqDistinctIds | frontend/src/components/BreachMetricsDashboard/AdvancedSearch/AdvancedSearch.tsx:171 | a subsequence of a list with distinct ids has distinct ids |
| Filters.AddFreshKeepsIds | frontend/src/components/BreachMetricsDashboard/AdvancedSearch/AdvancedSearch.tsx:159-166 | a token with the next counter value has an id not yet in use, and adding it keeps ids distinct |
| Filters.WithoutIdKeepsIssued | frontend/src/components/BreachMetricsDashboard/AdvancedSearch/AdvancedSearch.tsx:171 | removal keeps every id one the counter has already issued |
| SearchV2.FieldTexts | frontend/src/components/BreachMetricsDashboard/AdvancedSearch/AdvancedSearch.tsx:81-82 | `Object.values` of a result gives its eighteen fields, each as `String(v)` |
| SearchV2.TagParts | frontend/src/components/BreachMetricsDashboard/AdvancedSearch/AdvancedSearch.tsx:62-123 | the key of `value.split(':')` and its value, when there is one, hold no `:` |
| SearchV2.Evaluate | frontend/src/components/BreachMetricsDashboard/AdvancedSearch/AdvancedSearch.tsx:77-134 | the fallback result is the order-preserving subsequence of the records that pass the query stage, the IP stage and every filter; it keeps each such record |
| SearchV2.QueryCaseInsensitive | frontend/src/components/BreachMetricsDashboard/AdvancedSearch/AdvancedSearch.tsx:79-83 | the query matches exactly when its lowercase form does |
| SearchV2.MatchesQuery | frontend/src/components/BreachMetricsDashboard/AdvancedSearch/AdvancedSearch.tsx:79-83 | defined as: the empty query, or one of the eighteen field texts holding the query, both lower-cased; its meaning is stated by `SearchV2.QueryCaseInsensitive`, `SearchV2.NullQueryMatchesNullField` and `SearchV2.BooleanQueryMatches` |
| SearchV2.NullQueryMatchesNullField | frontend/src/components/BreachMetricsDashboard/AdvancedSearch/AdvancedSearch.tsx:81-82 | the query `null` or `NULL` finds every record with a null field |
| SearchV2.BooleanQueryMatches | frontend/src/components/BreachMetricsDashboard/AdvancedSearch/AdvancedSearch.tsx:81-82 | `true` or `false` finds a record through its boolean fields |
| SearchV2.CidrNeverExcludesAddress | frontend/src/components/BreachMetricsDashboard/AdvancedSearch/AdvancedSearch.tsx:89-94 | ranges that all hold a `/` never drop an address without one, and a null address is never dropped |
| SearchV2.ListedAddressExcluded | frontend/src/components/BreachMetricsDashboard/AdvancedSearch/AdvancedSearch.tsx:89-94 | a range equal to the address drops it |
| Json.Get | frontend/src/components/BreachMetricsDashboard/AdvancedSearch/AdvancedSearch.tsx:125 | `tagsObj[tagType]` on a parsed document reads `undefined` exactly when the key is no own property, not the `length` of an array or a string, and not inherited; an own property is read first; a string read is always an own property |
| SearchV2.TagPairMatches | frontend/src/components/BreachMetricsDashboard/AdvancedSearch/AdvancedSearch.tsx:121-125 | a token `k:v` with no `:` in `k` or `v` matches exactly the documents whose own property `k` is the string `v`; no inherited member is a string, and a parse error or `null` matches nothing |
| SearchV2.TagKeyOnlyMatches | frontend/src/components/BreachMetricsDashboard/AdvancedSearch/AdvancedSearch.tsx:121-125 | a token without `:` matches exactly the tag objects that neither have the key nor inherit it from `Object.prototype` |
| SearchV2.PrototypeKeyNeverMatches | frontend/src/components/BreachMetricsDashboard/AdvancedSearch/AdvancedSearch.tsx:121-125 | a key-only token naming an `Object.prototype` member, such as `constructor`, matches no document, because the read gives a function or an own value, never `undefined` |
| SearchV2.StringDocIndexMatches | frontend/src/components/BreachMetricsDashboard/AdvancedSearch/AdvancedSearch.tsx:121-125 | a string document is read by index: `0:a` matches `"ab"` and `0:b` does not |
| SearchV2.TagUnparsableFails | frontend/src/components/BreachMetricsDashboard/AdvancedSearch/AdvancedSearch.tsx:122-129 | tags that do not parse, or parse to `null`, make every tag filter false |
| SearchV2.TagMatches | frontend/src/components/BreachMetricsDashboard/AdvancedSearch/AdvancedSearch.tsx:121-129 | defined as: the parsed document's property for the key compared with the value, an inherited member matching nothing; its meaning is stated by `SearchV2.TagPairMatches`, `SearchV2.TagKeyOnlyMatches` and `SearchV2.TagUnparsableFails` |
| SearchV2.FilterKinds | frontend/src/components/BreachMetricsDashboard/AdvancedSearch/AdvancedSearch.tsx:97-133 | domain, ip, port and path tokens always pass; application is case-insensitive equality that never matches a null application; login type is exact equality; `unresolved` and `breached` test their flags |
| SearchV2.EvaluateKeepsAll | frontend/src/components/BreachMetricsDashboard/AdvancedSearch/AdvancedSearch.tsx:77-97 | an empty query with no ranges and no filters keeps every record |
| SearchV2.MoreFiltersNarrow | frontend/src/components/BreachMetricsDashboard/AdvancedSearch/AdvancedSearch.tsx:97 | filters combine by conjunction: one more token gives a subsequence of the previous result |
| SearchV2.FilterPairs | frontend/src/components/BreachMetricsDashboard/AdvancedSearch/AdvancedSearch.tsx:60-67 | token `i` assigns its own key and value, in list order |
| SearchV2.ParamKeyNotFixed | frontend/src/components/BreachMetricsDashboard/AdvancedSearch/AdvancedSearch.tsx:54-67 | no token can write `q` or `excludedIpRanges` |
| SearchV2.ParamsKeepFixed | frontend/src/components/BreachMetricsDashboard/AdvancedSearch/AdvancedSearch.tsx:54-57 | the parameters always hold `q` and `excludedIpRanges` with the arguments' values |
| SearchV2.ParamsLastTokenWins | frontend/src/components/BreachMetricsDashboard/AdvancedSearch/AdvancedSearch.tsx:60-67 | among tokens writing the same key, the last one's value is the one sent |
| SearchV2.ParamKeySameType | frontend/src/components/BreachMetricsDashboard/AdvancedSearch/AdvancedSearch.tsx:61-65 | non-tag tokens share a key exactly when they share a type, and no tag token shares a key with them |
| SearchV2.TokenParam | frontend/src/components/BreachMetricsDashboard/AdvancedSearch/AdvancedSearch.tsx:61-66 | one step of the `forEach` writes `tag_<key>` with the tag's value, or the type with the token's value |
| SearchV2.BuildParams | frontend/src/components/BreachMetricsDashboard/AdvancedSearch/AdvancedSearch.tsx:54-67 | the loop's parameter object is the base object updated by every token in order |
| SearchV2.KeepSingle | frontend/src/components/BreachMetricsDashboard/AdvancedSearch/AdvancedSearch.tsx:10-77 | a mock record that passes every stage is the whole fallback result |
| SearchV2.MockFoundByApplicationName | frontend/src/components/BreachMetricsDashboard/AdvancedSearch/AdvancedSearch.tsx:30-86 | the query `wordpress` finds the mock record through its application name |
| SearchV2.MockKeptByTagChip | frontend/src/components/BreachMetricsDashboard/AdvancedSearch/AdvancedSearch.tsx:20-125 | the chip `type:ecommerce` keeps the mock record |
| SearchV2.MockNotDroppedByCidr | frontend/src/components/BreachMetricsDashboard/AdvancedSearch/AdvancedSearch.tsx:17-94 | the private CIDR ranges do not drop the mock record's private address |
| SearchV2.MockDroppedByPrefix | frontend/src/components/BreachMetricsDashboard/AdvancedSearch/AdvancedSearch.tsx:17-94 | the textual prefix `192.168.` does drop it |
| SearchV2.FetchOutcomeFlags | frontend/src/components/BreachMetricsDashboard/AdvancedSearch/AdvancedSearch.tsx:71-137 | after a fetch, the mock flag is set exactly when the error is; mock results are a subsequence of the mock list; otherwise the results are the API's |
| SearchV2.SearchPanel.constructor | frontend/src/components/BreachMetricsDashboard/AdvancedSearch/AdvancedSearch.tsx:39-45 | the panel starts with no query, tokens, results, ranges or error, not loading and not showing mock data |
| SearchV2.SearchPanel.FetchData | frontend/src/components/BreachMetricsDashboard/AdvancedSearch/AdvancedSearch.tsx:47-143 | the parameters sent are the token-built object; the panel then shows the API's results, or the fallback with the error and the mock flag; loading ends false and nothing else changes |
| SearchV2.SearchPanel.HandleSearchChange | frontend/src/components/BreachMetricsDashboard/AdvancedSearch/AdvancedSearch.tsx:153-157 | the new query is stored and searched with the current tokens and ranges |
| SearchV2.SearchPanel.AddFilter | frontend/src/components/BreachMetricsDashboard/AdvancedSearch/AdvancedSearch.tsx:159-168 | a token with the next `filter_<n>` id, unused so far, is appended and the search rerun with the new list; ids stay distinct |
| SearchV2.SearchPanel.RemoveFilter | frontend/src/components/BreachMetricsDashboard/AdvancedSearch/AdvancedSearch.tsx:170-174 | every token with the id is dropped, order kept, and the search rerun with the rest |
| SearchV2.SearchPanel.HandleIpRangeExclusion | frontend/src/components/BreachMetricsDashboard/AdvancedSearch/AdvancedSearch.tsx:176-179 | the reported ranges replace the old ones and the search reruns with them |
| SearchLegacy.RangePrefix | frontend/src/components/BreachMetricsDashboard/AdvancedSearch.tsx:175 | the part of a range before its first `/` holds no `/` |
| SearchLegacy.Evaluate | frontend/src/components/BreachMetricsDashboard/AdvancedSearch.tsx:148-179 | the result is the order-preserving subsequence of the mock records that pass the query term, every filter and the exclusion test; it keeps each such record |
| SearchLegacy.UppercaseApplicationNeverMatches | frontend/src/components/BreachMetricsDashboard/AdvancedSearch.tsx:162-163 | an application token with an uppercase letter never matches, since only the record side is lowercased |
| SearchLegacy.PrefixBeforeSlash | frontend/src/components/BreachMetricsDashboard/AdvancedSearch.tsx:173-176 | the range `p/n` compares only `p` |
| SearchLegacy.HostRangeExcludesLongerAddress | frontend/src/components/BreachMetricsDashboard/AdvancedSearch.tsx:173-176 | `10.0.0.15` is excluded by `10.0.0.1/32` |
| SearchLegacy.RangeCoversAddress | frontend/src/components/BreachMetricsDashboard/AdvancedSearch.tsx:173-176 | any address that starts with `p` is dropped by `p/n` |
| SearchLegacy.NetworkRangeMissesHost | frontend/src/components/BreachMetricsDashboard/AdvancedSearch.tsx:173-176 | `10.0.0.1` is not excluded by `10.0.0.0/8` |
| SearchLegacy.NoAddressNeverExcluded | frontend/src/components/BreachMetricsDashboard/AdvancedSearch.tsx:173 | a null or empty address is never excluded |
| SearchLegacy.ChipTokenMatchesItsRecord | frontend/src/components/BreachMetricsDashboard/AdvancedSearch.tsx:166-167 | the tag token a chip adds matches the record carrying that tag |
| SearchLegacy.StatusSameAsNewer | frontend/src/components/BreachMetricsDashboard/AdvancedSearch.tsx:156-161 | the status mapping, unknown values passing, agrees with the newer component's |
| SearchLegacy.MismatchNotPrefix | frontend/src/components/BreachMetricsDashboard/AdvancedSearch.tsx:175 | a mismatch inside the prefix rules out `startsWith` |
| SearchLegacy.RangeMissesAddress | frontend/src/components/BreachMetricsDashboard/AdvancedSearch.tsx:173-176 | `p/n` misses an address that differs from `p` somewhere in `p` |
| SearchLegacy.MockAddressesNotExcluded | frontend/src/components/BreachMetricsDashboard/AdvancedSearch.tsx:100-176 | neither mock address starts with the prefix of a default range |
| SearchLegacy.DefaultsDropNoMock | frontend/src/components/BreachMetricsDashboard/AdvancedSearch.tsx:93-176 | even the four defaults the range editor shows would keep both mock records |
| SearchLegacy.SecondMockLacksHealthcare | frontend/src/components/BreachMetricsDashboard/AdvancedSearch.tsx:123 | the second mock record has no `healthcare` tag |
| SearchLegacy.InitialSearchExamples | frontend/src/components/BreachMetricsDashboard/AdvancedSearch.tsx:89-179 | exclusions start empty, so a search made before the range editor reports keeps both mock records; the `healthcare` chip keeps only the first |
| SearchLegacy.LegacySearchPanel.constructor | frontend/src/components/BreachMetricsDashboard/AdvancedSearch.tsx:85-89 | no query, tokens, results or exclusions, not loading |
| SearchLegacy.LegacySearchPanel.PerformSearch | frontend/src/components/BreachMetricsDashboard/AdvancedSearch.tsx:136-193 | the results are the evaluator's, or empty when the call throws; loading ends false; nothing else changes |
| SearchLegacy.LegacySearchPanel.AddFilter | frontend/src/components/BreachMetricsDashboard/AdvancedSearch.tsx:195-204 | a token with a fresh `filter_<n>` id is appended and the search rerun with the new list |
| SearchLegacy.LegacySearchPanel.RemoveFilter | frontend/src/components/BreachMetricsDashboard/AdvancedSearch.tsx:206-210 | every token with the id is dropped, order kept, and the search rerun |
| SearchLegacy.LegacySearchPanel.HandleSearchChange | frontend/src/components/BreachMetricsDashboard/AdvancedSearch.tsx:212-216 | the new query is stored and searched |
| SearchLegacy.LegacySearchPanel.HandleIpRangeExclusion | frontend/src/components/BreachMetricsDashboard/AdvancedSearch.tsx:218-221 | the exclusions are replaced only by what the range editor reports, then searched |
| IpRanges.DigitsNoChar | frontend/src/components/BreachMetricsDashboard/IPRangeExclusion.tsx:22 | a run of digits holds no separator character |
| IpRanges.SplitDotted | frontend/src/components/BreachMetricsDashboard/IPRangeExclusion.tsx:34-35 | four digit runs joined by dots split back into exactly those four runs, and the text holds no `/` |
| IpRanges.OctetDigits | frontend/src/components/BreachMetricsDashboard/IPRangeExclusion.tsx:22 | the decimal text of a number at most 255 is a run of one to three digits |
| IpRanges.CanonicalRangeValid | frontend/src/components/BreachMetricsDashboard/IPRangeExclusion.tsx:22-44 | every canonical rendering with octets at most 255 and an optional prefix length at most 32 is accepted |
| IpRanges.IsValidIpRange | frontend/src/components/BreachMetricsDashboard/IPRangeExclusion.tsx:22-44 | defined as: the pattern, octets at most 255 and a prefix length at most 32; its meaning is stated by `IpRanges.CanonicalRangeValid`, `IpRanges.LargeOctetRefused`, `IpRanges.LongPrefixRefused` and `IpRanges.HostBitsNotChecked` |
| IpRanges.LoopbackDefaultValid | frontend/src/components/BreachMetricsDashboard/IPRangeExclusion.tsx:15-44 | `127.0.0.0/8` is accepted |
| IpRanges.TenDefaultValid | frontend/src/components/BreachMetricsDashboard/IPRangeExclusion.tsx:16-44 | `10.0.0.0/8` is accepted |
| IpRanges.OneSevenTwoDefaultValid | frontend/src/components/BreachMetricsDashboard/IPRangeExclusion.tsx:17-44 | `172.16.0.0/12` is accepted |
| IpRanges.OneNineTwoDefaultValid | frontend/src/components/BreachMetricsDashboard/IPRangeExclusion.tsx:18-44 | `192.168.0.0/16` is accepted |
| IpRanges.DefaultsValid | frontend/src/components/BreachMetricsDashboard/IPRangeExclusion.tsx:14-44 | every default range passes the editor's own validation |
| IpRanges.DefaultsDistinct | frontend/src/components/BreachMetricsDashboard/IPRangeExclusion.tsx:14-19 | the defaults hold no duplicate |
| IpRanges.HostBitsNotChecked | frontend/src/components/BreachMetricsDashboard/IPRangeExclusion.tsx:30-44 | a range with host bits set, `10.0.0.1/8`, is still accepted |
| IpRanges.LargeOctetRefused | frontend/src/components/BreachMetricsDashboard/IPRangeExclusion.tsx:38 | any dotted address whose first octet exceeds 255 is refused |
| IpRanges.LongPrefixRefused | frontend/src/components/BreachMetricsDashboard/IPRangeExclusion.tsx:41 | any prefix length above 32 is refused |
| IpRanges.OutOfRangeExamples | frontend/src/components/BreachMetricsDashboard/IPRangeExclusion.tsx:38-41 | `256.0.0.0` and `1.2.3.4/33` are refused |
| IpRanges.IpRangeExclusion.constructor | frontend/src/components/BreachMetricsDashboard/IPRangeExclusion.tsx:25-27 | the list starts as the defaults, the input empty, no error, and no range is listed twice |
| IpRanges.IpRangeExclusion.SetNewRange | frontend/src/components/BreachMetricsDashboard/IPRangeExclusion.tsx:95-98 | typing replaces the input text, clears the error and leaves the list alone |
| IpRanges.IpRangeExclusion.AddRange | frontend/src/components/BreachMetricsDashboard/IPRangeExclusion.tsx:46-67 | an empty input, a malformed range and a duplicate each set their own message and change nothing else; otherwise the range is appended, the input cleared and the new list reported; the list stays duplicate-free |
| IpRanges.IpRangeExclusion.RemoveRange | frontend/src/components/BreachMetricsDashboard/IPRangeExclusion.tsx:69-73 | the list loses every copy of the range, keeps the rest in order, stays duplicate-free and is always reported |
| IpRanges.Without | frontend/src/components/BreachMetricsDashboard/IPRangeExclusion.tsx:70 | the result is a subsequence of the list that lacks the range and keeps every other entry |
| IpRanges.WithoutKeepsDistinct | frontend/src/components/BreachMetricsDashboard/IPRangeExclusion.tsx:70 | removal keeps a duplicate-free list duplicate-free |
| IpRanges.WithoutAbsent | frontend/src/components/BreachMetricsDashboard/IPRangeExclusion.tsx:70 | removing a range that is not listed changes nothing |
| IpRanges.RemoveAfterAdd | frontend/src/components/BreachMetricsDashboard/IPRangeExclusion.tsx:63-70 | adding a new range and then removing it restores the list |
| IpRanges.AppendFreshDistinct | frontend/src/components/BreachMetricsDashboard/IPRangeExclusion.tsx:57-63 | appending a range not already listed keeps the list duplicate-free |
| SearchResults.NonBlank | frontend/src/components/BreachMetricsDashboard/AdvancedSearch/SearchResults/SearchResults.tsx:30-36 | a value is passed on exactly when it is present and not blank, and then unchanged |
| SearchResults.ProcessUrlStatus | frontend/src/components/BreachMetricsDashboard/AdvancedSearch/SearchResults/SearchResults.tsx:23-40 | the login type is passed only with a login form and a non-empty type; the application name and title only when present and not blank, each then unchanged |
| SearchResults.StatusFlagsCopied | frontend/src/components/BreachMetricsDashboard/AdvancedSearch/SearchResults/SearchResults.tsx:25-38 | accessibility, login form, parking and breach flags are the record's own |
| SearchResults.NoFormNoLoginType | frontend/src/components/BreachMetricsDashboard/AdvancedSearch/SearchResults/SearchResults.tsx:28 | without a login form no login type is shown, whatever the record holds |
| SearchResults.RenderTags | frontend/src/components/BreachMetricsDashboard/AdvancedSearch/SearchResults/SearchResults.tsx:43-60 | a parse error or a `null` document renders nothing; any other document renders one chip per entry of `Object.entries`, in its order, each adding the token `key:value` |
| SearchResults.StringDocChips | frontend/src/components/BreachMetricsDashboard/AdvancedSearch/SearchResults/SearchResults.tsx:43-51 | the string document `"ab"` renders the chips `0:a` and `1:b` |
| SearchResults.PrimitiveDocNoChips | frontend/src/components/BreachMetricsDashboard/AdvancedSearch/SearchResults/SearchResults.tsx:43-51 | a number or a boolean document renders no chip |
| SearchResults.ChipTokenRoundTrip | frontend/src/components/BreachMetricsDashboard/AdvancedSearch/SearchResults/SearchResults.tsx:51 | splitting a chip's token at `:` gives back its key and value text when neither holds `:` |
| SearchResults.ChipFindsItsRecord | frontend/src/components/BreachMetricsDashboard/AdvancedSearch/SearchResults/SearchResults.tsx:51 | for any tag document with distinct keys, the tag filter a string-valued chip adds is passed by the record that shows it |
| SearchResults.NumericChipMissesItsRecord | frontend/src/components/BreachMetricsDashboard/AdvancedSearch/SearchResults/SearchResults.tsx:51 | for any tag document with distinct keys, the tag filter a number-valued chip adds is failed by its own record |
| SearchResults.IntToStringNoChar | frontend/src/components/BreachMetricsDashboard/AdvancedSearch/SearchResults/SearchResults.tsx:51 | the decimal text of a number holds no `:` |
| SearchResults.IpLine | frontend/src/components/BreachMetricsDashboard/AdvancedSearch/SearchResults/SearchResults.tsx:103-108 | the address line is shown exactly when the address is truthy |
| SearchResults.Render | frontend/src/components/BreachMetricsDashboard/AdvancedSearch/SearchResults/SearchResults.tsx:62-128 | loading shows only the spinner; otherwise the error shows when truthy, the mock notice when the data is mock, one row per result with its domain, and the empty notice exactly when there are no results |
| SearchResults.FailedFetchShowsNotice | frontend/src/components/BreachMetricsDashboard/AdvancedSearch/SearchResults/SearchResults.tsx:72-77 | after a failed fetch the table shows the fetch error, the mock notice, and the empty notice exactly when the mock rows evaluate to nothing |
| BreachSlice.WithoutStoreId | frontend/src/store/breachSlice.ts:164-168 | the result is a subsequence of the filters, holds no filter with the id and keeps every filter with another id |
| BreachSlice.RemoveUnknownId | frontend/src/store/breachSlice.ts:164-168 | removing an id no filter carries changes nothing |
| BreachSlice.RemoveAfterAdd | frontend/src/store/breachSlice.ts:161-168 | pushing a filter with a fresh id and removing that id restores the list |
| BreachSlice.RemoveIdempotent | frontend/src/store/breachSlice.ts:164-168 | removing an id twice is removing it once |
| BreachSlice.BreachStore.constructor | frontend/src/store/breachSlice.ts:83-112 | the initial state: no results, filters or query, page 1 of 20 rows, zero metrics, nothing loading and no error |
| BreachSlice.BreachStore.SetSearchQuery | frontend/src/store/breachSlice.ts:158-160 | only the query changes |
| BreachSlice.BreachStore.AddSearchFilter | frontend/src/store/breachSlice.ts:161-163 | the filter is appended; nothing else changes |
| BreachSlice.BreachStore.RemoveSearchFilter | frontend/src/store/breachSlice.ts:164-168 | the filters lose the ones with the id; nothing else changes |
| BreachSlice.BreachStore.ClearSearchFilters | frontend/src/store/breachSlice.ts:169-171 | the filters become empty; nothing else changes |
| BreachSlice.BreachStore.SetCurrentPage | frontend/src/store/breachSlice.ts:172-174 | only the page changes |
| BreachSlice.BreachStore.SetItemsPerPage | frontend/src/store/breachSlice.ts:175-177 | only the page size changes |
| BreachSlice.BreachStore.MetricsPending | frontend/src/store/breachSlice.ts:182-185 | the metrics request is loading with no error; nothing else changes |
| BreachSlice.BreachStore.MetricsFulfilled | frontend/src/store/breachSlice.ts:186-189 | loading ends and the payload becomes the metrics; the error is left as it was |
| BreachSlice.BreachStore.MetricsRejected | frontend/src/store/breachSlice.ts:190-193 | loading ends and the error is the message or, when it is missing or empty, `Failed to fetch metrics`; the metrics are kept |
| BreachSlice.BreachStore.SearchPending | frontend/src/store/breachSlice.ts:195-198 | the search is loading with no error; results are kept |
| BreachSlice.BreachStore.SearchFulfilled | frontend/src/store/breachSlice.ts:199-203 | loading ends and the payload's results and total replace the old ones |
| BreachSlice.BreachStore.SearchRejected | frontend/src/store/breachSlice.ts:204-207 | loading ends and the error is the message or `Search failed`; the results are kept |
| BreachSlice.RejectionAlwaysExplains | frontend/src/store/breachSlice.ts:192-206 | a rejection always leaves a non-empty error |
| BreachSlice.EmptyMessageFallsBack | frontend/src/store/breachSlice.ts:192-206 | an empty message is replaced by the fallback just as a missing one |
| TagSlice.WithCountChangesFirstOnly | frontend/src/store/tagSlice.ts:91-94 | the list keeps its length; only the first tag with the id changes, and only its count |
| TagSlice.WithCount | frontend/src/store/tagSlice.ts:91-94 | the list keeps its length; `TagSlice.WithCountChangesFirstOnly` and `TagSlice.WithCountUnknown` say what changes |
| TagSlice.WithCountUnknown | frontend/src/store/tagSlice.ts:91-94 | an id no tag carries changes nothing |
| TagSlice.WithCountSkip | frontend/src/store/tagSlice.ts:91 | the search passes over a tag with another id unchanged |
| TagSlice.Merged | frontend/src/store/tagSlice.ts:121-125 | the merged tag comes last; before it are, in order, exactly the old tags whose ids are not listed |
| TagSlice.MergedLength | frontend/src/store/tagSlice.ts:123-124 | the list loses every listed tag and gains one |
| TagSlice.CountSplit | frontend/src/store/tagSlice.ts:123 | every tag is either listed or not |
| TagSlice.TagStore.constructor | frontend/src/store/tagSlice.ts:18-22 | no tags, not loading, no error |
| TagSlice.TagStore.UpdateTagCount | frontend/src/store/tagSlice.ts:87-95 | the tags become the list with the first tag of the id recounted; loading and error are kept |
| TagSlice.TagStore.FetchPending | frontend/src/store/tagSlice.ts:100-103 | loading with no error; the tags are kept |
| TagSlice.TagStore.FetchFulfilled | frontend/src/store/tagSlice.ts:104-107 | loading ends and the payload becomes the tags |
| TagSlice.TagStore.FetchRejected | frontend/src/store/tagSlice.ts:108-111 | loading ends, the tags are kept and the error is the message or `Failed to fetch tags` |
| TagSlice.TagStore.AddTagFulfilled | frontend/src/store/tagSlice.ts:113-115 | the tag is appended; nothing else changes |
| TagSlice.TagStore.DeleteTagFulfilled | frontend/src/store/tagSlice.ts:117-119 | every tag with the id is dropped; nothing else changes |
| TagSlice.TagStore.MergeTagsFulfilled | frontend/src/store/tagSlice.ts:121-125 | the tags become the merge of the old list; nothing else changes |
| TagSlice.DeleteKeepsOrder | frontend/src/store/tagSlice.ts:118 | deletion keeps the other tags in order and removes every tag with the id |
| BreachHooks.MergeNothing | frontend/src/hooks/useBreachData.ts:162-167 | with nothing supplied the request repeats the stored search |
| BreachHooks.MergeEverything | frontend/src/hooks/useBreachData.ts:162-167 | fully supplied parameters ignore the store |
| BreachHooks.MergeKeepsFalsyValues | frontend/src/hooks/useBreachData.ts:162-167 | members fall back with `??`: a supplied empty query, empty filter list, page 0 or limit 0 is sent as given |
| BreachHooks.MockResponseConsistent | frontend/src/hooks/useBreachData.ts:126-152 | the fallback holds one result, a total of 1, page 1 of 1, and one page at 20 per page |
| BreachHooks.FallbackIgnoresRequest | frontend/src/hooks/useBreachData.ts:107-155 | a failed search answers the same page 1 of one record whatever query, filters and page were asked for |
| BreachHooks.MetricsFallbackFixed | frontend/src/hooks/useBreachData.ts:53-90 | every failed metrics query gives the fixed mock metrics |
| BreachHooks.Search | frontend/src/hooks/useBreachData.ts:159-177 | the request is the merge; the query and page are stored only when supplied; the response is the mutation's; no other store field changes |
| BreachHooks.AddFilter | frontend/src/hooks/useBreachData.ts:182-185 | the store gains a filter whose id is the clock in decimal and moves to page 1, while the request carries the render-time filters |
| BreachHooks.RemoveFilter | frontend/src/hooks/useBreachData.ts:186-189 | the store loses the filters with the id and moves to page 1, while the request carries the render-time filters |
| BreachHooks.AddedFilterNotSent | frontend/src/hooks/useBreachData.ts:183-184 | the request sent by `addFilter` lacks the filter it has just added |
| BreachHooks.TotalPages | frontend/src/hooks/useBreachData.ts:209 | a non-zero page size gives a page count; a zero page size gives NaN exactly for no results, otherwise an infinity |
| BreachHooks.TotalPagesIsCeiling | frontend/src/hooks/useBreachData.ts:209 | for a positive page size the count is the least number of pages holding every result |
| BreachHooks.NoResultsNoPages | frontend/src/hooks/useBreachData.ts:209 | no results give no pages for any non-zero page size |
| BreachHooks.TotalPagesMonotone | frontend/src/hooks/useBreachData.ts:209 | the page count never falls as results grow |
| Ingest.LastIndex | backend/home.py:203-208 | the position found holds the character and none follows it; with no position found the text has none |
| Ingest.WithScheme | backend/home.py:217-219 | the result always starts with a known scheme and is the URI itself when it already does |
| Ingest.ParseNeedsTwoColons | backend/home.py:199-224 | a line is split exactly when it holds at least two colons |
| Ingest.ParseCredentials | backend/home.py:199-224 | the username and password of a split line hold no colon and the URI starts with a known scheme; its partner `Ingest.ParseNeedsTwoColons` says when a line is split |
| Ingest.ParsedUriHasScheme | backend/home.py:217-219 | the URI of a split line starts with a known scheme |
| Ingest.ParseRoundTrip | backend/home.py:199-224 | splitting `u:user:pw` gives back the three parts, `http://` put before a URI without a known scheme, when the username and password hold no colon and no part has outer white space |
| Ingest.ParseRoundTripWithScheme | backend/home.py:199-224 | with a known scheme the round trip is exact |
| Ingest.AcceptedIff | backend/home.py:117-118 | a split line is refused exactly when its username or its password is empty or all `*` |
| Ingest.IsValidUrl | backend/home.py:60-76 | a URI is accepted exactly when it has a known scheme, at least ten characters, parses, and has a network location free of `<`, `>` and `"` whose host matches the address pattern (four runs of one to three Unicode decimal digits, `$` allowing a final newline) or holds a character `isalpha` accepts; the parse is then returned |
| Ingest.LetterHostAccepted | backend/home.py:70-72 | a host holding any character `isalpha` accepts, of any script, passes the host test |
| Ingest.DigitHostAccepted | backend/home.py:61-72 | a host of four runs of decimal digits, of any script, passes the host test |
| Ingest.ShortQuadRefused | backend/home.py:61-72 | the host `1.2.3` has neither a letter nor four groups and is refused |
| Ingest.Score | backend/home.py:304-314 | the score lies between -3 and 9 |
| Ingest.Classify | backend/home.py:316-324 | critical exactly from 7, high exactly from 5 below 7, medium exactly from 3 below 5, low exactly below 3 |
| Ingest.CalculatePriority | backend/home.py:299-324 | the band of the weighted score; a parked domain is never critical, a resolved and accessible unparked one always is, one neither resolved nor accessible is low |
| Ingest.ParkedNeverCritical | backend/home.py:313-318 | a parked domain is never critical |
| Ingest.LiveUnparkedCritical | backend/home.py:307-318 | resolution and access without parking reach critical |
| Ingest.DeadIsLow | backend/home.py:307-324 | without resolution and access the band is low |
| Ingest.ClassifyMonotone | backend/home.py:316-324 | a higher score never gives a lower band |
| Ingest.PriorityMonotone | backend/home.py:299-324 | more positive flags and no more parking never lower the band |
| Ingest.IpTagsShape | backend/home.py:259-269 | the address tags have the keys `ip_type` (when written) and `scope`, each once |
| Ingest.IpTagsFresh | backend/home.py:259-269 | no base tag and no breach mark is among the address tags |
| Ingest.IpTagLookups | backend/home.py:260-269 | `ipv4` exactly for a truthy address with three dots, `ipv6` exactly for one bracketed without three dots, `local` or `public` exactly by the four prefixes |
| Ingest.BaseTagsShape | backend/home.py:271-295 | the six base tags are written in order, each once |
| Ingest.BaseTagLookupsFirst | backend/home.py:271-278 | the protocol, resolution and status tags carry the scheme and the two flags |
| Ingest.BaseTagLookupsLast | backend/home.py:280-295 | the environment, priority and Android tags carry their rules, and there is no breach mark |
| Ingest.EnvCases | backend/home.py:280-286 | the environment is staging exactly when parked, production exactly when live and not parked, dev otherwise |
| Ingest.TagsShape | backend/home.py:255-297 | the address tags followed by the base tags form a dictionary whose keys keep that order |
| Ingest.AddressTags | backend/home.py:257-269 | the first block writes exactly the address tags |
| Ingest.AssignTags | backend/home.py:255-297 | the dictionary is the address tags then the six base tags, each key once, in that order |
| Ingest.AssignedTagLookups | backend/home.py:259-269 | every address lookup in the full dictionary finds what its rule says |
| Ingest.AssignedBaseLookups | backend/home.py:271-295 | every base lookup in the full dictionary finds its value, and there is no breach mark |
| Ingest.AnyOneSevenTwoIsLocal | backend/home.py:266 | every `172.` address counts as local, not only 172.16.0.0/12 |
| Ingest.DetectApplicationFromUrl | backend/home.py:329-336 | no application exactly when no pattern occurs in the lower-cased URI or path; otherwise the application of a pattern that occurs, with no earlier pattern occurring |
| Ingest.UpperPatternNeverHits | backend/home.py:332 | a pattern with an upper-case letter never occurs in lower-cased text |
| Ingest.MetaNeedsTitle | backend/home.py:346-369 | each generator keyword contains the title keyword of its application |
| Ingest.DetectApplicationFromResponse | backend/home.py:339-372 | an application exactly when a truthy response (one that did not fail and whose status is not 400 to 599) has a lower-cased body holding a title keyword, namely the first such application; the generator test never decides |
| Ingest.CheckLoginForm | backend/home.py:377-394 | a login form exactly for a truthy response (status not 400 to 599) mentioning a login keyword, typed captcha, else one-time password, else basic; a type exactly with a form |
| Ingest.UnusualStatusIsRead | backend/home.py:377-394 | a body mentioning a password is read as a login form under status 999, which is truthy, and not under 503 |
| Ingest.OtpPhraseIsLoginForm | backend/home.py:381-391 | the spelled-out one-time password phrase is itself a login keyword |
| Ingest.FindFrom | backend/home.py:151 | a position found is at or after the start and the text occurs there |
| Ingest.ProbePage | backend/home.py:137-169 | accessible exactly for an http or https answer with status 200; a login form exactly when the readable body holds `password` or `login`, typed captcha, then otp, then basic; parking by the two lower-cased phrases and the title of the first `<title>` element, all only from a readable body |
| Ingest.RowTags | backend/home.py:172-174 | the tags are the computed ones plus the breach mark exactly for a breached domain, and the priority tag is the priority of the flags |
| Ingest.MarkBreached | backend/home.py:173-174 | the mark is added exactly for a breached domain and every other lookup is unchanged |
| Ingest.ParseStandardLine | backend/home.py:113-196 | a row exactly for an accepted line with a valid URI whose port can be read and whose two host lookups end in an address, `gaierror` or `timeout` (any other exception, such as an `idna` `UnicodeError`, drops the line); the row is the one `RowFor` describes (credentials, unquoted host and path, address, port default, resolution, first URL-pattern application, the probe's flags, form type and title, and the `assign_tags` tags with the breach mark); the breach column agrees with the breached set, a form type comes exactly with a form, and the priority tag is that of its flags |
| Ingest.BuildRow | backend/home.py:104-196 | no row exactly when `resolve_ip_address` or `check_domain_resolution` raises an exception other than `gaierror` and `timeout`; otherwise the row is the one `RowFor` describes for the credentials and the parse, with the address only for a found one, and with the breach column, form type and priority rules kept |
| Ingest.RowTagLookups | backend/home.py:171-174 | the row's tags give its protocol, reachability, environment and Android flag, and carry the breach mark exactly for a domain in the breached set |
| Ingest.StrippedLines | backend/home.py:602 | at most as many lines, each non-empty and stripped |
| Ingest.LoadDataLines | backend/home.py:586-607 | a file that cannot be read or decoded raises; a missing file gives no lines; otherwise the stripped non-empty lines of the first `max_lines` raw lines (of all of them for a falsy limit), so a truthy limit bounds the count |
| Ingest.ZeroLimitLoadsAll | backend/home.py:599 | a limit of 0 is falsy and loads every line |
| Ingest.StrippedLinesKeep | backend/home.py:602 | every line that is not blank is kept, stripped |
| Ingest.StrippedLinesAreStrippedNonEmpty | backend/home.py:599-602 | the loaded lines are the stripped raw lines with the empty ones dropped, so each is the strip of a raw line, in file order |
| Ingest.LimitIgnoresLaterLines | backend/home.py:599-600 | with a truthy limit not above the file's length, only the first `max_lines` raw lines are read; later lines never matter |
| Ingest.LargeLimitLoadsAll | backend/home.py:599-602 | a limit of at least the file's length loads what no limit loads |
| Ingest.Batches | backend/home.py:722 | every batch is non-empty and no larger than the size, and every batch but the last is full |
| Ingest.BatchesConcat | backend/home.py:722 | the batches joined give back the lines in order |
| Ingest.BatchCount | backend/home.py:722 | the number of batches is the least that holds every line |
| SqlSearch.FlagArg | backend/app.py:87-90 | a flag is absent exactly when its argument is, and false exactly for the empty text |
| SqlSearch.TagFilters | backend/app.py:123 | every kept argument starts with `tag_` |
| SqlSearch.ReadNoArgs | backend/app.py:83-90 | without arguments the search is on the domain with no text, page 1 of 50 and no filter |
| SqlSearch.ReadArgs | backend/app.py:83-123 | the reads fail exactly when `page` or `per_page` is given and is not an integer; a missing `page` is 1, a missing `per_page` 50, a missing `field` `domain`; a given number is its parsed value; every tag filter starts with `tag_`; `SqlSearch.ReadNoArgs` and `SqlSearch.TagFiltersKeep` are its partners |
| SqlSearch.TagFiltersKeep | backend/app.py:123 | a key is a tag filter exactly when it starts with `tag_` and is an argument, and then has the argument's value |
| SqlSearch.ClauseSql | backend/app.py:100-128 | each condition text starts with a space |
| SqlSearch.TagNameOfFrontendKey | backend/app.py:126 | the key the newer search panel writes for a tag token names its tag again once `tag_` is cut |
| SqlSearch.TagClauses | backend/app.py:125-129 | one condition per tag argument |
| SqlSearch.ParamsOf | backend/app.py:95-129 | one parameter per condition |
| SqlSearch.ClauseCount | backend/app.py:97-129 | one parameter for a non-empty text, for each flag present, for a non-empty form type, and for each tag argument |
| SqlSearch.TagParamsAreValues | backend/app.py:125-129 | the tag conditions bind the tag values, in order, after the other parameters |
| SqlSearch.NoPercentNoPlaceholder | backend/app.py:94 | a text without `%` holds no placeholder |
| SqlSearch.PlaceholdersConcat | backend/app.py:100-136 | placeholders add up across a seam that cannot form one |
| SqlSearch.ClauseSqlPlaceholders | backend/app.py:100-128 | each condition adds one placeholder beyond those in its column text |
| SqlSearch.PlainClauses | backend/app.py:97-129 | no condition of a valid search holds a placeholder of its own when no tag name does |
| SqlSearch.SqlOfPlaceholders | backend/app.py:97-129 | the conditions hold exactly one placeholder each |
| SqlSearch.PageSuffixPlaceholders | backend/app.py:136 | the paging suffix holds two placeholders |
| SqlSearch.PlaceholdersMatchParams | backend/app.py:94-138 | the filtered and the paged query have exactly as many placeholders as parameters, when no tag name holds `%s` |
| SqlSearch.FloorDiv | backend/app.py:154 | Python's floor division, for either sign of divisor |
| SqlSearch.PagesIsCeiling | backend/app.py:154 | for a positive page size the page count is the fewest pages that hold every row |
| SqlSearch.DefaultPaging | backend/app.py:85-138 | without `page` and `per_page` the paged query asks for 50 rows from offset 0 |
| SqlSearch.AddClause | backend/app.py:100-101 | the query and parameters grow by exactly one condition |
| SqlSearch.BuildFiltered | backend/app.py:92-129 | the 400 exactly for a non-empty text on an unknown column; otherwise the filtered query and its parameters |
| SqlSearch.AddFlag | backend/app.py:106-120 | a present flag adds its condition; an absent one adds nothing |
| SqlSearch.AddType | backend/app.py:114-116 | a non-empty form type adds its condition; otherwise nothing |
| SqlSearch.AddTags | backend/app.py:122-129 | the loop adds each tag argument's condition and value, in order |
| SqlSearch.Search | backend/app.py:81-164 | a `page` or `per_page` that is not an integer crashes outside the handler; otherwise the answer is the handler's |
| SqlSearch.Handle | backend/app.py:92-164 | the handler's answer: 400 for an unknown column, 500 with the error of a failed count or fetch, 500 for a zero page size, else the rows with total, page count and page |
| SqlSearch.CountIgnoresPaging | backend/app.py:131-138 | the count is taken before paging, so it is the same for every page and page size |
| SqlSearch.FoundPageCount | backend/app.py:152-157 | a found page reports the page asked for and the ceiling page count |
| SqlSearch.LoginFormTypes | backend/app.py:197-200 | each type appears once in the dictionary |
| SqlSearch.LoginFormTypesOfGroups | backend/app.py:189-200 | with one grouped row per type the dictionary is the rows, each type mapping to its count |
| SqlSearch.LoginFormTypeAbsent | backend/app.py:197-200 | a type no row reports is absent |
| SqlSearch.DashboardShowsDistribution | backend/app.py:202-209 | the dashboard shows this body's type distribution as sent and its totals as sent |
| OrmApi.ColumnsDistinct | backend/app/app.py:45-64 | the eighteen column names are pairwise different |
| OrmApi.ToDictKeys | backend/app/app.py:44-64 | every record gives exactly the eighteen columns, in order, each once |
| OrmApi.ToDict | backend/app/app.py:44-64 | the keys of a record's dictionary are the eighteen columns in order; `OrmApi.ToDictKeys` adds that each occurs once and `OrmApi.ToDictValues` what `created_at` and `tags` hold |
| OrmApi.ToDictValues | backend/app/app.py:54-63 | `created_at` is `null` for a record without a creation time, and the tags go out as stored |
| OrmApi.EnrichData | backend/app/app.py:67-111 | both copies of `enrich_data`, the one at backend/app.py:34-79 and this one, which is the same code: a result exactly when the URL parses, its port can be read and the resolver fails at most by `gaierror`; it keeps the URL, the network location and the path, is accessible exactly when an address was found, and has the keys `protocol`, `tld`, `type` in that order |
| OrmApi.EnrichedTags | backend/app/app.py:88-92 | the tags carry the scheme, the top-level label and `unknown` |
| OrmApi.PortDefaults | backend/app/app.py:75-77 | a non-zero port is kept; otherwise `http` gets 80 and every other scheme 443 |
| OrmApi.PortDefaultsAgreeOnWebOnly | backend/app/app.py:75-77 | with no port given, this default and the ingestion script's agree exactly on `http` and `https` |
| OrmApi.TldAfterLastDot | backend/app/app.py:90 | the label is everything after the last `.`, so a port stays in it |
| OrmApi.TldWithoutDot | backend/app/app.py:90 | a network location without `.` is its own label |
| OrmApi.SplitLast | backend/app/app.py:90 | the last piece of a split depends only on the text after the last separator |
| OrmApi.Token | backend/app/app.py:129 | the longest prefix free of white space |
| OrmApi.Words | backend/app/app.py:129 | `split()` gives only non-empty words without white space |
| OrmApi.WordsCons | backend/app/app.py:129 | a word followed by white space or nothing is split off whole |
| OrmApi.WordsOfLine | backend/app/app.py:128-129 | three words joined by single spaces split back into those words |
| OrmApi.LineRecords | backend/app/app.py:127-161 | each line adds at most one record |
| OrmApi.LineRecordsIff | backend/app/app.py:127-151 | a line adds a record exactly when it decodes, splits into exactly three words and its first word enriches; the record carries the other two as credentials and is marked breached |
| OrmApi.WellFormedLine | backend/app/app.py:127-151 | the line `url user password` adds the record of its URL when the URL enriches |
| OrmApi.UploadFile | backend/app/app.py:114-172 | no file gives the 400; otherwise the saved batches are the batches of 1000 of the records of the lines, in file order, and the count reported is the number saved |
| OrmApi.ReadLine | backend/app/app.py:127-161 | the records one line adds, at most one |
| OrmApi.SaveBatch | backend/app/app.py:153-167 | the batch is saved after the others and the count grows by its size |
| OrmApi.FinalBatches | backend/app/app.py:153-167 | the full batches saved in the loop and the last open batch are the batches of everything read |
| OrmApi.RecordsSnoc | backend/app/app.py:126-151 | the records read grow by the records of the next line |
| OrmApi.ChunksAreBatches | backend/app/app.py:153-167 | full batches followed by one last non-empty batch are the batches of their concatenation |
| OrmApi.UploadCounts | backend/app/app.py:153-171 | the saved batches joined are the records, and there are no more records than lines |
| OrmApi.RecordsAtMostLines | backend/app/app.py:126-151 | no more records than lines |
| OrmApi.SearchColumn | backend/app/app.py:197-209 | a column exactly for the five search fields, the field itself |
| OrmApi.Paginate | backend/app/app.py:222 | a page below 1 reads as 1 and a size below 1 as 20; the page holds the rows from the start offset on, at most the page size, short only at the end |
| OrmApi.Window | backend/app/app.py:222 | at most the page size of rows from the start, in order, short only at the end |
| OrmApi.PageCountIsPages | backend/app/app.py:222 | the page count equals the hand-written endpoint's `(total + per_page - 1) // per_page` |
| OrmApi.PaginatePages | backend/app/app.py:222-226 | the page count is the fewest pages that hold every row, and equals the hand-written endpoint's |
| OrmApi.Search | backend/app/app.py:180-233 | the answer: a crash for a non-integer page or size, 400 for an unknown field with a non-empty text, 500 with the error's text for a failing query, else the page of the rows meeting every criterion as dictionaries |
| OrmApi.QueryErrorAnswers500 | backend/app/app.py:222-233 | a query the database refuses is answered with status 500 and the error's text |
| OrmApi.Answer | backend/app/app.py:180-233 | a crash exactly when `page` or `per_page` is not an integer; status 400 exactly for a text query on an unknown field; any other failure is 500; a found page holds at most `per_page` dictionaries (20 for a `per_page` below 1), each with exactly the eighteen columns; `OrmApi.QueryErrorAnswers500` and `OrmApi.DefaultSearchBounded` are its partners |
| OrmApi.DefaultSearchBounded | backend/app/app.py:185-222 | without `page` and `per_page` a found answer is page 1 with at most 50 records |
| OrmApi.SameFieldCheck | backend/app/app.py:197-209 | the two backends accept the same search fields |
| OrmApi.MergeLookup | backend/app/app.py:291-293 | the merged tags take each incoming key's last value and keep every other stored key, and stay free of duplicate keys |
| OrmApi.CurrentTags | backend/app/app.py:291 | `breach.tags or {}` fails exactly for truthy tags that are not an object, and a non-empty dictionary it gives is the stored object itself |
| OrmApi.IntendedTags | backend/app/app.py:291-293 | the merge `update_tags` means to store: an object, free of duplicate keys when the stored tags are |
| OrmApi.IntendedTagsLookup | backend/app/app.py:291-293 | each key of the intended merge has its last incoming value, else its stored one |
| OrmApi.StoredTags | backend/app/app.py:291-295 | what is stored as written: non-empty stored object tags stay as they were, because the same object is assigned back to a column that does not track mutation; any other tags get the intended merge |
| OrmApi.UploadedTagsNotUpdated | backend/app/app.py:291-296 | tags `{protocol, tld, type: "unknown"}` updated with `{type: "critical"}` keep `type` as `"unknown"` as written, while the intended merge has `"critical"` |
| OrmApi.MergeNothing | backend/app/app.py:285-293 | a missing `tags` member merges nothing |
| OrmApi.BreachTable.constructor | backend/app/app.py:22-42 | the table holds the given rows |
| OrmApi.BreachTable.UpdateTags | backend/app/app.py:280-300 | a missing record or a body that is not an object gives 500; tags that are not an object give 400; stored tags that cannot be updated give 500, and so does a failing commit, after its rollback; each leaves the table as it was; otherwise only that record changes, to `OrmApi.StoredTags`, and the answer is that record: non-empty stored object tags are left unchanged, and any other tags become the incoming pairs over an empty object |
| Dict.Set | backend/home.py:262-295 | after `d[k] = v` the key finds the new value and every other key finds what it found before |
| Dict.SetAbsent | backend/home.py:262-295 | assigning a key that is not there appends it last |
| Dict.SetPresent | backend/home.py:262-295 | assigning keeps every key where it was, adding it last when it was absent |
| Dict.SetUniqueKeys | backend/home.py:262-295 | assigning never duplicates a key |
| Dict.UpdateLookupLast | backend/app/app.py:292 | after `update`, a key takes the last incoming value it was given and any other key keeps its old value |
| Dict.UpdateUniqueKeys | backend/app/app.py:292 | `update` never duplicates a key |
| Dict.UpdateFresh | backend/home.py:271-295 | assigning fresh distinct keys in turn appends them in order |

## Left out

- Concurrency: asyncio, `ProcessPoolExecutor`, `process_urls_async`, `validate_urls`, `run_async_check` and `process_single_batch` are left out. The model runs each record's checks one after another, in order.
- The `resolved_domains_cache` DNS memo is left out. A DNS answer is an oracle, so a cached and an uncached lookup agree.
- `urlparse`, `unquote`, DNS resolution, HTTP requests, the clock and the databases are parameters of the operations that use them. Nothing is assumed about what they return, and each lookup, query and commit may also end in an error.
- `process_lines` and the CSV writer are I/O. Only the per-line rules they apply are modelled.
- `parse_line` and `parse_android_line` are not modelled. `parse_line` cannot succeed, because it calls `assign_tags` with too few arguments. `parse_android_line` is commented out.
- The `== -1` checks in `parse_credentials` are not modelled, because `rindex` raises before they are reached. A line with fewer than two colons gives `None` through the exception handler.
- Whitespace and lowercasing are ASCII only. Python's `str.strip`/`split` also treat `\x1c`–`\x1f` and Unicode spaces as whitespace, and `lower()` and `toLowerCase()` fold non-ASCII letters. The model does neither. The letters and decimal digits of `is_valid_url` are Python's Unicode classes, given as tables that agree with ASCII on ASCII characters.
- The JSON post-processing of the `tags` column in the `search` result of `backend/app.py` is left out. The rows are returned as the database oracle gives them.
- OrmApi.BreachTable.UpdateTags: SQLAlchemy's change tracking is reduced to one rule. The `tags` column is a plain `db.JSON`, which does not track mutation, so assigning back the object just updated in place writes nothing, and `to_dict()` after the commit reloads the stored tags. A new `{}` from `or {}` is a new value and is written. The session identity map and any other flush are not modelled.
- Ingest.LoadDataLines: a file that is not valid UTF-8 is modelled as raising as a whole, even where the bad bytes come after the first `max_lines` lines that Python would already have read.
- Database and commit failures in `upload_file` and in the statistics endpoints are left out. The rollback and the 500 answer are not modelled there. They are modelled for `search` and `update_tags` of `backend/app/app.py`.
- OrmApi.Search: the count and the page query that `paginate` runs are one database oracle, so one of them cannot fail while the other succeeds. Either failure gives the same 500 answer.
- `resolve_breach` and the ORM `get_statistics` of `backend/app/app.py` are left out. They are a single update and aggregate queries, with no decision logic.
- ORM pagination is modelled after Flask-SQLAlchemy 3's `paginate`: a page below 1 becomes 1, and a `per_page` below 1 becomes 20. This library's code is not part of this model.
- The database default of `is_resolved` is left out. A record built by `upload_file` leaves it to the column default.
- `created_at` is kept as the text its `isoformat()` produced. Date arithmetic is not modelled.
- lodash's `debounce` and all timers are left out. A search is one synchronous call, and there is no ordering between overlapping requests, because the code has none.
- The chart and visual components are left out: CriticalCharts, TimelineChart, SecurityRadarChart, DistributionCharts, BreachCategories, SummaryCards, SearchTrends, CyberHeader, DynamicBackground and the status indicators. They only present data.
- `JSON.parse` and `json.loads` are a parser parameter that returns a value or a failure.
- Nested JSON arrays are not in the value model. A property value that is a nested object stands for any nested array too, so its text is `[object Object]` where JavaScript would join the items. Among the backends' `tags` values, a nested object stands for every non-string value, so an empty list stored as tags is not distinguished from an empty object. A whole tag document that is an array, a string, a number or a boolean is modelled.
- The member names of the JavaScript prototypes are those of ECMAScript 2023 with its Annex B. An engine with more or fewer members differs only on key-only tag filters naming one of them.
- Filters.UniqueId: the model gives each search panel its own copy of lodash's id counter, while `_.uniqueId` is one counter shared by every caller in the page. Ids stay distinct either way. The next id is `filter_` plus the counter plus one only when nothing else has called `_.uniqueId` in between.
- Flask's `type=bool` coercion is modelled as `Some(v != "")`. That is what `bool(str)` gives, so `"false"` counts as true.
- JavaScript number semantics (floating point, `NaN`, infinities) are modelled only in the page count and in `parseInt`'s `NaN` for a colour channel. Risk scores are mathematical reals, so a `NaN` score, which JavaScript classifies as Low because every comparison with it is false, and an infinite score are not modelled. Everywhere else, numbers are mathematical integers.
- The async thunks of `breachSlice` and `tagSlice` are left out as network calls. Only the reducer cases they trigger are modelled.
- SQL-injection and credential-hygiene concerns are left out. Field and tag names are interpolated into the SQL text, and only the resulting string is modelled.

## Findings

| source | as written | input that shows it | evidently intended | confidence | as-written member | corrected member |
|---|---|---|---|---|---|---|
| backend/app/app.py:291-296 | `update_tags` updates the loaded tags dictionary in place and assigns the same object back to a plain `db.JSON` column, so the commit writes nothing and the reply shows the old tags | a record uploaded with tags `{"protocol": "http", "tld": "com", "type": "unknown"}`, then `PUT /api/tag/<id>` with `{"tags": {"type": "critical"}}` | the merged tags stored and returned | not executed | OrmApi.UploadedTagsNotUpdated | OrmApi.IntendedTagsLookup |
