/** The ingestion script for credential dumps: each line `uri:username:password`
    is split on its last two colons, checked, resolved and probed, tagged, scored
    and written as one breach row; the lines are read from a file and handled in
    fixed-size batches. Host name resolution, HTTP requests, `urlparse` and
    `unquote` are parameters. */
module Ingest {
  import opened Strings
  import opened Dict
  import opened Json

  // ------------------------------------------------------------ credentials

  datatype Credentials = Credentials(uri: string, username: string, password: string)

  /** `s.rindex(c)`: the last position of `c`, `None` where Python raises. */
  function LastIndex(s: string, c: char): (r: Option<nat>)
    ensures r.Some? ==> r.value < |s| && s[r.value] == c && NoChar(s[r.value + 1..], c)
    ensures r.None? ==> NoChar(s, c)
    decreases |s|
  {
    if |s| == 0 then None
    else if s[|s| - 1] == c then Some(|s| - 1)
    else
      var r := LastIndex(s[..|s| - 1], c);
      assert r.Some? ==> s[r.value + 1..] == s[..|s| - 1][r.value + 1..] + [s[|s| - 1]];
      assert forall i :: 0 <= i < |s| - 1 ==> s[i] == s[..|s| - 1][i];
      r
  }

  /** `SCHEME_PATTERN`: one of the five schemes followed by `://`. */
  predicate HasScheme(u: string) {
    StartsWith(u, "http://") || StartsWith(u, "https://") || StartsWith(u, "android://") ||
    StartsWith(u, "mqtt://") || StartsWith(u, "coap://")
  }

  /** `parse_credentials`: the URI before the second-to-last colon, the username
      between the last two, the password after the last, each stripped; a URI
      without a known scheme gets `http://`. `None` where `rindex` raises. */
  function ParseCredentials(line: string): (r: Option<Credentials>)
    ensures r.Some? ==> NoChar(r.value.username, ':') && NoChar(r.value.password, ':')
    ensures r.Some? ==> HasScheme(r.value.uri)
  {
    var last := LastIndex(line, ':');
    if last.None? then None
    else
      var second := LastIndex(line[..last.value], ':');
      if second.None? then None
      else
        FieldsWithoutColon(line, second.value, last.value);
        Some(SplitFields(line, second.value, last.value))
  }

  /** The three stripped fields around the colons at `second` and `last`. */
  function SplitFields(line: string, second: nat, last: nat): Credentials
    requires second < last < |line|
  {
    Credentials(WithScheme(Trim(line[..second])), Trim(line[second + 1..last]), Trim(line[last + 1..]))
  }

  /** An URI without a known scheme gets `http://` in front. */
  function WithScheme(uri: string): (r: string)
    ensures HasScheme(r)
    ensures HasScheme(uri) ==> r == uri
  {
    if HasScheme(uri) then uri
    else
      assert ("http://" + uri)[..7] == "http://";
      "http://" + uri
  }

  predicate TwoColons(line: string) {
    exists i, j :: 0 <= j < i < |line| && line[i] == ':' && line[j] == ':'
  }

  /** A line is split exactly when it holds at least two colons. */
  lemma ParseNeedsTwoColons(line: string)
    ensures ParseCredentials(line).Some? <==> TwoColons(line)
  {
    var last := LastIndex(line, ':');
    if last.Some? {
      var second := LastIndex(line[..last.value], ':');
      if second.Some? {
        assert line[second.value] == line[..last.value][second.value];
        assert TwoColons(line);
      } else {
        OnlyColonAt(line, last.value);
      }
    }
  }

  /** With no colon before or after `k`, position `k` is the only colon. */
  lemma OnlyColonAt(line: string, k: nat)
    requires k < |line| && NoChar(line[..k], ':') && NoChar(line[k + 1..], ':')
    ensures forall i :: 0 <= i < |line| && i != k ==> line[i] != ':'
  {
    forall i | 0 <= i < |line| && i != k ensures line[i] != ':' {
      if i > k {
        assert line[k + 1..][i - k - 1] == line[i];
      } else {
        assert line[..k][i] == line[i];
      }
    }
  }

  lemma FieldsWithoutColon(line: string, second: nat, last: nat)
    requires second < last < |line|
    requires NoChar(line[..last][second + 1..], ':') && NoChar(line[last + 1..], ':')
    ensures NoChar(SplitFields(line, second, last).username, ':')
    ensures NoChar(SplitFields(line, second, last).password, ':')
  {
    assert line[second + 1..last] == line[..last][second + 1..];
    TrimKeepsNoChar(line[second + 1..last], ':');
    TrimKeepsNoChar(line[last + 1..], ':');
  }

  lemma ParsedUriHasScheme(line: string)
    requires ParseCredentials(line).Some?
    ensures HasScheme(ParseCredentials(line).value.uri)
  {
    var last := LastIndex(line, ':').value;
    var second := LastIndex(line[..last], ':').value;
    assert ParseCredentials(line).value == SplitFields(line, second, last);
  }

  lemma SchemeNotEmpty(u: string)
    requires HasScheme(u)
    ensures |u| >= 7
  {
  }

  /** A `c` with none after it is the last one. */
  lemma {:induction false} LastIndexIs(s: string, c: char, k: nat)
    requires k < |s| && s[k] == c && NoChar(s[k + 1..], c)
    ensures LastIndex(s, c) == Some(k)
    decreases |s|
  {
    var n := |s| - 1;
    if k < n {
      assert s[n] == s[k + 1..][n - k - 1];
      var t := s[..n];
      forall i | k + 1 <= i < n ensures t[i] != c {
        assert t[i] == s[k + 1..][i - k - 1];
      }
      assert NoChar(t[k + 1..], c);
      LastIndexIs(t, c, k);
    }
  }

  /** The last position of `c` in `a + [c] + b` when `b` has none. */
  lemma LastIndexAt(a: string, c: char, b: string)
    requires NoChar(b, c)
    ensures LastIndex(a + [c] + b, c) == Some(|a|)
  {
    var s := a + [c] + b;
    assert s[|a| + 1..] == b;
    LastIndexIs(s, c, |a|);
  }

  /** Splitting `u:user:pw` gives the three parts back (with `http://` before a
      URI without a known scheme) when the username and password have no colon
      and no part has white space at its ends. */
  lemma ParseRoundTrip(u: string, user: string, pw: string)
    requires NoChar(user, ':') && NoChar(pw, ':')
    requires NoOuterSpace(u) && NoOuterSpace(user) && NoOuterSpace(pw)
    ensures ParseCredentials(u + ":" + user + ":" + pw) == Some(Credentials(WithScheme(u), user, pw))
  {
    SplitAtColons(u, user, pw);
    FieldsOfLine(u, user, pw);
  }

  lemma SplitAtColons(u: string, user: string, pw: string)
    requires NoChar(user, ':') && NoChar(pw, ':')
    ensures ParseCredentials(u + ":" + user + ":" + pw) ==
              Some(SplitFields(u + ":" + user + ":" + pw, |u|, |u| + 1 + |user|))
  {
    ColonPositions(u, user, pw);
    ParseAt(u + ":" + user + ":" + pw, |u| + 1 + |user|, |u|);
  }

  lemma FieldsOfLine(u: string, user: string, pw: string)
    requires NoOuterSpace(u) && NoOuterSpace(user) && NoOuterSpace(pw)
    ensures SplitFields(u + ":" + user + ":" + pw, |u|, |u| + 1 + |user|) == Credentials(WithScheme(u), user, pw)
  {
    ColonSlices(u, user, pw);
    FieldsOfParts(u + ":" + user + ":" + pw, |u|, |u| + 1 + |user|, u, user, pw);
  }

  /** The three slices of `u:user:pw` around its two separating colons. */
  lemma ColonSlices(u: string, user: string, pw: string)
    ensures var line, last := u + ":" + user + ":" + pw, |u| + 1 + |user|;
      line[..|u|] == u && line[|u| + 1..last] == user && line[last + 1..] == pw
  {
    var a := u + ":" + user;
    var line := a + ":" + pw;
    assert line[..|a|] == a;
    assert line[|a| + 1..] == pw;
    assert line[..|u|] == a[..|u|] == u;
    assert line[|u| + 1..|a|] == a[|u| + 1..] == user;
  }

  lemma FieldsOfParts(line: string, second: nat, last: nat, u: string, user: string, pw: string)
    requires second < last < |line|
    requires line[..second] == u && line[second + 1..last] == user && line[last + 1..] == pw
    requires NoOuterSpace(u) && NoOuterSpace(user) && NoOuterSpace(pw)
    ensures SplitFields(line, second, last) == Credentials(WithScheme(u), user, pw)
  {
    TrimNoOuterSpace(u);
    TrimNoOuterSpace(user);
    TrimNoOuterSpace(pw);
  }

  lemma ParseAt(line: string, last: nat, second: nat)
    requires LastIndex(line, ':') == Some(last) && LastIndex(line[..last], ':') == Some(second)
    ensures second < last < |line|
    ensures ParseCredentials(line) == Some(SplitFields(line, second, last))
  {
  }

  /** Where the two colons of `u:user:pw` are found, and the three slices between them. */
  lemma ColonPositions(u: string, user: string, pw: string)
    requires NoChar(user, ':') && NoChar(pw, ':')
    ensures var line, last := u + ":" + user + ":" + pw, |u| + 1 + |user|;
      LastIndex(line, ':') == Some(last) && LastIndex(line[..last], ':') == Some(|u|) &&
      line[..|u|] == u && line[|u| + 1..last] == user && line[last + 1..] == pw
  {
    var a := u + ":" + user;
    var line := a + ":" + pw;
    assert line == a + [':'] + pw;
    LastIndexAt(a, ':', pw);
    assert line[..|a|] == a;
    assert a == u + [':'] + user;
    LastIndexAt(u, ':', user);
    assert line[..|u|] == a[..|u|] == u;
    assert line[|u| + 1..|a|] == a[|u| + 1..] == user;
    assert line[|a| + 1..] == pw;
  }

  /** With a known scheme the round trip is exact. */
  lemma ParseRoundTripWithScheme(u: string, user: string, pw: string)
    requires HasScheme(u) && NoChar(user, ':') && NoChar(pw, ':')
    requires NoOuterSpace(u) && NoOuterSpace(user) && NoOuterSpace(pw)
    ensures ParseCredentials(u + ":" + user + ":" + pw) == Some(Credentials(u, user, pw))
  {
    ParseRoundTrip(u, user, pw);
  }

  /** The first check of line parsing: the line splits, and neither the username
      nor the password is empty or made of `*` only. (The URI is never empty.) */
  predicate Accepted(line: string) {
    var p := ParseCredentials(line);
    p.Some? && p.value.uri != "" && StripChar(p.value.username, '*') != "" &&
    StripChar(p.value.password, '*') != ""
  }

  /** A split line is refused exactly when its username or password is empty or
      all `*`. */
  lemma AcceptedIff(line: string)
    requires ParseCredentials(line).Some?
    ensures !Accepted(line) <==>
              AllChar(ParseCredentials(line).value.username, '*') ||
              AllChar(ParseCredentials(line).value.password, '*')
  {
    var p := ParseCredentials(line).value;
    assert p.uri != "" by {
      ParsedUriHasScheme(line);
      SchemeNotEmpty(p.uri);
    }
    StripCharEmptyIffAll(p.username, '*');
    StripCharEmptyIffAll(p.password, '*');
  }

  // ------------------------------------------------------------- URL check

  /** `parsed.port`: absent, a number, or a value whose access raises. */
  datatype PortField = NoPort | PortNumber(n: int) | BadPort

  /** What `urlparse` reports of a URI. */
  datatype ParsedUrl = ParsedUrl(scheme: string, netloc: string, hostname: Option<string>,
                                 port: PortField, path: string)

  /** `urlparse`; `None` where it raises. */
  type UrlParser = string -> Option<ParsedUrl>

  /** Python's Unicode character classes: `str.isalpha` and the `\d` of a
      `str` pattern (a decimal digit). The Unicode tables themselves are an
      input; on ASCII characters they are the ASCII letters and digits. */
  datatype CharTables = CharTables(isAlpha: char -> bool, isDecimal: char -> bool)

  predicate IsAsciiLetter(c: char) { 'a' <= c <= 'z' || 'A' <= c <= 'Z' }

  predicate AsciiAgrees(t: CharTables) {
    forall c: char :: c as int < 128 ==> (t.isAlpha(c) <==> IsAsciiLetter(c)) && (t.isDecimal(c) <==> IsDigit(c))
  }

  const AsciiTables: CharTables := CharTables(c => IsAsciiLetter(c), c => IsDigit(c))

  type CharClasses = t: CharTables | AsciiAgrees(t) witness AsciiTables

  /** One to three characters that are all decimal digits. */
  predicate DecimalRun(s: string, chars: CharClasses) {
    1 <= |s| <= 3 && forall i :: 0 <= i < |s| ==> chars.isDecimal(s[i])
  }

  /** Four dot-separated runs of one to three decimal digits. */
  predicate IsDottedQuad(s: string, chars: CharClasses) {
    var groups := Split(s, '.');
    |groups| == 4 && forall i :: 0 <= i < 4 ==> DecimalRun(groups[i], chars)
  }

  /** `IP_ADDRESS_PATTERN.match`: a dotted quad, where `$` also allows one
      final newline. */
  predicate MatchesIpAddressPattern(s: string, chars: CharClasses) {
    IsDottedQuad(s, chars) || (|s| > 0 && s[|s| - 1] == '\n' && IsDottedQuad(s[..|s| - 1], chars))
  }

  /** The host test of `is_valid_url`. */
  predicate HostAcceptable(p: ParsedUrl, chars: CharClasses) {
    var host := OrElse(p.hostname, "");
    p.netloc != "" && NoChar(p.netloc, '<') && NoChar(p.netloc, '>') && NoChar(p.netloc, '"') &&
    (MatchesIpAddressPattern(host, chars) || exists i :: 0 <= i < |host| && chars.isAlpha(host[i]))
  }

  /** `is_valid_url`: a known scheme, at least ten characters, and a parse with
      an acceptable host. */
  function IsValidUrl(uri: string, urlparse: UrlParser, chars: CharClasses): (r: Option<ParsedUrl>)
    ensures r.Some? <==>
              HasScheme(uri) && |uri| >= 10 && urlparse(uri).Some? && HostAcceptable(urlparse(uri).value, chars)
    ensures r.Some? ==> r == urlparse(uri)
  {
    if !HasScheme(uri) || |uri| < 10 then None
    else
      var parsed := urlparse(uri);
      if parsed.Some? && HostAcceptable(parsed.value, chars) then parsed else None
  }

  /** A host with any letter of any script passes the host test, such as a
      Cyrillic name whose letters `isalpha` accepts. */
  lemma LetterHostAccepted(p: ParsedUrl, chars: CharClasses, i: nat)
    requires p.netloc != "" && NoChar(p.netloc, '<') && NoChar(p.netloc, '>') && NoChar(p.netloc, '"')
    requires p.hostname.Some? && i < |p.hostname.value| && chars.isAlpha(p.hostname.value[i])
    ensures HostAcceptable(p, chars)
  {
  }

  /** A host made of digits and dots only passes exactly when it is a dotted
      quad, whatever the digits' script; on ASCII text the digits are `0`-`9`. */
  lemma DigitHostAccepted(p: ParsedUrl, chars: CharClasses)
    requires p.netloc != "" && NoChar(p.netloc, '<') && NoChar(p.netloc, '>') && NoChar(p.netloc, '"')
    requires p.hostname.Some? && IsDottedQuad(p.hostname.value, chars)
    ensures HostAcceptable(p, chars)
  {
  }

  /** A host of ASCII digits and dots with neither a letter nor four groups is
      refused: `1.2.3` is no address and has no letter. */
  lemma ShortQuadRefused(p: ParsedUrl, chars: CharClasses)
    requires p.hostname == Some("1.2.3")
    ensures !HostAcceptable(p, chars)
  {
    var host := "1.2.3";
    assert forall i :: 0 <= i < |host| ==> host[i] as int < 128 && !IsAsciiLetter(host[i]);
    assert host[|host| - 1] != '\n';
    assert host == "1" + ['.'] + ("2" + ['.'] + "3");
    SplitConcat("1", '.', "2" + ['.'] + "3");
    SplitConcat("2", '.', "3");
    SplitNoChar("3", '.');
    assert |Split(host, '.')| == 3;
  }

  // ------------------------------------------------------------- priority

  datatype Priority = Critical | High | Medium | Low

  function PriorityName(p: Priority): string {
    match p
    case Critical => "critical"
    case High => "high"
    case Medium => "medium"
    case Low => "low"
  }

  function PriorityRank(p: Priority): nat {
    match p
    case Low => 0
    case Medium => 1
    case High => 2
    case Critical => 3
  }

  /** The weighted score: resolution 3, accessibility 4, a login form 2, parking -3. */
  function Score(resolved: bool, accessible: bool, parked: bool, login: bool): (s: int)
    ensures -3 <= s <= 9
  {
    (if resolved then 3 else 0) + (if accessible then 4 else 0) + (if login then 2 else 0) -
    (if parked then 3 else 0)
  }

  /** The score bands. */
  function Classify(score: int): (p: Priority)
    ensures p == Critical <==> score >= 7
    ensures p == High <==> 5 <= score < 7
    ensures p == Medium <==> 3 <= score < 5
    ensures p == Low <==> score < 3
  {
    if score >= 7 then Critical
    else if 5 <= score < 7 then High
    else if 3 <= score < 5 then Medium
    else Low
  }

  function PriorityOf(resolved: bool, accessible: bool, parked: bool, login: bool): Priority {
    Classify(Score(resolved, accessible, parked, login))
  }

  /** `calculate_priority`: the score is accumulated flag by flag. */
  method CalculatePriority(resolved: bool, accessible: bool, parked: bool, login: bool)
    returns (p: Priority)
    ensures p == PriorityOf(resolved, accessible, parked, login)
    ensures parked ==> p != Critical
    ensures resolved && accessible && !parked ==> p == Critical
    ensures !resolved && !accessible ==> p == Low
  {
    var score := 0;
    if resolved { score := score + 3; }
    if accessible { score := score + 4; }
    if login { score := score + 2; }
    if parked { score := score - 3; }
    if score >= 7 {
      p := Critical;
    } else if 5 <= score < 7 {
      p := High;
    } else if 3 <= score < 5 {
      p := Medium;
    } else {
      p := Low;
    }
  }

  /** Parking costs more than a login form gives: a parked domain scores at most 6. */
  lemma ParkedNeverCritical(resolved: bool, accessible: bool, login: bool)
    ensures PriorityOf(resolved, accessible, true, login) != Critical
  {
  }

  /** Resolving and answering without being parked reach the top band on their own. */
  lemma LiveUnparkedCritical(login: bool)
    ensures PriorityOf(true, true, false, login) == Critical
  {
  }

  /** Without resolution and access no flag lifts the score to 3. */
  lemma DeadIsLow(parked: bool, login: bool)
    ensures PriorityOf(false, false, parked, login) == Low
  {
  }

  lemma ClassifyMonotone(a: int, b: int)
    requires a <= b
    ensures PriorityRank(Classify(a)) <= PriorityRank(Classify(b))
  {
  }

  /** More of the positive flags and fewer of the parked flag never lower the band. */
  lemma PriorityMonotone(r1: bool, a1: bool, p1: bool, l1: bool, r2: bool, a2: bool, p2: bool, l2: bool)
    requires (r1 ==> r2) && (a1 ==> a2) && (l1 ==> l2) && (p2 ==> p1)
    ensures PriorityRank(PriorityOf(r1, a1, p1, l1)) <= PriorityRank(PriorityOf(r2, a2, p2, l2))
  {
    ClassifyMonotone(Score(r1, a1, p1, l1), Score(r2, a2, p2, l2));
  }

  // ------------------------------------------------------------------ tags

  /** The number of occurrences of `c`, as `s.count(c)` for one character. */
  function Occurrences(s: string, c: char): nat
    decreases |s|
  {
    if |s| == 0 then 0 else (if s[0] == c then 1 else 0) + Occurrences(s[1..], c)
  }

  predicate EndsWith(s: string, suffix: string) {
    |suffix| <= |s| && s[|s| - |suffix|..] == suffix
  }

  /** `ip_address.startswith(("127.", "10.", "192.168.", "172."))`. */
  predicate LocalPrefix(ip: string) {
    StartsWith(ip, "127.") || StartsWith(ip, "10.") || StartsWith(ip, "192.168.") || StartsWith(ip, "172.")
  }

  predicate Truthy(ip: Option<string>) { ip.Some? && ip.value != "" }

  predicate Bracketed(ip: string) { StartsWith(ip, "[") && EndsWith(ip, "]") }

  /** The address tags written for a truthy address: its type when it has three
      dots or is bracketed, then its scope. */
  function IpTags(ip: Option<string>): Entries<Value> {
    if !Truthy(ip) then []
    else
      (if Occurrences(ip.value, '.') == 3 then [("ip_type", Str("ipv4"))]
       else if Bracketed(ip.value) then [("ip_type", Str("ipv6"))]
       else []) +
      [("scope", Str(if LocalPrefix(ip.value) then "local" else "public"))]
  }

  function EnvName(resolved: bool, accessible: bool, parked: bool): string {
    if parked then "staging" else if resolved && accessible then "production" else "dev"
  }

  /** The six tags written for every line, in insertion order. */
  function BaseTags(scheme: string, resolved: bool, accessible: bool, parked: bool, login: bool): Entries<Value> {
    [("protocol", Str(scheme)), ("resolution_status", Str(if resolved then "resolved" else "unresolved")),
     ("status", Str(if accessible then "active" else "inactive")),
     ("env", Str(EnvName(resolved, accessible, parked))),
     ("priority", Str(PriorityName(PriorityOf(resolved, accessible, parked, login)))),
     ("android_traffic", Bool(scheme == "android"))]
  }

  /** The keys written for the address, in insertion order. */
  function IpTagKeys(ip: Option<string>): seq<string> {
    if !Truthy(ip) then []
    else (if Occurrences(ip.value, '.') == 3 || Bracketed(ip.value) then ["ip_type"] else []) + ["scope"]
  }

  const BaseTagKeys: seq<string> :=
    ["protocol", "resolution_status", "status", "env", "priority", "android_traffic"]

  lemma IpTagsShape(ip: Option<string>)
    ensures KeyList(IpTags(ip)) == IpTagKeys(ip)
    ensures UniqueKeys(IpTags(ip))
  {
  }

  /** No base key and no breach mark is among the address tags. */
  lemma IpTagsFresh(ip: Option<string>)
    ensures forall k :: k in BaseTagKeys || k == "breach_status" ==> Lookup(IpTags(ip), k).None?
  {
    IpTagsShape(ip);
  }

  /** The address tags answer the address lookups. */
  lemma IpTagLookups(ip: Option<string>)
    ensures Lookup(IpTags(ip), "ip_type") == Some(Str("ipv4")) <==> Truthy(ip) && Occurrences(ip.value, '.') == 3
    ensures Lookup(IpTags(ip), "ip_type") == Some(Str("ipv6")) <==>
              Truthy(ip) && Occurrences(ip.value, '.') != 3 && Bracketed(ip.value)
    ensures Lookup(IpTags(ip), "scope") == Some(Str("local")) <==> Truthy(ip) && LocalPrefix(ip.value)
    ensures Lookup(IpTags(ip), "scope") == Some(Str("public")) <==> Truthy(ip) && !LocalPrefix(ip.value)
  {
    IpTagsShape(ip);
    var t := IpTags(ip);
    if |t| == 2 {
      LookupEntry(t, 0);
      LookupEntry(t, 1);
    } else if |t| == 1 {
      LookupEntry(t, 0);
    }
  }

  lemma BaseTagsShape(scheme: string, resolved: bool, accessible: bool, parked: bool, login: bool)
    ensures KeyList(BaseTags(scheme, resolved, accessible, parked, login)) == BaseTagKeys
    ensures UniqueKeys(BaseTags(scheme, resolved, accessible, parked, login))
  {
  }

  /** The protocol, resolution and status tags. */
  lemma BaseTagLookupsFirst(scheme: string, resolved: bool, accessible: bool, parked: bool, login: bool)
    ensures var b := BaseTags(scheme, resolved, accessible, parked, login);
      Lookup(b, "protocol") == Some(Str(scheme)) &&
      Lookup(b, "resolution_status") == Some(Str(if resolved then "resolved" else "unresolved")) &&
      Lookup(b, "status") == Some(Str(if accessible then "active" else "inactive"))
  {
    var b := BaseTags(scheme, resolved, accessible, parked, login);
    BaseTagsShape(scheme, resolved, accessible, parked, login);
    LookupEntry(b, 0);
    LookupEntry(b, 1);
    LookupEntry(b, 2);
  }

  /** The environment, priority and Android tags, and no breach mark. */
  lemma BaseTagLookupsLast(scheme: string, resolved: bool, accessible: bool, parked: bool, login: bool)
    ensures var b := BaseTags(scheme, resolved, accessible, parked, login);
      Lookup(b, "env") == Some(Str(EnvName(resolved, accessible, parked))) &&
      Lookup(b, "priority") == Some(Str(PriorityName(PriorityOf(resolved, accessible, parked, login)))) &&
      Lookup(b, "android_traffic") == Some(Bool(scheme == "android")) &&
      Lookup(b, "breach_status").None?
  {
    var b := BaseTags(scheme, resolved, accessible, parked, login);
    BaseTagsShape(scheme, resolved, accessible, parked, login);
    LookupEntry(b, 3);
    LookupEntry(b, 4);
    LookupEntry(b, 5);
    assert "breach_status" !in BaseTagKeys;
  }

  /** The environment is staging exactly for a parked domain, production exactly
      for a live one that is not parked. */
  lemma EnvCases(resolved: bool, accessible: bool, parked: bool)
    ensures EnvName(resolved, accessible, parked) == "staging" <==> parked
    ensures EnvName(resolved, accessible, parked) == "production" <==> !parked && resolved && accessible
    ensures EnvName(resolved, accessible, parked) == "dev" <==> !parked && !(resolved && accessible)
  {
  }

  /** The address tags followed by the six base tags form a dictionary with the
      keys in that order. */
  lemma TagsShape(ip: Option<string>, scheme: string, resolved: bool, accessible: bool, parked: bool, login: bool)
    ensures var a, b := IpTags(ip), BaseTags(scheme, resolved, accessible, parked, login);
      Update(a, b) == a + b && UniqueKeys(a + b) && KeyList(a + b) == IpTagKeys(ip) + BaseTagKeys
  {
    var a, b := IpTags(ip), BaseTags(scheme, resolved, accessible, parked, login);
    IpTagsShape(ip);
    IpTagsFresh(ip);
    BaseTagsShape(scheme, resolved, accessible, parked, login);
    assert forall i :: 0 <= i < |b| ==> b[i].0 in BaseTagKeys;
    UpdateFresh(a, b);
    ConcatUniqueKeys(a, b);
    KeyListConcat(a, b);
  }

  lemma BaseTagsOf(scheme: string, resolved: bool, accessible: bool, parked: bool, login: bool,
                   resolution: string, status: string, env: string, priority: Priority)
    requires resolution == (if resolved then "resolved" else "unresolved")
    requires status == (if accessible then "active" else "inactive")
    requires env == EnvName(resolved, accessible, parked)
    requires priority == PriorityOf(resolved, accessible, parked, login)
    ensures [("protocol", Str(scheme)), ("resolution_status", Str(resolution)), ("status", Str(status)),
             ("env", Str(env)), ("priority", Str(PriorityName(priority))), ("android_traffic", Bool(scheme == "android"))]
            == BaseTags(scheme, resolved, accessible, parked, login)
  {
  }

  /** The first block of `assign_tags`: on an empty dictionary, the address type
      when it has three dots or is bracketed, then its scope. */
  method AddressTags(ip: Option<string>) returns (tags: Entries<Value>)
    ensures tags == IpTags(ip)
  {
    tags := [];
    if ip.Some? && ip.value != "" {
      if Occurrences(ip.value, '.') == 3 {
        tags := Set(tags, "ip_type", Str("ipv4"));
      } else if StartsWith(ip.value, "[") && EndsWith(ip.value, "]") {
        tags := Set(tags, "ip_type", Str("ipv6"));
      }
      var scope := if LocalPrefix(ip.value) then "local" else "public";
      SetNew(tags, "scope", Str(scope));
      tags := Set(tags, "scope", Str(scope));
    }
  }

  /** `assign_tags`: the address type and scope for a non-empty address, then the
      protocol, resolution, status, environment, priority and Android flag, each
      on a key not yet present, so each goes last. */
  method AssignTags(domain: string, ip: Option<string>, scheme: string, resolved: bool,
                    accessible: bool, parked: bool, login: bool)
    returns (tags: Entries<Value>)
    ensures tags == IpTags(ip) + BaseTags(scheme, resolved, accessible, parked, login)
    ensures UniqueKeys(tags)
    ensures KeyList(tags) == IpTagKeys(ip) + BaseTagKeys
  {
    tags := AddressTags(ip);
    ghost var ipTags := tags;
    tags := Set(tags, "protocol", Str(scheme));
    var resolution := if resolved then "resolved" else "unresolved";
    tags := Set(tags, "resolution_status", Str(resolution));
    var status := if accessible then "active" else "inactive";
    tags := Set(tags, "status", Str(status));
    var env;
    if parked {
      env := "staging";
    } else if resolved && accessible {
      env := "production";
    } else {
      env := "dev";
    }
    tags := Set(tags, "env", Str(env));
    var priority := CalculatePriority(resolved, accessible, parked, login);
    tags := Set(tags, "priority", Str(PriorityName(priority)));
    tags := Set(tags, "android_traffic", Bool(scheme == "android"));
    UpdateSix(ipTags, ("protocol", Str(scheme)), ("resolution_status", Str(resolution)),
              ("status", Str(status)), ("env", Str(env)), ("priority", Str(PriorityName(priority))),
              ("android_traffic", Bool(scheme == "android")));
    BaseTagsOf(scheme, resolved, accessible, parked, login, resolution, status, env, priority);
    TagsShape(ip, scheme, resolved, accessible, parked, login);
  }

  /** What a lookup of each tag written by `assign_tags` finds. */
  lemma AssignedTagLookups(ip: Option<string>, scheme: string, resolved: bool, accessible: bool,
                           parked: bool, login: bool)
    ensures var tags := IpTags(ip) + BaseTags(scheme, resolved, accessible, parked, login);
      (Lookup(tags, "ip_type") == Some(Str("ipv4")) <==> Truthy(ip) && Occurrences(ip.value, '.') == 3) &&
      (Lookup(tags, "ip_type") == Some(Str("ipv6")) <==>
         Truthy(ip) && Occurrences(ip.value, '.') != 3 && Bracketed(ip.value)) &&
      (Lookup(tags, "scope") == Some(Str("local")) <==> Truthy(ip) && LocalPrefix(ip.value)) &&
      (Lookup(tags, "scope") == Some(Str("public")) <==> Truthy(ip) && !LocalPrefix(ip.value))
  {
    var a, b := IpTags(ip), BaseTags(scheme, resolved, accessible, parked, login);
    IpTagLookups(ip);
    LookupConcat(a, b, "ip_type");
    LookupConcat(a, b, "scope");
    BaseTagsShape(scheme, resolved, accessible, parked, login);
    assert "ip_type" !in KeyList(b) && "scope" !in KeyList(b);
  }

  /** Every base tag is found in the full dictionary with its value, and there is
      no breach mark. */
  lemma AssignedBaseLookups(ip: Option<string>, scheme: string, resolved: bool, accessible: bool,
                            parked: bool, login: bool)
    ensures var tags := IpTags(ip) + BaseTags(scheme, resolved, accessible, parked, login);
      Lookup(tags, "protocol") == Some(Str(scheme)) &&
      Lookup(tags, "resolution_status") == Some(Str(if resolved then "resolved" else "unresolved")) &&
      Lookup(tags, "status") == Some(Str(if accessible then "active" else "inactive")) &&
      Lookup(tags, "env") == Some(Str(EnvName(resolved, accessible, parked))) &&
      Lookup(tags, "priority") == Some(Str(PriorityName(PriorityOf(resolved, accessible, parked, login)))) &&
      Lookup(tags, "android_traffic") == Some(Bool(scheme == "android")) &&
      Lookup(tags, "breach_status").None?
  {
    var a, b := IpTags(ip), BaseTags(scheme, resolved, accessible, parked, login);
    IpTagsFresh(ip);
    BaseTagLookupsFirst(scheme, resolved, accessible, parked, login);
    BaseTagLookupsLast(scheme, resolved, accessible, parked, login);
    LookupConcat(a, b, "protocol");
    LookupConcat(a, b, "resolution_status");
    LookupConcat(a, b, "status");
    LookupConcat(a, b, "env");
    LookupConcat(a, b, "priority");
    LookupConcat(a, b, "android_traffic");
    LookupConcat(a, b, "breach_status");
  }

  /** Every `172.` address counts as local, not only the private 172.16.0.0/12 block. */
  lemma AnyOneSevenTwoIsLocal(rest: string)
    ensures LocalPrefix("172." + rest)
  {
    assert ("172." + rest)[..4] == "172.";
  }

  // -------------------------------------------------------------- detection

  /** The pattern table is `(pattern, application)` pairs in file order. */
  predicate PatternHits(pattern: string, uri: string, path: string) {
    Contains(ToLower(uri), pattern) || Contains(ToLower(path), pattern)
  }

  /** The application of the first pattern that occurs in the lower-cased URI
      or path, and none when no pattern does. */
  predicate FirstPatternApp(patterns: Entries<string>, uri: string, path: string, app: Option<string>) {
    (app.None? <==> forall k :: 0 <= k < |patterns| ==> !PatternHits(patterns[k].0, uri, path)) &&
    (app.Some? ==>
       exists k :: 0 <= k < |patterns| && PatternHits(patterns[k].0, uri, path) &&
         app.value == patterns[k].1 &&
         forall j :: 0 <= j < k ==> !PatternHits(patterns[j].0, uri, path))
  }

  /** `detect_application_from_url`. */
  method DetectApplicationFromUrl(patterns: Entries<string>, uri: string, path: string)
    returns (app: Option<string>)
    ensures FirstPatternApp(patterns, uri, path, app)
  {
    var i := 0;
    while i < |patterns|
      invariant 0 <= i <= |patterns|
      invariant forall j :: 0 <= j < i ==> !PatternHits(patterns[j].0, uri, path)
    {
      if PatternHits(patterns[i].0, uri, path) {
        return Some(patterns[i].1);
      }
      i := i + 1;
    }
    return None;
  }

  /** A pattern with an upper-case letter never occurs in lower-cased text. */
  lemma UpperPatternNeverHits(pattern: string, uri: string, path: string)
    requires HasUpper(pattern)
    ensures !PatternHits(pattern, uri, path)
  {
    ToLowerHasNoUpper(uri);
    ToLowerHasNoUpper(path);
    if Contains(ToLower(uri), pattern) { ContainsNoUpper(ToLower(uri), pattern); }
    if Contains(ToLower(path), pattern) { ContainsNoUpper(ToLower(path), pattern); }
  }

  /** A `requests` response. */
  datatype Response = Response(status: int, text: string)

  /** A response is truthy exactly when `raise_for_status` would not raise,
      which it does only for a client error (400 to 499) or a server error
      (500 to 599); a status of 600 or more is truthy. */
  predicate Answered(r: Option<Response>) { r.Some? && !(400 <= r.value.status < 600) }

  predicate AnyIn(text: string, keywords: seq<string>) {
    exists k :: 0 <= k < |keywords| && Contains(text, keywords[k])
  }

  const TitlePatterns: seq<(string, seq<string>)> := [
    ("WordPress", ["wordpress"]), ("Joomla", ["joomla"]), ("Drupal", ["drupal"]),
    ("phpMyAdmin", ["phpmyadmin"]), ("Zimbra", ["zimbra"]), ("Atlassian Jira", ["jira"]),
    ("Magento", ["magento"])]

  const MetaPrefix: string := "generator\" content=\""

  const MetaPatterns: seq<(string, seq<string>)> := [
    ("WordPress", [MetaPrefix + "wordpress"]), ("Joomla", [MetaPrefix + "joomla"]),
    ("Drupal", [MetaPrefix + "drupal"])]

  /** Each generator keyword contains the title keyword of the same position. */
  lemma MetaNeedsTitle(text: string, i: nat)
    requires i < |MetaPatterns|
    ensures AnyIn(text, MetaPatterns[i].1) ==> AnyIn(text, TitlePatterns[i].1)
  {
    var kw := TitlePatterns[i].1[0];
    assert MetaPatterns[i].1 == [MetaPrefix + kw];
    if AnyIn(text, MetaPatterns[i].1) {
      ContainsSuffix(MetaPrefix, kw);
      ContainsTransitive(text, MetaPrefix + kw, kw);
      assert Contains(text, TitlePatterns[i].1[0]);
    }
  }

  /** `detect_application_from_response`: the first title pattern whose keyword
      occurs in the lower-cased body of a truthy response. The generator
      patterns are tried afterwards but can never match then. */
  method DetectApplicationFromResponse(response: Option<Response>) returns (app: Option<string>)
    ensures app.Some? <==>
              (Answered(response) &&
                 exists k :: 0 <= k < |TitlePatterns| && AnyIn(ToLower(response.value.text), TitlePatterns[k].1))
    ensures app.Some? ==>
              (exists k :: 0 <= k < |TitlePatterns| &&
                 AnyIn(ToLower(response.value.text), TitlePatterns[k].1) && app.value == TitlePatterns[k].0 &&
                 (forall j :: 0 <= j < k ==> !AnyIn(ToLower(response.value.text), TitlePatterns[j].1)))
  {
    if Answered(response) {
      var text := ToLower(response.value.text);
      var i := 0;
      while i < |TitlePatterns|
        invariant 0 <= i <= |TitlePatterns|
        invariant forall j :: 0 <= j < i ==> !AnyIn(text, TitlePatterns[j].1)
      {
        if AnyIn(text, TitlePatterns[i].1) {
          return Some(TitlePatterns[i].0);
        }
        i := i + 1;
      }
      i := 0;
      while i < |MetaPatterns|
        invariant 0 <= i <= |MetaPatterns|
      {
        // The source returns the generator's application here; as every
        // generator keyword holds a title keyword already tested, it cannot.
        if AnyIn(text, MetaPatterns[i].1) {
          MetaNeedsTitle(text, i);
          assert false;
        }
        i := i + 1;
      }
    }
    return None;
  }

  const LoginKeywords: seq<string> := ["password", "login", "username", "email"]
  const CaptchaKeywords: seq<string> := ["captcha"]
  const OtpKeywords: seq<string> := ["otp", "one-time password"]

  /** `check_login_form`: whether the lower-cased body mentions a login keyword,
      and the form type, captcha before one-time password before basic. */
  function CheckLoginForm(response: Option<Response>): (r: (bool, Option<string>))
    ensures r.1.Some? <==> r.0
    ensures r.0 <==> Answered(response) && AnyIn(ToLower(response.value.text), LoginKeywords)
    ensures r.1 == Some("captcha") <==> r.0 && AnyIn(ToLower(response.value.text), CaptchaKeywords)
    ensures r.1 == Some("otp") <==>
              r.0 && !AnyIn(ToLower(response.value.text), CaptchaKeywords) &&
              AnyIn(ToLower(response.value.text), OtpKeywords)
    ensures r.1 == Some("basic") <==>
              r.0 && !AnyIn(ToLower(response.value.text), CaptchaKeywords) &&
              !AnyIn(ToLower(response.value.text), OtpKeywords)
  {
    if !Answered(response) then (false, None)
    else
      var text := ToLower(response.value.text);
      if !AnyIn(text, LoginKeywords) then (false, None)
      else if AnyIn(text, CaptchaKeywords) then (true, Some("captcha"))
      else if AnyIn(text, OtpKeywords) then (true, Some("otp"))
      else (true, Some("basic"))
  }

  /** A status beyond the HTTP error ranges, such as 999, is truthy, so its
      body is still read. */
  lemma UnusualStatusIsRead(text: string)
    requires Contains(ToLower(text), "password")
    ensures CheckLoginForm(Some(Response(999, text))).0
    ensures !CheckLoginForm(Some(Response(503, text))).0
  {
    assert Contains(ToLower(text), LoginKeywords[0]);
  }

  /** The spelled-out one-time password phrase counts as a login form. */
  lemma OtpPhraseIsLoginForm(response: Option<Response>)
    requires Answered(response) && Contains(ToLower(response.value.text), "one-time password")
    ensures CheckLoginForm(response) == (true, Some(if AnyIn(ToLower(response.value.text), CaptchaKeywords)
                                                    then "captcha" else "otp"))
  {
    var text := ToLower(response.value.text);
    ContainsSuffix("one-time ", "password");
    assert "one-time " + "password" == "one-time password";
    ContainsTransitive(text, "one-time password", "password");
    assert Contains(text, LoginKeywords[0]);
    assert Contains(text, OtpKeywords[1]);
  }

  // ------------------------------------------------------------ line parsing

  /** An HTTP answer to the probe; `content` is `None` when reading the body raised. */
  datatype HttpAnswer = HttpAnswer(status: int, content: Option<string>)

  /** What the probe of an `http` or `https` URI finds. */
  datatype PageFlags = PageFlags(accessible: bool, parked: bool, hasLoginForm: bool,
                                 loginFormType: Option<string>, title: Option<string>)

  const NoPage: PageFlags := PageFlags(false, false, false, None, None)

  /** The first position at or after `from` where `sub` occurs. */
  function FindFrom(s: string, sub: string, from: nat): (r: Option<nat>)
    ensures r.Some? ==> from <= r.value && OccursAt(s, sub, r.value)
    decreases |s| - from
  {
    if from + |sub| > |s| then None
    else if s[from..from + |sub|] == sub then Some(from)
    else FindFrom(s, sub, from + 1)
  }

  /** `re.search(r"<title>(.*?)</title>", content, re.IGNORECASE | re.DOTALL)`,
      stripped: the text from the first `<title>` to the first `</title>` after it. */
  function TitleOf(content: string): Option<string> {
    var lower := ToLower(content);
    var open := FindFrom(lower, "<title>", 0);
    if open.None? then None
    else
      var close := FindFrom(lower, "</title>", open.value + 7);
      if close.None? then None else Some(Trim(content[open.value + 7..close.value]))
  }

  /** The probe of an `http`/`https` URI: accessible on status 200; then the title,
      a login form when the body holds `password` or `login` (case-sensitive),
      its type, and parking by two lower-cased phrases. */
  function ProbePage(scheme: string, answer: Option<HttpAnswer>): (f: PageFlags)
    ensures f.accessible <==> (scheme == "http" || scheme == "https") && answer.Some? && answer.value.status == 200
    ensures f.hasLoginForm <==> f.loginFormType.Some?
    ensures f.hasLoginForm || f.parked || f.title.Some? ==> f.accessible && answer.value.content.Some?
    ensures f.hasLoginForm <==>
              (f.accessible && answer.value.content.Some? &&
                 (Contains(answer.value.content.value, "password") || Contains(answer.value.content.value, "login")))
    ensures f.accessible && answer.value.content.Some? ==>
              var c := answer.value.content.value;
              f.title == TitleOf(c) &&
              (f.parked <==> Contains(ToLower(c), "domain is parked") || Contains(ToLower(c), "buy this domain")) &&
              (f.loginFormType == Some("captcha") <==> f.hasLoginForm && Contains(c, "captcha")) &&
              (f.loginFormType == Some("otp") <==> f.hasLoginForm && !Contains(c, "captcha") && Contains(c, "otp")) &&
              (f.loginFormType == Some("basic") <==> f.hasLoginForm && !Contains(c, "captcha") && !Contains(c, "otp"))
  {
    if scheme != "http" && scheme != "https" then NoPage
    else if answer.None? || answer.value.status != 200 then NoPage
    else if answer.value.content.None? then NoPage.(accessible := true)
    else
      var c := answer.value.content.value;
      var login := Contains(c, "password") || Contains(c, "login");
      var kind := if Contains(c, "captcha") then "captcha" else if Contains(c, "otp") then "otp" else "basic";
      var lower := ToLower(c);
      PageFlags(true, Contains(lower, "domain is parked") || Contains(lower, "buy this domain"),
                login, if login then Some(kind) else None, TitleOf(c))
  }

  /** How one `socket.gethostbyname(host)` call ends: an address, `gaierror`
      or `timeout` (the two errors `resolve_ip_address` and
      `check_domain_resolution` catch), or any other exception, such as the
      `UnicodeError` of the `idna` encoding for an empty label or a label of 64
      or more characters, which neither catches. */
  datatype HostLookup = HostAddress(ip: string) | HostUnknown | HostRaises

  /** `resolve_ip_address` on a lookup that did not raise. */
  function AddressOf(l: HostLookup): (ip: Option<string>)
    ensures ip.Some? <==> l.HostAddress?
    ensures ip.Some? ==> ip.value == l.ip
  {
    if l.HostAddress? then Some(l.ip) else None
  }

  /** The outside world of one line: `urlparse`, the character classes, the
      address lookup (made without a timeout), the resolution check (made with
      a timeout of 0.2 seconds, so it can end otherwise than the first lookup
      of the same name), the HTTP probe and `unquote`. */
  datatype Network = Network(urlparse: UrlParser, chars: CharClasses,
                             resolveIp: string -> HostLookup, resolves: string -> HostLookup,
                             fetch: string -> Option<HttpAnswer>, unquote: string -> string)

  /** The host `resolve_ip_address` looks up, before unquoting. */
  function HostOf(p: ParsedUrl): string { OrElse(p.hostname, "") }

  /** One of the two lookups of a line raises an exception neither catches,
      so the handler at the end of `parse_standard_line_async` drops the line. */
  predicate LookupRaises(p: ParsedUrl, net: Network) {
    net.resolveIp(HostOf(p)).HostRaises? || net.resolves(net.unquote(HostOf(p))).HostRaises?
  }

  /** A parsed line, as written to the database. */
  datatype BreachRow = BreachRow(
    uri: string, username: string, password: string, domain: string, ip_address: Option<string>,
    port: int, path: string, tags: Entries<Value>, title: Option<string>, is_resolved: bool,
    is_accessible: bool, has_login_form: bool, login_form_type: Option<string>,
    web_application: Option<string>, is_parked: bool)

  /** `check_breach_and_ransom`. */
  function CheckBreachAndRansom(domain: string, breached: set<string>): (b: bool)
    ensures b <==> domain in breached
  {
    domain in breached
  }

  /** The `is_breached` column written for a row: its tags record a breach. */
  predicate IsBreachedColumn(row: BreachRow) {
    Lookup(row.tags, "breach_status") == Some(Str("breached"))
  }

  /** `parsed.port or (443 if scheme == "https" else 80)`, for a port that can be read. */
  function PortOf(p: ParsedUrl): int
    requires p.port != BadPort
  {
    if p.port.PortNumber? && p.port.n != 0 then p.port.n else if p.scheme == "https" then 443 else 80
  }

  /** The tags of a row: those of `assign_tags`, plus the breach mark for a
      domain in the breached set. */
  method RowTags(domain: string, ip: Option<string>, scheme: string, resolved: bool, accessible: bool,
                 parked: bool, login: bool, breached: set<string>)
    returns (tags: Entries<Value>)
    ensures tags == IpTags(ip) + BaseTags(scheme, resolved, accessible, parked, login) +
                    (if domain in breached then [("breach_status", Str("breached"))] else [])
    ensures Lookup(tags, "breach_status") == Some(Str("breached")) <==> domain in breached
    ensures Lookup(tags, "priority") == Some(Str(PriorityName(PriorityOf(resolved, accessible, parked, login))))
  {
    tags := AssignTags(domain, ip, scheme, resolved, accessible, parked, login);
    AssignedBaseLookups(ip, scheme, resolved, accessible, parked, login);
    tags := MarkBreached(tags, domain in breached);
  }

  /** `tags["breach_status"] = "breached"` for a breached domain, on tags that
      have no breach status yet; every other lookup is unchanged. */
  method MarkBreached(tags: Entries<Value>, breached: bool) returns (r: Entries<Value>)
    requires Lookup(tags, "breach_status").None?
    ensures r == tags + (if breached then [("breach_status", Str("breached"))] else [])
    ensures Lookup(r, "breach_status") == Some(Str("breached")) <==> breached
    ensures forall k :: k != "breach_status" ==> Lookup(r, k) == Lookup(tags, k)
  {
    r := tags;
    if breached {
      SetNew(tags, "breach_status", Str("breached"));
      r := Set(tags, "breach_status", Str("breached"));
    }
  }

  /** The row `parse_standard_line_async` builds for credentials `c` whose URI
      parsed as `p`: the unquoted host and path, the address, the port with
      its default, the resolution, the application of the first URL pattern
      hit, the probe's flags and title, and the tags of `assign_tags` with the
      breach mark. */
  predicate RowFor(row: BreachRow, c: Credentials, p: ParsedUrl, breached: set<string>,
                   patterns: Entries<string>, net: Network)
    requires p.port != BadPort
  {
    var host := HostOf(p);
    var page := ProbePage(p.scheme, net.fetch(c.uri));
    row.uri == c.uri && row.username == c.username && row.password == c.password &&
    row.domain == net.unquote(host) && row.ip_address == AddressOf(net.resolveIp(host)) &&
    row.port == PortOf(p) && row.path == net.unquote(p.path) &&
    row.is_resolved == net.resolves(row.domain).HostAddress? &&
    FirstPatternApp(patterns, c.uri, row.path, row.web_application) &&
    row.is_accessible == page.accessible && row.is_parked == page.parked &&
    row.has_login_form == page.hasLoginForm && row.login_form_type == page.loginFormType &&
    row.title == page.title &&
    row.tags == IpTags(row.ip_address) +
                BaseTags(p.scheme, row.is_resolved, row.is_accessible, row.is_parked, row.has_login_form) +
                (if row.domain in breached then [("breach_status", Str("breached"))] else [])
  }

  /** `parse_standard_line_async`: a refused line, an invalid URI, a port that
      cannot be read and a lookup that raises each give `None`. */
  method ParseStandardLine(line: string, breached: set<string>, patterns: Entries<string>, net: Network)
    returns (row: Option<BreachRow>)
    ensures row.Some? <==>
              Accepted(line) && IsValidUrl(ParseCredentials(line).value.uri, net.urlparse, net.chars).Some? &&
              IsValidUrl(ParseCredentials(line).value.uri, net.urlparse, net.chars).value.port != BadPort &&
              !LookupRaises(IsValidUrl(ParseCredentials(line).value.uri, net.urlparse, net.chars).value, net)
    ensures row.Some? ==>
              RowFor(row.value, ParseCredentials(line).value,
                     IsValidUrl(ParseCredentials(line).value.uri, net.urlparse, net.chars).value, breached, patterns, net)
    ensures row.Some? ==> IsBreachedColumn(row.value) == CheckBreachAndRansom(row.value.domain, breached)
    ensures row.Some? ==> (row.value.has_login_form <==> row.value.login_form_type.Some?)
    ensures row.Some? ==> Lookup(row.value.tags, "priority") ==
                            Some(Str(PriorityName(PriorityOf(row.value.is_resolved, row.value.is_accessible,
                                                             row.value.is_parked, row.value.has_login_form))))
  {
    var creds := ParseCredentials(line);
    if creds.None? {
      return None;
    }
    var c := creds.value;
    if c.uri == "" || StripChar(c.username, '*') == "" || StripChar(c.password, '*') == "" {
      return None;
    }
    var parsed := IsValidUrl(c.uri, net.urlparse, net.chars);
    if parsed.None? {
      return None;
    }
    var p := parsed.value;
    if p.port == BadPort {
      return None;
    }
    row := BuildRow(c, p, breached, patterns, net);
  }

  /** The rest of `parse_standard_line_async` once the URI is valid and its
      port can be read: resolution, application detection, the probe, the tags
      and the row. A lookup that raises drops the line. */
  method BuildRow(c: Credentials, p: ParsedUrl, breached: set<string>, patterns: Entries<string>, net: Network)
    returns (result: Option<BreachRow>)
    requires p.port != BadPort
    ensures result.None? <==> LookupRaises(p, net)
    ensures result.Some? ==> RowFor(result.value, c, p, breached, patterns, net)
    ensures result.Some? ==> IsBreachedColumn(result.value) == CheckBreachAndRansom(result.value.domain, breached)
    ensures result.Some? ==> (result.value.has_login_form <==> result.value.login_form_type.Some?)
    ensures result.Some? ==>
              Lookup(result.value.tags, "priority") ==
              Some(Str(PriorityName(PriorityOf(result.value.is_resolved, result.value.is_accessible,
                                               result.value.is_parked, result.value.has_login_form))))
  {
    var host := HostOf(p);
    var lookup := net.resolveIp(host);
    if lookup.HostRaises? {
      return None;
    }
    var ip := AddressOf(lookup);
    var port := PortOf(p);
    var domain := net.unquote(host);
    var path := net.unquote(p.path);
    var check := net.resolves(domain);
    if check.HostRaises? {
      return None;
    }
    var resolved := check.HostAddress?;
    var app := DetectApplicationFromUrl(patterns, c.uri, path);
    var page := if p.scheme == "http" || p.scheme == "https" then ProbePage(p.scheme, net.fetch(c.uri)) else NoPage;
    assert page == ProbePage(p.scheme, net.fetch(c.uri));
    var tags := RowTags(domain, ip, p.scheme, resolved, page.accessible, page.parked, page.hasLoginForm, breached);
    var row := BreachRow(c.uri, c.username, c.password, domain, ip, port, path, tags, page.title,
                         resolved, page.accessible, page.hasLoginForm, page.loginFormType, app, page.parked);
    result := Some(row);
  }

  /** The tags of a written row: the protocol, the reachability, the
      environment, the Android flag, and the breach mark exactly for a domain
      in the breached set. */
  lemma RowTagLookups(row: BreachRow, c: Credentials, p: ParsedUrl, breached: set<string>,
                      patterns: Entries<string>, net: Network)
    requires p.port != BadPort && RowFor(row, c, p, breached, patterns, net)
    ensures Lookup(row.tags, "protocol") == Some(Str(p.scheme))
    ensures Lookup(row.tags, "status") == Some(Str(if row.is_accessible then "active" else "inactive"))
    ensures Lookup(row.tags, "env") == Some(Str(EnvName(row.is_resolved, row.is_accessible, row.is_parked)))
    ensures Lookup(row.tags, "android_traffic") == Some(Bool(p.scheme == "android"))
    ensures Lookup(row.tags, "breach_status") == Some(Str("breached")) <==> row.domain in breached
  {
    var a := IpTags(row.ip_address) +
             BaseTags(p.scheme, row.is_resolved, row.is_accessible, row.is_parked, row.has_login_form);
    var m: Entries<Value> := if row.domain in breached then [("breach_status", Str("breached"))] else [];
    AssignedBaseLookups(row.ip_address, p.scheme, row.is_resolved, row.is_accessible, row.is_parked,
                        row.has_login_form);
    LookupConcat(a, m, "protocol");
    LookupConcat(a, m, "status");
    LookupConcat(a, m, "env");
    LookupConcat(a, m, "android_traffic");
    LookupConcat(a, m, "breach_status");
  }

  // ---------------------------------------------------------- lines, batches

  /** The stripped non-empty lines, in order. */
  function StrippedLines(lines: seq<string>): (r: seq<string>)
    ensures |r| <= |lines|
    ensures forall i :: 0 <= i < |r| ==> r[i] != "" && NoOuterSpace(r[i])
    decreases |lines|
  {
    if |lines| == 0 then []
    else
      var t := Trim(lines[0]);
      TrimIsTrimmed(lines[0]);
      if t != "" then [t] + StrippedLines(lines[1..]) else StrippedLines(lines[1..])
  }

  /** Opening and reading a data file as UTF-8 text: its raw lines, a
      `FileNotFoundError`, or any other error (`PermissionError`,
      `IsADirectoryError`, `UnicodeDecodeError`, ...). */
  datatype DataFile = FileLines(lines: seq<string>) | FileMissing | FileUnreadable

  /** `load_data_lines`: a missing file gives no lines, and any other error
      propagates (`None`). A truthy `max_lines` reads only that many raw lines
      first. */
  function LoadDataLines(file: DataFile, maxLines: Option<int>): (r: Option<seq<string>>)
    ensures r.None? <==> file.FileUnreadable?
    ensures r.Some? ==> forall i :: 0 <= i < |r.value| ==> r.value[i] != "" && NoOuterSpace(r.value[i])
    ensures file.FileMissing? ==> r == Some([])
    ensures r.Some? && maxLines.Some? && maxLines.value != 0 ==>
              |r.value| <= if maxLines.value < 0 then 0 else maxLines.value
  {
    match file
    case FileUnreadable => None
    case FileMissing => Some([])
    case FileLines(lines) =>
      if maxLines.Some? && maxLines.value != 0 then
        var n := if maxLines.value < 0 then 0 else if maxLines.value > |lines| then |lines| else maxLines.value;
        Some(StrippedLines(lines[..n]))
      else Some(StrippedLines(lines))
  }

  /** A zero limit is falsy and loads every line. */
  lemma ZeroLimitLoadsAll(file: DataFile)
    ensures LoadDataLines(file, Some(0)) == LoadDataLines(file, None)
  {
  }

  /** Every line with something besides white space is kept, stripped. */
  lemma {:induction false} StrippedLinesKeep(lines: seq<string>, i: nat)
    requires i < |lines| && !IsBlank(lines[i])
    ensures Trim(lines[i]) in StrippedLines(lines)
    decreases i
  {
    TrimEmptyIffBlank(lines[0]);
    StrippedLinesCons(lines);
    if i > 0 {
      assert lines[1..][i - 1] == lines[i];
      StrippedLinesKeep(lines[1..], i - 1);
    }
  }

  lemma StrippedLinesCons(lines: seq<string>)
    requires |lines| > 0
    ensures StrippedLines(lines) ==
              (if Trim(lines[0]) != "" then [Trim(lines[0])] else []) + StrippedLines(lines[1..])
  {
  }

  /** `[line.strip() for line in lines]`. */
  function TrimAll(lines: seq<string>): (r: seq<string>)
    ensures |r| == |lines|
    ensures forall i :: 0 <= i < |lines| ==> r[i] == Trim(lines[i])
  {
    seq(|lines|, i requires 0 <= i < |lines| => Trim(lines[i]))
  }

  function NonEmpty(s: string): bool { s != "" }

  /** The loaded lines are exactly the stripped lines with the empty ones left
      out, so each one is the strip of a raw line, in the order of the file. */
  lemma {:induction false} StrippedLinesAreStrippedNonEmpty(lines: seq<string>)
    ensures StrippedLines(lines) == Filter(TrimAll(lines), NonEmpty)
    ensures Subseq(StrippedLines(lines), TrimAll(lines))
    decreases |lines|
  {
    if |lines| > 0 {
      StrippedLinesAreStrippedNonEmpty(lines[1..]);
      StrippedLinesCons(lines);
      assert TrimAll(lines)[1..] == TrimAll(lines[1..]);
    }
    FilterIsSubseq(TrimAll(lines), NonEmpty);
  }

  /** A truthy limit reads only the first `max_lines` raw lines: what follows
      them in the file never matters. */
  lemma LimitIgnoresLaterLines(lines: seq<string>, later: seq<string>, n: int)
    requires 0 < n <= |lines|
    ensures LoadDataLines(FileLines(lines + later), Some(n)) == Some(StrippedLines(lines[..n]))
    ensures LoadDataLines(FileLines(lines + later), Some(n)) == LoadDataLines(FileLines(lines), Some(n))
  {
    var whole := lines + later;
    assert whole[..n] == lines[..n];
    assert LoadDataLines(FileLines(whole), Some(n)) == Some(StrippedLines(whole[..n]));
    assert LoadDataLines(FileLines(lines), Some(n)) == Some(StrippedLines(lines[..n]));
  }

  /** A limit of at least the file's length loads what no limit loads. */
  lemma LargeLimitLoadsAll(lines: seq<string>, n: int)
    requires n >= |lines| && n > 0
    ensures LoadDataLines(FileLines(lines), Some(n)) == LoadDataLines(FileLines(lines), None)
  {
    var m := if n > |lines| then |lines| else n;
    assert m == |lines|;
    assert lines[..m] == lines;
    assert LoadDataLines(FileLines(lines), Some(n)) == Some(StrippedLines(lines[..m]));
  }

  /** `[data[i:i + size] for i in range(0, len(data), size)]`. */
  function Batches<T>(data: seq<T>, size: nat): (bs: seq<seq<T>>)
    requires size > 0
    ensures forall i :: 0 <= i < |bs| ==> 0 < |bs[i]| <= size
    ensures forall i :: 0 <= i < |bs| - 1 ==> |bs[i]| == size
    decreases |data|
  {
    if |data| == 0 then []
    else if |data| <= size then [data]
    else [data[..size]] + Batches(data[size..], size)
  }

  function Flatten<T>(bs: seq<seq<T>>): seq<T>
    decreases |bs|
  {
    if |bs| == 0 then [] else bs[0] + Flatten(bs[1..])
  }

  /** The batches put back together are the lines, in order. */
  lemma {:induction false} BatchesConcat<T>(data: seq<T>, size: nat)
    requires size > 0
    ensures Flatten(Batches(data, size)) == data
    decreases |data|
  {
    if |data| > size {
      BatchesConcat(data[size..], size);
      var bs := Batches(data, size);
      assert bs[1..] == Batches(data[size..], size);
      assert data[..size] + data[size..] == data;
    } else if |data| > 0 {
      assert Flatten(Batches(data, size)) == data + Flatten<T>([]);
    }
  }

  /** There are `ceil(len / size)` batches: the fewest batches of `size` lines
      that hold every line. */
  lemma {:induction false} BatchCount<T>(data: seq<T>, size: nat)
    requires size > 0
    ensures (|Batches(data, size)| - 1) * size < |data| <= |Batches(data, size)| * size
    decreases |data|
  {
    if |data| > size {
      var m := |Batches(data[size..], size)|;
      BatchCount(data[size..], size);
      assert |Batches(data, size)| == m + 1;
      assert (m + 1) * size == m * size + size;
    }
  }
}
