/** The ORM backend: a `breaches` table of records, the URL enrichment used at
    upload, the record's dictionary form, the upload loop that saves records
    in batches, the search built from ORM criteria with its pagination, and
    the tag merge. The URL parser, the resolver and the database are
    parameters. */
module OrmApi {
  import opened Strings
  import opened Dict
  import opened Json
  import Ingest
  import SqlSearch

  // --------------------------------------------------------------- records

  /** The JSON `tags` column: SQL `NULL`, an object, or another JSON value. */
  datatype Tags = TagsNull | TagsObject(entries: Entries<Value>) | TagsOther(v: Value)

  /** One `BreachData` row; every column may be `NULL`. `created_at` is kept as
      the ISO text `isoformat` gives. */
  datatype Breach = Breach(
    id: Option<int>, uri: Option<string>, username: Option<string>, password: Option<string>,
    domain: Option<string>, ip_address: Option<string>, port: Option<int>, path: Option<string>,
    tags: Tags, title: Option<string>, is_resolved: Option<bool>, is_accessible: Option<bool>,
    has_login_form: Option<bool>, login_form_type: Option<string>, web_application: Option<string>,
    is_parked: Option<bool>, is_breached: Option<bool>, created_at: Option<string>)

  function TextOrNull(o: Option<string>): Value { if o.Some? then Str(o.value) else Null }
  function NumOrNull(o: Option<int>): Value { if o.Some? then Num(o.value) else Null }
  function FlagOrNull(o: Option<bool>): Value { if o.Some? then Bool(o.value) else Null }

  /** The `tags` column as JSON: an object is a nested object. */
  function TagsJson(t: Tags): Value {
    match t
    case TagsNull => Null
    case TagsObject(_) => Composite
    case TagsOther(v) => v
  }

  /** The keys of `to_dict`, in order. */
  const Columns: seq<string> := [
    "id", "uri", "username", "password", "domain", "ip_address", "port", "path", "tags", "title",
    "is_resolved", "is_accessible", "has_login_form", "login_form_type", "web_application",
    "is_parked", "is_breached", "created_at"]

  /** `to_dict`. */
  function ToDict(b: Breach): (d: Entries<Value>)
    ensures KeyList(d) == Columns
  {
    [("id", NumOrNull(b.id)), ("uri", TextOrNull(b.uri)), ("username", TextOrNull(b.username)),
     ("password", TextOrNull(b.password)), ("domain", TextOrNull(b.domain)),
     ("ip_address", TextOrNull(b.ip_address)), ("port", NumOrNull(b.port)), ("path", TextOrNull(b.path)),
     ("tags", TagsJson(b.tags)), ("title", TextOrNull(b.title)), ("is_resolved", FlagOrNull(b.is_resolved)),
     ("is_accessible", FlagOrNull(b.is_accessible)), ("has_login_form", FlagOrNull(b.has_login_form)),
     ("login_form_type", TextOrNull(b.login_form_type)), ("web_application", TextOrNull(b.web_application)),
     ("is_parked", FlagOrNull(b.is_parked)), ("is_breached", FlagOrNull(b.is_breached)),
     ("created_at", TextOrNull(b.created_at))]
  }

  /** The column names are pairwise different: each has its own length and
      middle character. */
  lemma ColumnsDistinct()
    ensures Distinct(Columns)
  {
    ColumnSignatures();
    SignaturesDistinct();
    forall i, j | 0 <= i < j < |Columns| ensures Columns[i] != Columns[j] {
      assert Signature(Columns[i]) != Signature(Columns[j]);
    }
  }

  /** A name's length and middle character. */
  function Signature(name: string): (int, char) {
    if name == "" then (0, ' ') else (|name|, name[|name| / 2])
  }

  const Signatures: seq<(int, char)> := [
    (2, 'd'), (3, 'r'), (8, 'n'), (8, 'w'), (6, 'a'), (10, 'd'), (4, 'r'), (4, 't'), (4, 'g'), (5, 't'),
    (11, 's'), (13, 'e'), (14, 'i'), (15, 'o'), (15, 'l'), (9, 'a'), (11, 'e'), (10, 'e')]

  lemma ColumnSignatures()
    ensures |Signatures| == |Columns|
    ensures forall i :: 0 <= i < |Columns| ==> Signature(Columns[i]) == Signatures[i]
  {
  }

  lemma SignaturesDistinct()
    ensures Distinct(Signatures)
  {
  }

  /** Every record gives exactly the eighteen columns, each once. */
  lemma ToDictKeys(b: Breach)
    ensures KeyList(ToDict(b)) == Columns
    ensures UniqueKeys(ToDict(b))
  {
    ColumnsDistinct();
    var d := ToDict(b);
    forall i, j | 0 <= i < j < |d| ensures d[i].0 != d[j].0 {
      assert d[i].0 == Columns[i] && d[j].0 == Columns[j];
    }
  }

  /** A record without a creation time sends `created_at` as `null`, and the
      tags go out as stored. */
  lemma ToDictValues(b: Breach)
    ensures Lookup(ToDict(b), "created_at") == Some(if b.created_at.None? then Null else Str(b.created_at.value))
    ensures Lookup(ToDict(b), "tags") == Some(TagsJson(b.tags))
  {
    ToDictKeys(b);
    LookupEntry(ToDict(b), 17);
    LookupEntry(ToDict(b), 8);
  }

  // ----------------------------------------------------------- enrich_data

  /** `socket.gethostbyname`: an address, `gaierror`, or another error. */
  datatype Resolution = Address(ip: string) | NoAddress | ResolverFailure

  /** The outside world of the enrichment. */
  datatype Env = Env(urlparse: Ingest.UrlParser, resolve: string -> Resolution)

  /** The values of `enrich_data` that depend on the URL; its other keys are
      constants: `is_breached` is true, and `has_login_form`, `login_form_type`,
      `web_application`, `is_parked` and `title` are `None`. */
  datatype Enriched = Enriched(uri: string, domain: string, ip_address: Option<string>, port: int,
                               path: string, tags: Entries<Value>, is_accessible: bool)

  /** `port or (80 if scheme == 'http' else 443)` for a port that can be read. */
  function DefaultedPort(p: Ingest.ParsedUrl): int
    requires p.port != Ingest.BadPort
  {
    if p.port.PortNumber? && p.port.n != 0 then p.port.n else if p.scheme == "http" then 80 else 443
  }

  /** `domain.split('.')[-1] if domain else None`. */
  function Tld(domain: string): Value {
    var pieces := Split(domain, '.');
    if domain != "" then Str(pieces[|pieces| - 1]) else Null
  }

  function EnrichTags(scheme: string, domain: string): Entries<Value> {
    [("protocol", Str(scheme)), ("tld", Tld(domain)), ("type", Str("unknown"))]
  }

  /** `enrich_data`: `None` when parsing raises, when the port cannot be read,
      or when the resolver fails other than by `gaierror`. */
  function EnrichData(url: string, env: Env): (r: Option<Enriched>)
    ensures r.Some? <==>
              env.urlparse(url).Some? && env.urlparse(url).value.port != Ingest.BadPort &&
              !env.resolve(env.urlparse(url).value.netloc).ResolverFailure?
    ensures r.Some? ==> r.value.uri == url && r.value.domain == env.urlparse(url).value.netloc
    ensures r.Some? ==> r.value.path == env.urlparse(url).value.path
    ensures r.Some? ==> (r.value.is_accessible <==> r.value.ip_address.Some?)
    ensures r.Some? ==> (r.value.ip_address.Some? <==> env.resolve(r.value.domain).Address?)
    ensures r.Some? ==> UniqueKeys(r.value.tags) && KeyList(r.value.tags) == ["protocol", "tld", "type"]
  {
    var parsed := env.urlparse(url);
    if parsed.None? || parsed.value.port == Ingest.BadPort then None
    else
      var p := parsed.value;
      var res := env.resolve(p.netloc);
      if res.ResolverFailure? then None
      else Some(Enriched(url, p.netloc, if res.Address? then Some(res.ip) else None, DefaultedPort(p),
                         p.path, EnrichTags(p.scheme, p.netloc), res.Address?))
  }

  /** The enrichment tags: the scheme, the top-level label, and type `unknown`. */
  lemma EnrichedTags(url: string, env: Env)
    requires EnrichData(url, env).Some?
    ensures Lookup(EnrichData(url, env).value.tags, "protocol") == Some(Str(env.urlparse(url).value.scheme))
    ensures Lookup(EnrichData(url, env).value.tags, "tld") == Some(Tld(EnrichData(url, env).value.domain))
    ensures Lookup(EnrichData(url, env).value.tags, "type") == Some(Str("unknown"))
  {
    var tags := EnrichData(url, env).value.tags;
    LookupEntry(tags, 0);
    LookupEntry(tags, 1);
    LookupEntry(tags, 2);
  }

  /** An explicit non-zero port is kept; otherwise `http` gets 80 and every
      other scheme 443. */
  lemma PortDefaults(p: Ingest.ParsedUrl)
    requires p.port != Ingest.BadPort
    ensures p.port.PortNumber? && p.port.n != 0 ==> DefaultedPort(p) == p.port.n
    ensures !(p.port.PortNumber? && p.port.n != 0) ==> (DefaultedPort(p) == 80 <==> p.scheme == "http")
    ensures !(p.port.PortNumber? && p.port.n != 0) ==> DefaultedPort(p) in {80, 443}
  {
  }

  /** The ingestion script's default differs: it gives 443 only to `https`, so
      the two agree on web schemes and differ on every other one. */
  lemma PortDefaultsAgreeOnWebOnly(p: Ingest.ParsedUrl)
    requires p.port == Ingest.NoPort
    ensures DefaultedPort(p) == Ingest.PortOf(p) <==> p.scheme == "http" || p.scheme == "https"
  {
  }

  /** The top-level label is the text after the last `.`, so a port stays in it. */
  lemma TldAfterLastDot(pre: string, last: string)
    requires NoChar(last, '.')
    ensures Tld(pre + "." + last) == Str(last)
  {
    SplitLast(pre, '.', last);
    SplitNoChar(last, '.');
  }

  /** A netloc without `.` is its own top-level label. */
  lemma TldWithoutDot(domain: string)
    requires domain != "" && NoChar(domain, '.')
    ensures Tld(domain) == Str(domain)
  {
    SplitNoChar(domain, '.');
  }

  /** The last piece of a split is decided by the text after the last separator. */
  lemma {:induction false} SplitLast(x: string, c: char, y: string)
    ensures |Split(x + [c] + y, c)| >= 2
    ensures Split(x + [c] + y, c)[|Split(x + [c] + y, c)| - 1] == Split(y, c)[|Split(y, c)| - 1]
    decreases |x|
  {
    var s := x + [c] + y;
    if |x| == 0 {
      assert s == [c] + y;
      assert s[1..] == y;
    } else {
      assert s[1..] == x[1..] + [c] + y;
      SplitLast(x[1..], c, y);
    }
  }

  // -------------------------------------------------------------- upload

  const BatchSize: nat := 1000
  const NoFileError: string := "No file provided"

  /** The longest prefix free of white space. */
  function Token(s: string): (w: string)
    ensures |w| <= |s| && w == s[..|w|]
    ensures forall i :: 0 <= i < |w| ==> !IsSpace(w[i])
    ensures |w| < |s| ==> IsSpace(s[|w|])
    decreases |s|
  {
    if |s| == 0 || IsSpace(s[0]) then "" else [s[0]] + Token(s[1..])
  }

  /** `str.split()`: the runs of non-white-space characters, in order. */
  function Words(s: string): (ws: seq<string>)
    ensures forall i :: 0 <= i < |ws| ==> IsWord(ws[i])
    decreases |s|
  {
    var t := TrimStart(s);
    if t == "" then []
    else
      var w := Token(t);
      TokenOfNonSpace(t);
      var rest := Words(t[|w|..]);
      AllWordsCons(w, rest);
      [w] + rest
  }

  lemma TokenOfNonSpace(t: string)
    requires t != "" && !IsSpace(t[0])
    ensures IsWord(Token(t)) && |Token(t)| > 0
  {
  }

  lemma AllWordsCons(w: string, ws: seq<string>)
    requires IsWord(w) && forall i :: 0 <= i < |ws| ==> IsWord(ws[i])
    ensures forall i :: 0 <= i < |[w] + ws| ==> IsWord(([w] + ws)[i])
  {
  }

  predicate IsWord(w: string) { w != "" && forall i :: 0 <= i < |w| ==> !IsSpace(w[i]) }

  lemma {:induction false} TokenOfWord(w: string, rest: string)
    requires IsWord(w) && (rest == "" || IsSpace(rest[0]))
    ensures Token(w + rest) == w
    decreases |w|
  {
    if |w| == 1 {
      assert (w + rest)[1..] == rest;
    } else {
      assert (w + rest)[1..] == w[1..] + rest;
      TokenOfWord(w[1..], rest);
      assert [w[0]] + w[1..] == w;
    }
  }

  /** A word followed by white space or nothing is split off whole. */
  lemma WordsCons(w: string, rest: string)
    requires IsWord(w) && (rest == "" || IsSpace(rest[0]))
    ensures Words(w + rest) == [w] + Words(rest)
  {
    assert TrimStart(w + rest) == w + rest;
    TokenOfWord(w, rest);
    assert (w + rest)[|w|..] == rest;
  }

  /** One leading space is skipped. */
  lemma WordsSpace(s: string)
    ensures Words(" " + s) == Words(s)
  {
    assert (" " + s)[1..] == s;
  }

  /** Three words joined by single spaces split back into those words. */
  lemma WordsOfLine(u: string, p: string, w: string)
    requires IsWord(u) && IsWord(p) && IsWord(w)
    ensures Words(Trim(u + " " + p + " " + w)) == [u, p, w]
  {
    LineTrimmed(u, p, w);
    LineShape(u, p, w);
    WordsTriple(u, p, w);
  }

  lemma LineShape(u: string, p: string, w: string)
    ensures u + " " + p + " " + w == u + (" " + (p + (" " + w)))
  {
  }

  lemma WordsTriple(u: string, p: string, w: string)
    requires IsWord(u) && IsWord(p) && IsWord(w)
    ensures Words(u + (" " + (p + (" " + w)))) == [u, p, w]
  {
    WordsPair(p, w);
    WordsCons(u, " " + (p + (" " + w)));
    WordsSpace(p + (" " + w));
  }

  lemma LineTrimmed(u: string, p: string, w: string)
    requires IsWord(u) && IsWord(w)
    ensures Trim(u + " " + p + " " + w) == u + " " + p + " " + w
  {
    var line := u + " " + p + " " + w;
    assert line[0] == u[0] && line[|line| - 1] == w[|w| - 1];
    TrimNoOuterSpace(line);
  }

  lemma WordsPair(p: string, w: string)
    requires IsWord(p) && IsWord(w)
    ensures Words(p + (" " + w)) == [p, w]
  {
    SingleWord(w);
    WordsCons(p, " " + w);
    WordsSpace(w);
  }

  lemma SingleWord(w: string)
    requires IsWord(w)
    ensures Words(w) == [w]
  {
    WordsCons(w, "");
    assert w + "" == w;
  }

  /** The record built from an enriched URL and the two other words. */
  function NewBreach(e: Enriched, username: string, password: string): Breach {
    Breach(None, Some(e.uri), Some(username), Some(password), Some(e.domain), e.ip_address, Some(e.port),
           Some(e.path), TagsObject(e.tags), None, None, Some(e.is_accessible), None, None, None, None,
           Some(true), None)
  }

  /** What one line of the file adds: nothing when it does not decode (`None`),
      does not split into exactly three words, or does not enrich. */
  function LineRecords(line: Option<string>, env: Env): (r: seq<Breach>)
    ensures |r| <= 1
  {
    if line.None? then []
    else
      var ws := Words(Trim(line.value));
      if |ws| != 3 then []
      else
        var e := EnrichData(ws[0], env);
        if e.None? then [] else [NewBreach(e.value, ws[1], ws[2])]
  }

  /** A line adds a record exactly when it decodes, splits into three words and
      its first word enriches; the record carries the other two words as
      credentials and is marked breached. */
  lemma LineRecordsIff(line: Option<string>, env: Env)
    ensures |LineRecords(line, env)| == 1 <==>
              line.Some? && |Words(Trim(line.value))| == 3 && EnrichData(Words(Trim(line.value))[0], env).Some?
    ensures |LineRecords(line, env)| == 1 ==>
              var r, ws := LineRecords(line, env)[0], Words(Trim(line.value));
              r.uri == Some(ws[0]) && r.username == Some(ws[1]) && r.password == Some(ws[2]) &&
              r.is_breached == Some(true)
  {
  }

  /** The line `url user password` adds the record of its URL when the URL enriches. */
  lemma WellFormedLine(u: string, p: string, w: string, env: Env)
    requires IsWord(u) && IsWord(p) && IsWord(w) && EnrichData(u, env).Some?
    ensures LineRecords(Some(u + " " + p + " " + w), env) == [NewBreach(EnrichData(u, env).value, p, w)]
  {
    WordsOfLine(u, p, w);
    RecordOfWords(Some(u + " " + p + " " + w), [u, p, w], env);
  }

  lemma NoRecord(line: Option<string>, ws: seq<string>, env: Env)
    requires line.Some? && Words(Trim(line.value)) == ws && |ws| == 3 && EnrichData(ws[0], env).None?
    ensures LineRecords(line, env) == []
  {
  }

  lemma RecordOfWords(line: Option<string>, ws: seq<string>, env: Env)
    requires line.Some? && Words(Trim(line.value)) == ws && |ws| == 3 && EnrichData(ws[0], env).Some?
    ensures LineRecords(line, env) == [NewBreach(EnrichData(ws[0], env).value, ws[1], ws[2])]
  {
  }

  /** The records of the lines, in file order. */
  function Records(lines: seq<Option<string>>, env: Env): seq<Breach>
    decreases |lines|
  {
    if |lines| == 0 then [] else Records(lines[..|lines| - 1], env) + LineRecords(lines[|lines| - 1], env)
  }

  datatype UploadResponse = Uploaded(processed: nat) | UploadRejected(status: int, error: string)

  /** `upload_file`: `saved` holds the batches handed to `bulk_save_objects`, in
      order. */
  method UploadFile(file: Option<seq<Option<string>>>, env: Env)
    returns (resp: UploadResponse, saved: seq<seq<Breach>>)
    ensures file.None? ==> resp == UploadRejected(400, NoFileError) && saved == []
    ensures file.Some? ==> saved == Ingest.Batches(Records(file.value, env), BatchSize)
    ensures file.Some? ==> resp == Uploaded(|Ingest.Flatten(saved)|)
  {
    if file.None? {
      return UploadRejected(400, NoFileError), [];
    }
    var lines := file.value;
    var processed := 0;
    var current: seq<Breach> := [];
    saved := [];
    var i := 0;
    while i < |lines|
      invariant 0 <= i <= |lines|
      invariant Ingest.Flatten(saved) + current == Records(lines[..i], env)
      invariant AllFull(saved, BatchSize)
      invariant |current| < BatchSize
      invariant processed == |Ingest.Flatten(saved)|
    {
      var records := ReadLine(lines[i], env);
      ghost var read := Records(lines[..i + 1], env);
      RecordsSnoc(lines, i, env, Ingest.Flatten(saved), current, records);
      current := current + records;
      assert Ingest.Flatten(saved) + current == read;
      if |current| >= BatchSize {
        FullBatchAppended(saved, current, BatchSize);
        saved, processed := SaveBatch(saved, processed, current);
        current := [];
        assert Ingest.Flatten(saved) + current == read;
      }
      i := i + 1;
    }
    assert lines[..i] == lines;
    assert Ingest.Batches(Records(lines, env), BatchSize) == saved + (if current == [] then [] else [current]) by {
      FinalBatches(saved, current, BatchSize);
    }
    if current != [] {
      saved, processed := SaveBatch(saved, processed, current);
    }
    resp := Uploaded(processed);
  }

  /** The body of the line loop up to the batch check: decode, strip, split
      into three words and enrich; any `ValueError` skips the line. */
  method ReadLine(line: Option<string>, env: Env) returns (records: seq<Breach>)
    ensures records == LineRecords(line, env) && |records| <= 1
  {
    records := [];
    if line.Some? {
      var words := Words(Trim(line.value));
      if |words| == 3 {
        var enriched := EnrichData(words[0], env);
        if enriched.Some? {
          records := [NewBreach(enriched.value, words[1], words[2])];
          RecordOfWords(line, words, env);
        } else {
          NoRecord(line, words, env);
        }
      }
    }
  }

  /** `bulk_save_objects(current_batch)` followed by `processed_count += len(current_batch)`. */
  method SaveBatch(saved: seq<seq<Breach>>, processed: nat, batch: seq<Breach>)
    returns (saved': seq<seq<Breach>>, processed': nat)
    requires processed == |Ingest.Flatten(saved)|
    ensures saved' == saved + [batch]
    ensures Ingest.Flatten(saved') == Ingest.Flatten(saved) + batch
    ensures processed' == |Ingest.Flatten(saved')|
  {
    FlattenSnoc(saved, batch);
    saved' := saved + [batch];
    processed' := processed + |batch|;
  }

  lemma FullBatchAppended<T>(saved: seq<seq<T>>, batch: seq<T>, size: nat)
    requires AllFull(saved, size)
    requires |batch| == size
    ensures AllFull(saved + [batch], size)
  {
  }

  /** Every batch holds exactly `size` records. */
  predicate AllFull<T>(bs: seq<seq<T>>, size: nat) {
    forall k :: 0 <= k < |bs| ==> |bs[k]| == size
  }

  /** The saved full batches and the batch still open are the batches of
      everything read. */
  lemma FinalBatches<T>(saved: seq<seq<T>>, current: seq<T>, size: nat)
    requires size > 0
    requires AllFull(saved, size)
    requires |current| < size
    ensures Ingest.Batches(Ingest.Flatten(saved) + current, size) == saved + (if current == [] then [] else [current])
  {
    var bs := saved + (if current == [] then [] else [current]);
    assert forall k :: 0 <= k < |bs| ==> 0 < |bs[k]| <= size by {
      forall k | 0 <= k < |bs| ensures 0 < |bs[k]| <= size {
        if k < |saved| { assert bs[k] == saved[k]; } else { assert bs[k] == current; }
      }
    }
    assert forall k :: 0 <= k < |bs| - 1 ==> |bs[k]| == size by {
      forall k | 0 <= k < |bs| - 1 ensures |bs[k]| == size {
        assert bs[k] == saved[k];
      }
    }
    ChunksAreBatches(bs, size);
    if current == [] {
      assert bs == saved;
      assert Ingest.Flatten(saved) + current == Ingest.Flatten(saved);
    } else {
      FlattenSnoc(saved, current);
    }
  }

  /** The records read so far grow by the records of the next line. */
  lemma RecordsSnoc(lines: seq<Option<string>>, i: nat, env: Env, flushed: seq<Breach>, open: seq<Breach>,
                    records: seq<Breach>)
    requires i < |lines|
    requires flushed + open == Records(lines[..i], env)
    requires records == LineRecords(lines[i], env)
    ensures flushed + (open + records) == Records(lines[..i + 1], env)
  {
    RecordsPrefix(lines, i, env);
    assert (flushed + open) + records == flushed + (open + records);
  }

  lemma RecordsPrefix(lines: seq<Option<string>>, i: nat, env: Env)
    requires i < |lines|
    ensures Records(lines[..i + 1], env) == Records(lines[..i], env) + LineRecords(lines[i], env)
  {
    var pre := lines[..i + 1];
    assert pre[..|pre| - 1] == lines[..i] && pre[|pre| - 1] == lines[i];
  }

  lemma {:induction false} FlattenSnoc<T>(bs: seq<seq<T>>, b: seq<T>)
    ensures Ingest.Flatten(bs + [b]) == Ingest.Flatten(bs) + b
    decreases |bs|
  {
    if |bs| == 0 {
      assert Ingest.Flatten([b]) == b + Ingest.Flatten<T>([]);
    } else {
      assert (bs + [b])[1..] == bs[1..] + [b];
      FlattenSnoc(bs[1..], b);
    }
  }

  /** Full batches followed by one non-empty partial or full batch are exactly
      the batches of their concatenation. */
  lemma {:induction false} ChunksAreBatches<T>(bs: seq<seq<T>>, size: nat)
    requires size > 0
    requires forall k :: 0 <= k < |bs| ==> 0 < |bs[k]| <= size
    requires forall k :: 0 <= k < |bs| - 1 ==> |bs[k]| == size
    ensures Ingest.Batches(Ingest.Flatten(bs), size) == bs
    decreases |bs|
  {
    if |bs| == 1 {
      assert bs[1..] == [];
      assert Ingest.Flatten(bs) == bs[0] + Ingest.Flatten<T>([]);
      assert Ingest.Flatten(bs) == bs[0];
      assert Ingest.Batches(bs[0], size) == [bs[0]];
    } else if |bs| > 1 {
      var rest := bs[1..];
      ChunksAreBatches(rest, size);
      var data := Ingest.Flatten(bs);
      assert data == bs[0] + Ingest.Flatten(rest);
      assert Ingest.Flatten(rest) == rest[0] + Ingest.Flatten(rest[1..]);
      assert data[..size] == bs[0] && data[size..] == Ingest.Flatten(rest);
    }
  }

  /** Every saved record comes from the file, and the count reported is the
      number written. */
  lemma UploadCounts(lines: seq<Option<string>>, env: Env)
    ensures Ingest.Flatten(Ingest.Batches(Records(lines, env), BatchSize)) == Records(lines, env)
    ensures |Records(lines, env)| <= |lines|
  {
    Ingest.BatchesConcat(Records(lines, env), BatchSize);
    RecordsAtMostLines(lines, env);
  }

  lemma {:induction false} RecordsAtMostLines(lines: seq<Option<string>>, env: Env)
    ensures |Records(lines, env)| <= |lines|
    decreases |lines|
  {
    if |lines| > 0 {
      RecordsAtMostLines(lines[..|lines| - 1], env);
    }
  }

  // -------------------------------------------------------------- search

  /** A filter on the ORM query. */
  datatype Criterion = Like(column: string, pattern: string) | Equals(column: string, value: Value)

  /** The `if field == …` chain: the column a text search filters. */
  function SearchColumn(field: string): (c: Option<string>)
    ensures c.Some? <==> field in SqlSearch.SearchFields
    ensures c.Some? ==> c.value == field
  {
    if field == "uri" then Some("uri")
    else if field == "domain" then Some("domain")
    else if field == "username" then Some("username")
    else if field == "ip_address" then Some("ip_address")
    else if field == "web_application" then Some("web_application")
    else None
  }

  function FlagCriteria(column: string, v: Option<bool>): seq<Criterion> {
    if v.Some? then [Equals(column, Bool(v.value))] else []
  }

  /** The filters of a valid search, in the order they are applied; the tag
      arguments are not used here. */
  function Criteria(r: SqlSearch.SearchRequest): seq<Criterion>
    requires !SqlSearch.InvalidField(r)
  {
    TextCriteria(r) + FlagCriteria("is_resolved", r.isResolved) + FlagCriteria("has_login_form", r.hasLoginForm) +
    TypeCriteria(r) + FlagCriteria("is_accessible", r.isAccessible)
  }

  function TextCriteria(r: SqlSearch.SearchRequest): seq<Criterion> {
    if r.q != "" then [Like(r.field, "%" + r.q + "%")] else []
  }

  function TypeCriteria(r: SqlSearch.SearchRequest): seq<Criterion> {
    if r.loginFormType.Some? && r.loginFormType.value != "" then
      [Equals("login_form_type", Str(r.loginFormType.value))]
    else []
  }

  /** The database: the rows that meet every criterion, in its own order, or
      the text of the error raised by the queries `paginate` runs (the count
      and the page are taken to fail or succeed together). */
  type Matcher = seq<Criterion> -> SqlSearch.DbResult<seq<Breach>>

  /** One page as Flask-SQLAlchemy 3 `paginate(..., error_out=False)` gives it. */
  datatype Pagination = Pagination(items: seq<Breach>, total: nat, pages: nat, perPage: nat, start: nat)

  /** A page below 1 reads as page 1 and a page size below 1 as 20; the page
      holds the rows from `(page - 1) * per_page` on, at most `per_page` of
      them, and there are `ceil(total / per_page)` pages. */
  function Paginate(rows: seq<Breach>, page: int, perPage: int): (p: Pagination)
    ensures p.perPage == if perPage < 1 then 20 else perPage
    ensures p.start == ((if page < 1 then 1 else page) - 1) * p.perPage
    ensures p.total == |rows| && |p.items| <= p.perPage
    ensures forall i :: 0 <= i < |p.items| ==> p.start + i < |rows| && p.items[i] == rows[p.start + i]
    ensures |p.items| == p.perPage || p.start + |p.items| >= |rows|
  {
    var n: nat := if perPage < 1 then 20 else perPage;
    var start := PageStart(if page < 1 then 1 else page, n);
    Pagination(Window(rows, start, n), |rows|, PageCount(|rows|, n), n, start)
  }

  /** `ceil(total / per_page)`, none for no rows. */
  function PageCount(total: nat, n: nat): nat
    requires n > 0
  {
    if total == 0 then 0 else (total + n - 1) / n
  }

  lemma PageCountIsPages(total: nat, n: nat)
    requires n > 0
    ensures PageCount(total, n) == SqlSearch.Pages(total, n)
  {
    if total == 0 {
      assert SqlSearch.Pages(0, n) == (n - 1) / n;
    }
  }

  function PageStart(page: nat, n: nat): (start: nat)
    requires page >= 1
    ensures start == (page - 1) * n
  {
    (page - 1) * n
  }

  /** `LIMIT n OFFSET start`. */
  function Window<T>(rows: seq<T>, start: nat, n: nat): (w: seq<T>)
    ensures |w| <= n
    ensures forall i :: 0 <= i < |w| ==> start + i < |rows| && w[i] == rows[start + i]
    ensures |w| == n || start + |w| >= |rows|
  {
    if start >= |rows| then [] else rows[start..if start + n <= |rows| then start + n else |rows|]
  }

  /** The page count is the ceiling of the total over the page size, and it is
      what the hand-written SQL search computes for the same total. */
  lemma PaginatePages(rows: seq<Breach>, page: int, perPage: int)
    ensures Paginate(rows, page, perPage).pages * Paginate(rows, page, perPage).perPage >= |rows|
    ensures (Paginate(rows, page, perPage).pages - 1) * Paginate(rows, page, perPage).perPage < |rows|
    ensures Paginate(rows, page, perPage).pages == SqlSearch.Pages(|rows|, Paginate(rows, page, perPage).perPage)
  {
    var p := Paginate(rows, page, perPage);
    assert p.pages == PageCount(|rows|, p.perPage);
    PageCountIsPages(|rows|, p.perPage);
    SqlSearch.PagesIsCeiling(|rows|, p.perPage);
  }

  datatype SearchResponse =
    | Found(total: nat, pages: nat, currentPage: int, results: seq<Entries<Value>>)
    | Failed(status: int, error: string)
    | Crashed

  /** The answer to a search: a crash exactly when `page` or `per_page` is not
      an integer; 400 exactly for a text query on an unknown field; otherwise
      500 or one page of record dictionaries. */
  function Answer(args: SqlSearch.Args, toInt: SqlSearch.IntParser, db: Matcher): (r: SearchResponse)
    ensures r.Crashed? <==> SqlSearch.ReadArgs(args, toInt).None?
    ensures r.Failed? ==> r.status == 400 || r.status == 500
    ensures r.Failed? && r.status == 400 <==>
              SqlSearch.ReadArgs(args, toInt).Some? && SqlSearch.InvalidField(SqlSearch.ReadArgs(args, toInt).value)
    ensures r.Found? ==> forall i :: 0 <= i < |r.results| ==> KeyList(r.results[i]) == Columns
    ensures r.Found? ==>
              var perPage := SqlSearch.ReadArgs(args, toInt).value.perPage;
              |r.results| <= if perPage < 1 then 20 else perPage
  {
    var req := SqlSearch.ReadArgs(args, toInt);
    if req.None? then Crashed
    else if SqlSearch.InvalidField(req.value) then Failed(400, SqlSearch.InvalidFieldError)
    else
      var r := req.value;
      var rows := db(Criteria(r));
      if rows.DbError? then Failed(500, rows.message)
      else
        var p := Paginate(rows.value, r.page, r.perPage);
        Found(p.total, p.pages, r.page, seq(|p.items|, i requires 0 <= i < |p.items| => ToDict(p.items[i])))
  }

  /** `search`: the text filter through the field dispatch, then the flag and
      form-type filters, then one page; a failing query is answered with its
      error and status 500. */
  method Search(args: SqlSearch.Args, toInt: SqlSearch.IntParser, db: Matcher) returns (resp: SearchResponse)
    ensures resp == Answer(args, toInt, db)
  {
    var req := SqlSearch.ReadArgs(args, toInt);
    if req.None? {
      return Crashed;
    }
    var r := req.value;
    var criteria: seq<Criterion> := [];
    if r.q != "" {
      var column := SearchColumn(r.field);
      if column.None? {
        return Failed(400, SqlSearch.InvalidFieldError);
      }
      criteria := criteria + [Like(column.value, "%" + r.q + "%")];
    }
    assert criteria == TextCriteria(r);
    criteria := criteria + FlagCriteria("is_resolved", r.isResolved);
    criteria := criteria + FlagCriteria("has_login_form", r.hasLoginForm);
    if r.loginFormType.Some? && r.loginFormType.value != "" {
      criteria := criteria + [Equals("login_form_type", Str(r.loginFormType.value))];
    }
    assert criteria == TextCriteria(r) + FlagCriteria("is_resolved", r.isResolved) +
                       FlagCriteria("has_login_form", r.hasLoginForm) + TypeCriteria(r);
    criteria := criteria + FlagCriteria("is_accessible", r.isAccessible);
    assert criteria == Criteria(r);
    var rows := db(criteria);
    if rows.DbError? {
      return Failed(500, rows.message);
    }
    var p := Paginate(rows.value, r.page, r.perPage);
    var results := seq(|p.items|, i requires 0 <= i < |p.items| => ToDict(p.items[i]));
    resp := Found(p.total, p.pages, r.page, results);
  }

  /** A search without `page` and `per_page` answers page 1 with at most 50
      records, the first ones the database reports. */
  lemma DefaultSearchBounded(args: SqlSearch.Args, toInt: SqlSearch.IntParser, db: Matcher)
    requires Lookup(args, "page").None? && Lookup(args, "per_page").None?
    ensures Answer(args, toInt, db).Found? ==>
              Answer(args, toInt, db).currentPage == 1 && |Answer(args, toInt, db).results| <= 50
  {
  }

  /** A query the database refuses is answered with status 500 and the
      error's text, whatever page was asked for. */
  lemma QueryErrorAnswers500(args: SqlSearch.Args, toInt: SqlSearch.IntParser, db: Matcher, message: string)
    requires SqlSearch.ReadArgs(args, toInt).Some? && !SqlSearch.InvalidField(SqlSearch.ReadArgs(args, toInt).value)
    requires db(Criteria(SqlSearch.ReadArgs(args, toInt).value)) == SqlSearch.DbError(message)
    ensures Answer(args, toInt, db) == Failed(500, message)
  {
  }

  /** The two backends accept the same search fields. */
  lemma SameFieldCheck(field: string)
    ensures SearchColumn(field).None? <==> field !in SqlSearch.SearchFields
  {
  }

  // ------------------------------------------------------------ update_tags

  /** The `tags` member of the request body: absent, an object, or another
      JSON value (`null` included). */
  datatype TagsField = TagsAbsent | TagsGiven(entries: Entries<Value>) | TagsNotObject

  /** The request body: a JSON object with its `tags` member, or anything
      else (then `request.json.get` raises). */
  datatype Body = JsonObject(tags: TagsField) | NotJsonObject

  datatype TagResponse = Updated(breach: Breach) | BadTags(status: int, error: string) | ServerError

  const TagsError: string := "Tags must be provided as a JSON object"

  /** Python truthiness of a JSON value. */
  predicate Truthy(v: Value) {
    match v
    case Str(s) => s != ""
    case Num(n) => n != 0
    case Bool(b) => b
    case Null => false
    case Composite => true
  }

  /** `breach.tags or {}`: `None` when a truthy non-object has no `update`. A
      non-empty dictionary here is always the stored object itself, never a
      new `{}`. */
  function CurrentTags(t: Tags): (r: Option<Entries<Value>>)
    ensures r.None? <==> t.TagsOther? && Truthy(t.v)
    ensures r.Some? && r.value != [] ==> t == TagsObject(r.value)
  {
    match t
    case TagsNull => Some([])
    case TagsObject(e) => Some(e)
    case TagsOther(v) => if Truthy(v) then None else Some([])
  }

  /** The merged tags: the incoming pairs override, every other key is kept. */
  lemma MergeLookup(current: Entries<Value>, incoming: Entries<Value>, k: string)
    ensures Lookup(Update(current, incoming), k) ==
              if LastValue(incoming, k).Some? then LastValue(incoming, k) else Lookup(current, k)
    ensures UniqueKeys(current) ==> UniqueKeys(Update(current, incoming))
  {
    UpdateLookupLast(current, incoming, k);
    if UniqueKeys(current) {
      UpdateUniqueKeys(current, incoming);
    }
  }

  /** A missing `tags` member merges nothing: stored tags stay as they are, and
      `null` becomes the empty object. */
  lemma MergeNothing(current: Entries<Value>)
    ensures Update(current, []) == current
  {
  }

  /** The merge `update_tags` evidently intends: `(breach.tags or {})`
      updated by the incoming pairs, as an object. */
  function IntendedTags(t: Tags, incoming: Entries<Value>): (r: Tags)
    requires CurrentTags(t).Some?
    ensures r.TagsObject?
    ensures UniqueKeys(CurrentTags(t).value) ==> UniqueKeys(r.entries)
  {
    var current := CurrentTags(t).value;
    if UniqueKeys(current) then
      UpdateUniqueKeys(current, incoming);
      TagsObject(Update(current, incoming))
    else TagsObject(Update(current, incoming))
  }

  /** The intended merge: an incoming pair overrides, every other stored key
      keeps its value. */
  lemma IntendedTagsLookup(t: Tags, incoming: Entries<Value>, k: string)
    requires CurrentTags(t).Some?
    ensures Lookup(IntendedTags(t, incoming).entries, k) ==
              if LastValue(incoming, k).Some? then LastValue(incoming, k) else Lookup(CurrentTags(t).value, k)
  {
    MergeLookup(CurrentTags(t).value, incoming, k);
  }

  /** What `update_tags` stores, as written. The column is a plain `db.JSON`,
      which does not track changes made inside its value. For a stored object
      with entries, `breach.tags or {}` is the very dictionary the session
      loaded; `update` changes it in place, and assigning it back leaves the
      attribute equal to its loaded value, so the flush writes nothing. For
      stored tags that are empty or falsy, `or {}` makes a new dictionary, and
      the merge is written. */
  function StoredTags(t: Tags, incoming: Entries<Value>): (r: Tags)
    requires CurrentTags(t).Some?
    ensures t.TagsObject? && t.entries != [] ==> r == t
    ensures !(t.TagsObject? && t.entries != []) ==> r == IntendedTags(t, incoming)
  {
    if t.TagsObject? && t.entries != [] then t else IntendedTags(t, incoming)
  }

  /** A record stored by `upload_file` has the three tags `protocol`, `tld`
      and `type`, so updating its `type` stores nothing, although the intended
      merge would change it. */
  lemma UploadedTagsNotUpdated()
    ensures var t := TagsObject([("protocol", Str("http")), ("tld", Str("com")), ("type", Str("unknown"))]);
            var incoming := [("type", Str("critical"))];
            Lookup(StoredTags(t, incoming).entries, "type") == Some(Str("unknown")) &&
            Lookup(IntendedTags(t, incoming).entries, "type") == Some(Str("critical"))
  {
    var t := TagsObject([("protocol", Str("http")), ("tld", Str("com")), ("type", Str("unknown"))]);
    var incoming := [("type", Str("critical"))];
    assert LastValue(incoming, "type") == Some(Str("critical"));
    IntendedTagsLookup(t, incoming, "type");
  }

  /** The `breaches` table, by primary key. */
  class BreachTable {
    var rows: map<int, Breach>

    constructor (initial: map<int, Breach>)
      ensures rows == initial
    {
      rows := initial;
    }

    /** `update_tags`: a missing record raises inside the handler's `try`, so it
        is answered as a 500 like any other failure; `commit` is the error
        `db.session.commit()` raises, if any, and then the session is rolled
        back and the answer is 500. Every failure leaves the table unchanged.
        Otherwise the record gets `StoredTags`, and the answer is the record
        as `to_dict()` reloads it after the commit. */
    method UpdateTags(id: int, body: Body, commit: Option<string>) returns (resp: TagResponse)
      modifies this
      ensures id !in old(rows) || body.NotJsonObject? ==> resp == ServerError && rows == old(rows)
      ensures id in old(rows) && body.JsonObject? && body.tags.TagsNotObject? ==>
                resp == BadTags(400, TagsError) && rows == old(rows)
      ensures (id in old(rows) && body.JsonObject? && !body.tags.TagsNotObject? &&
               CurrentTags(old(rows)[id].tags).None?) ==> resp == ServerError && rows == old(rows)
      ensures (id in old(rows) && body.JsonObject? && !body.tags.TagsNotObject? &&
               CurrentTags(old(rows)[id].tags).Some? && commit.Some?) ==> resp == ServerError && rows == old(rows)
      ensures (id in old(rows) && body.JsonObject? && !body.tags.TagsNotObject? &&
               CurrentTags(old(rows)[id].tags).Some? && commit.None?) ==>
                var incoming := if body.tags.TagsGiven? then body.tags.entries else [];
                var after := old(rows)[id].(tags := StoredTags(old(rows)[id].tags, incoming));
                resp == Updated(after) && rows == old(rows)[id := after]
    {
      if id !in rows || body.NotJsonObject? {
        return ServerError;
      }
      var breach := rows[id];
      var incoming: Entries<Value>;
      match body.tags {
        case TagsNotObject =>
          return BadTags(400, TagsError);
        case TagsAbsent =>
          incoming := [];
        case TagsGiven(e) =>
          incoming := e;
      }
      var current := CurrentTags(breach.tags);
      if current.None? {
        return ServerError;
      }
      // Only a dictionary made by `or {}` is a new value for the column.
      var newValue := !(breach.tags.TagsObject? && breach.tags.entries != []);
      var merged := Update(current.value, incoming);
      if commit.Some? {
        return ServerError;
      }
      if newValue {
        breach := breach.(tags := TagsObject(merged));
        rows := rows[id := breach];
      }
      resp := Updated(breach);
    }
  }
}
