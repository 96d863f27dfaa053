/** Filter tokens shared by both generations of the advanced-search component:
    a token has an id, a type and a value, and the active list is edited by
    appending a token with a fresh id or dropping every token with an id. */
module Filters {
  import opened Strings

  datatype FilterType = Domain | Ip | Port | Path | Application | LoginType | Status | Tag

  /** The string the component uses for each filter type. */
  function TypeName(t: FilterType): (s: string)
    ensures |s| > 0 && (s[0] != 't' || s == "tag")
  {
    match t
    case Domain => "domain"
    case Ip => "ip"
    case Port => "port"
    case Path => "path"
    case Application => "application"
    case LoginType => "login_type"
    case Status => "status"
    case Tag => "tag"
  }

  datatype SearchFilter = SearchFilter(id: string, kind: FilterType, value: string)

  /** `_.uniqueId("filter_")` when lodash's counter has been bumped to `n`. */
  function UniqueId(n: nat): (id: string)
    ensures StartsWith(id, "filter_")
  {
    "filter_" + NatToString(n)
  }

  lemma UniqueIdInjective(m: nat, n: nat)
    requires UniqueId(m) == UniqueId(n)
    ensures m == n
  {
    assert UniqueId(m)[7..] == NatToString(m);
    assert UniqueId(n)[7..] == NatToString(n);
    NatToStringInjective(m, n);
  }

  predicate HasId(fs: seq<SearchFilter>, id: string) {
    exists i :: 0 <= i < |fs| && fs[i].id == id
  }

  /** No two tokens share an id. */
  predicate DistinctIds(fs: seq<SearchFilter>) {
    forall i, j :: 0 <= i < j < |fs| ==> fs[i].id != fs[j].id
  }

  /** `[...filters, newFilter]`. */
  function WithFilter(fs: seq<SearchFilter>, f: SearchFilter): (r: seq<SearchFilter>)
    ensures |r| == |fs| + 1 && r[..|fs|] == fs && r[|fs|] == f
  {
    fs + [f]
  }

  function OtherId(id: string): SearchFilter -> bool {
    (f: SearchFilter) => f.id != id
  }

  /** `filters.filter(f => f.id !== id)`. */
  function WithoutId(fs: seq<SearchFilter>, id: string): (r: seq<SearchFilter>)
    ensures Subseq(r, fs)
    ensures !HasId(r, id)
    ensures forall i :: 0 <= i < |fs| && fs[i].id != id ==> fs[i] in r
    ensures forall i :: 0 <= i < |r| ==> r[i] in fs
  {
    FilterIsSubseq(fs, OtherId(id));
    Filter(fs, OtherId(id))
  }

  /** Removing an id nobody carries leaves the list as it was. */
  lemma WithoutAbsentId(fs: seq<SearchFilter>, id: string)
    requires !HasId(fs, id)
    ensures WithoutId(fs, id) == fs
  {
    FilterAll(fs, OtherId(id));
  }

  /** Removing the id of a token just added with a fresh id restores the list. */
  lemma RemoveFreshAfterAdd(fs: seq<SearchFilter>, f: SearchFilter)
    requires !HasId(fs, f.id)
    ensures WithoutId(WithFilter(fs, f), f.id) == fs
  {
    var p := OtherId(f.id);
    FilterConcat(fs, [f], p);
    FilterAll(fs, p);
    assert Filter([f], p) == [];
  }

  /** Removal keeps distinct ids distinct. */
  lemma WithoutIdKeepsDistinct(fs: seq<SearchFilter>, id: string)
    requires DistinctIds(fs)
    ensures DistinctIds(WithoutId(fs, id))
  {
    var r := WithoutId(fs, id);
    SubseqDistinctIds(r, fs);
  }

  lemma {:induction false} SubseqDistinctIds(a: seq<SearchFilter>, b: seq<SearchFilter>)
    requires Subseq(a, b) && DistinctIds(b)
    ensures DistinctIds(a)
    decreases |b|
  {
    if |a| > 0 && |b| > 0 {
      if a[0] == b[0] {
        assert Subseq(a[1..], b[1..]);
        assert DistinctIds(b[1..]) by {
          forall i, j | 0 <= i < j < |b[1..]| ensures b[1..][i].id != b[1..][j].id {
            assert b[1..][i] == b[i + 1] && b[1..][j] == b[j + 1];
          }
        }
        SubseqDistinctIds(a[1..], b[1..]);
        SubseqMember(a[1..], b[1..]);
        forall j | 0 < j < |a| ensures a[0].id != a[j].id {
          assert a[j] == a[1..][j - 1];
          var m :| 0 <= m < |b[1..]| && b[1..][m] == a[j];
          assert b[m + 1] == a[j];
        }
      } else {
        assert DistinctIds(b[1..]) by {
          forall i, j | 0 <= i < j < |b[1..]| ensures b[1..][i].id != b[1..][j].id {
            assert b[1..][i] == b[i + 1] && b[1..][j] == b[j + 1];
          }
        }
        SubseqDistinctIds(a, b[1..]);
      }
    }
  }

  /** Every id in the list was issued at or before lodash counter value `n`. */
  ghost predicate IssuedBefore(fs: seq<SearchFilter>, n: nat) {
    forall i, m: nat :: 0 <= i < |fs| && m > n ==> fs[i].id != UniqueId(m)
  }

  /** Appending a token with the next counter value keeps ids distinct and all issued. */
  lemma AddFreshKeepsIds(fs: seq<SearchFilter>, n: nat, kind: FilterType, value: string)
    requires DistinctIds(fs) && IssuedBefore(fs, n)
    ensures !HasId(fs, UniqueId(n + 1))
    ensures DistinctIds(WithFilter(fs, SearchFilter(UniqueId(n + 1), kind, value)))
    ensures IssuedBefore(WithFilter(fs, SearchFilter(UniqueId(n + 1), kind, value)), n + 1)
  {
    var r := WithFilter(fs, SearchFilter(UniqueId(n + 1), kind, value));
    forall i, m: nat | 0 <= i < |r| && m > n + 1 ensures r[i].id != UniqueId(m) {
      if i == |fs| {
        if UniqueId(n + 1) == UniqueId(m) { UniqueIdInjective(n + 1, m); }
      } else {
        assert r[i] == fs[i];
      }
    }
  }

  /** Removal keeps every remaining id issued. */
  lemma WithoutIdKeepsIssued(fs: seq<SearchFilter>, id: string, n: nat)
    requires IssuedBefore(fs, n)
    ensures IssuedBefore(WithoutId(fs, id), n)
  {
  }
}
