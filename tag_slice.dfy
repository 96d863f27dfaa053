/** The tag store slice: the list of known tags, a loading flag and an error
    message. `updateTagCount` edits the first tag with an id in place; the
    request outcomes replace, push onto or filter the list. */
module TagSlice {
  import opened Strings

  datatype TagKind = StatusTag | Risk | ApplicationTag | Security | Custom

  datatype Tag = Tag(id: string, name: string, kind: TagKind, color: Option<string>, count: Option<int>)

  const FetchTagsFailed: string := "Failed to fetch tags"

  /** The list after setting `count` on the first tag with the id, if any. */
  function WithCount(tags: seq<Tag>, id: string, c: int): (r: seq<Tag>)
    ensures |r| == |tags|
    decreases |tags|
  {
    if |tags| == 0 then []
    else if tags[0].id == id then [tags[0].(count := Some(c))] + tags[1..]
    else [tags[0]] + WithCount(tags[1..], id, c)
  }

  predicate HasTagId(tags: seq<Tag>, id: string) {
    exists i :: 0 <= i < |tags| && tags[i].id == id
  }

  /** Only the first tag with the id changes, and only its count. */
  lemma {:induction false} WithCountChangesFirstOnly(tags: seq<Tag>, id: string, c: int, k: nat)
    requires k < |tags| && tags[k].id == id
    requires forall j :: 0 <= j < k ==> tags[j].id != id
    ensures |WithCount(tags, id, c)| == |tags|
    ensures WithCount(tags, id, c)[k] == tags[k].(count := Some(c))
    ensures forall j :: 0 <= j < |tags| && j != k ==> WithCount(tags, id, c)[j] == tags[j]
    decreases k
  {
    if k > 0 {
      assert tags[0].id != id;
      WithCountChangesFirstOnly(tags[1..], id, c, k - 1);
      var r := WithCount(tags, id, c);
      assert r == [tags[0]] + WithCount(tags[1..], id, c);
      forall j | 0 <= j < |tags| && j != k ensures r[j] == tags[j] {
        if j > 0 { assert r[j] == WithCount(tags[1..], id, c)[j - 1]; }
      }
    }
  }

  /** An unknown id changes nothing. */
  lemma {:induction false} WithCountUnknown(tags: seq<Tag>, id: string, c: int)
    requires !HasTagId(tags, id)
    ensures WithCount(tags, id, c) == tags
    decreases |tags|
  {
    if |tags| > 0 {
      assert tags[0].id != id;
      assert !HasTagId(tags[1..], id) by {
        forall i | 0 <= i < |tags[1..]| ensures tags[1..][i].id != id {
          assert tags[1..][i] == tags[i + 1];
        }
      }
      WithCountUnknown(tags[1..], id, c);
    }
  }

  /** Skipping a prefix without the id. */
  lemma WithCountSkip(tags: seq<Tag>, id: string, c: int, i: nat)
    requires i < |tags| && tags[i].id != id
    requires WithCount(tags, id, c) == tags[..i] + WithCount(tags[i..], id, c)
    ensures WithCount(tags, id, c) == tags[..i + 1] + WithCount(tags[i + 1..], id, c)
  {
    var t := tags[i..];
    assert t[0] == tags[i] && t[1..] == tags[i + 1..];
    var w := WithCount(tags[i + 1..], id, c);
    assert WithCount(t, id, c) == [tags[i]] + w;
    assert tags[..i + 1] == tags[..i] + [tags[i]];
    assert tags[..i] + ([tags[i]] + w) == tags[..i + 1] + w;
  }

  function NotListed(ids: seq<string>): Tag -> bool {
    (t: Tag) => t.id !in ids
  }

  function Listed(ids: seq<string>): Tag -> bool {
    (t: Tag) => t.id in ids
  }

  function OtherTagId(id: string): Tag -> bool {
    (t: Tag) => t.id != id
  }

  /** `tags.filter(tag => !ids.includes(tag.id))` followed by the push of the merged tag. */
  function Merged(tags: seq<Tag>, ids: seq<string>, merged: Tag): (r: seq<Tag>)
    ensures |r| > 0 && r[|r| - 1] == merged
    ensures forall i :: 0 <= i < |r| - 1 ==> r[i] in tags && r[i].id !in ids
    ensures forall i :: 0 <= i < |tags| && tags[i].id !in ids ==> tags[i] in r
    ensures Subseq(r[..|r| - 1], tags)
  {
    FilterIsSubseq(tags, NotListed(ids));
    var kept := Filter(tags, NotListed(ids));
    assert (kept + [merged])[..|kept|] == kept;
    kept + [merged]
  }

  /** Merging keeps the tags outside the list, drops the listed ones, and adds one. */
  lemma MergedLength(tags: seq<Tag>, ids: seq<string>, merged: Tag)
    ensures |Merged(tags, ids, merged)| == |tags| - Count(tags, Listed(ids)) + 1
  {
    FilterCount(tags, NotListed(ids));
    CountSplit(tags, ids);
  }

  lemma {:induction false} CountSplit(tags: seq<Tag>, ids: seq<string>)
    ensures Count(tags, NotListed(ids)) + Count(tags, Listed(ids)) == |tags|
    decreases |tags|
  {
    if |tags| > 0 { CountSplit(tags[1..], ids); }
  }

  /** The tag state. */
  class TagStore {
    var tags: seq<Tag>
    var loading: bool
    var error: Option<string>

    /** A fetch in flight never shows an error. */
    predicate Valid()
      reads this
    {
      loading ==> error.None?
    }

    /** `initialState`. */
    constructor ()
      ensures Valid() && tags == [] && !loading && error.None?
    {
      tags := [];
      loading := false;
      error := None;
    }

    /** `updateTagCount`: find the first tag with the id and set its count. */
    method UpdateTagCount(id: string, c: int)
      requires Valid()
      modifies this
      ensures Valid()
      ensures tags == WithCount(old(tags), id, c)
      ensures loading == old(loading) && error == old(error)
    {
      var ts := tags;
      var i := 0;
      while i < |ts| && ts[i].id != id
        invariant 0 <= i <= |ts|
        invariant WithCount(ts, id, c) == ts[..i] + WithCount(ts[i..], id, c)
        modifies {}
        decreases |ts| - i
      {
        WithCountSkip(ts, id, c, i);
        i := i + 1;
      }
      if i < |ts| {
        assert ts[i..][1..] == ts[i + 1..];
        assert ts[..i] + [ts[i].(count := Some(c))] + ts[i + 1..] == ts[i := ts[i].(count := Some(c))];
        tags := ts[i := ts[i].(count := Some(c))];
      } else {
        assert ts[..i] == ts;
      }
    }

    method FetchPending()
      requires Valid()
      modifies this
      ensures Valid()
      ensures loading && error.None? && tags == old(tags)
    {
      loading := true;
      error := None;
    }

    method FetchFulfilled(payload: seq<Tag>)
      requires Valid()
      modifies this
      ensures Valid()
      ensures !loading && tags == payload && error == old(error)
    {
      loading := false;
      tags := payload;
    }

    /** The message of the error, or the fixed text when it has none. */
    method FetchRejected(message: Option<string>)
      requires Valid()
      modifies this
      ensures Valid()
      ensures !loading && tags == old(tags)
      ensures error == Some(ErrorText(message, FetchTagsFailed))
    {
      loading := false;
      error := Some(ErrorText(message, FetchTagsFailed));
    }

    method AddTagFulfilled(t: Tag)
      requires Valid()
      modifies this
      ensures Valid()
      ensures tags == old(tags) + [t]
      ensures loading == old(loading) && error == old(error)
    {
      tags := tags + [t];
    }

    method DeleteTagFulfilled(id: string)
      requires Valid()
      modifies this
      ensures Valid()
      ensures tags == Filter(old(tags), OtherTagId(id))
      ensures loading == old(loading) && error == old(error)
    {
      tags := Filter(tags, OtherTagId(id));
    }

    method MergeTagsFulfilled(ids: seq<string>, merged: Tag)
      requires Valid()
      modifies this
      ensures Valid()
      ensures tags == Merged(old(tags), ids, merged)
      ensures loading == old(loading) && error == old(error)
    {
      tags := Filter(tags, NotListed(ids));
      tags := tags + [merged];
    }
  }

  /** Deleting keeps the other tags in order and removes every tag with the id. */
  lemma DeleteKeepsOrder(tags: seq<Tag>, id: string)
    ensures Subseq(Filter(tags, OtherTagId(id)), tags)
    ensures forall i :: 0 <= i < |Filter(tags, OtherTagId(id))| ==> Filter(tags, OtherTagId(id))[i].id != id
    ensures forall i :: 0 <= i < |tags| && tags[i].id != id ==> tags[i] in Filter(tags, OtherTagId(id))
  {
    FilterIsSubseq(tags, OtherTagId(id));
  }
}
