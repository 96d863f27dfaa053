/** Ordered string-keyed dictionaries: a JavaScript object or a Python dict,
    kept as its pairs in insertion order. */
module Dict {
  import opened Strings

  type Entries<V> = seq<(string, V)>

  function KeyList<V>(e: Entries<V>): (ks: seq<string>)
    ensures |ks| == |e|
    ensures forall i :: 0 <= i < |e| ==> ks[i] == e[i].0
  {
    seq(|e|, i requires 0 <= i < |e| => e[i].0)
  }

  /** A dictionary or object never holds a key twice. */
  predicate UniqueKeys<V>(e: Entries<V>) {
    forall i, j :: 0 <= i < j < |e| ==> e[i].0 != e[j].0
  }

  function Lookup<V>(e: Entries<V>, k: string): (r: Option<V>)
    ensures r.Some? <==> k in KeyList(e)
    decreases |e|
  {
    if |e| == 0 then None
    else if e[0].0 == k then Some(e[0].1)
    else
      assert KeyList(e) == [e[0].0] + KeyList(e[1..]);
      Lookup(e[1..], k)
  }

  /** With unique keys, every stored pair is what a lookup of its key finds. */
  lemma {:induction false} LookupEntry<V>(e: Entries<V>, i: nat)
    requires UniqueKeys(e) && i < |e|
    ensures Lookup(e, e[i].0) == Some(e[i].1)
    decreases i
  {
    if i > 0 {
      assert e[0].0 != e[i].0;
      assert e[1..][i - 1] == e[i];
      LookupEntry(e[1..], i - 1);
    }
  }

  /** A lookup in two concatenated lists finds the first list's pair if it has one. */
  lemma {:induction false} LookupConcat<V>(a: Entries<V>, b: Entries<V>, k: string)
    ensures Lookup(a + b, k) == if Lookup(a, k).Some? then Lookup(a, k) else Lookup(b, k)
    decreases |a|
  {
    if |a| == 0 {
      assert a + b == b;
    } else {
      assert (a + b)[0] == a[0] && (a + b)[1..] == a[1..] + b;
      LookupConcat(a[1..], b, k);
    }
  }

  /** `obj[k] = v` and `d[k] = v`: overwrite in place if the key is there,
      otherwise append the new key at the end. */
  function Set<V>(e: Entries<V>, k: string, v: V): (r: Entries<V>)
    ensures Lookup(r, k) == Some(v)
    ensures forall k' :: k' != k ==> Lookup(r, k') == Lookup(e, k')
    decreases |e|
  {
    if |e| == 0 then [(k, v)]
    else if e[0].0 == k then [(k, v)] + e[1..]
    else [e[0]] + Set(e[1..], k, v)
  }

  /** Setting a key that is not there appends it at the end. */
  lemma {:induction false} SetAbsent<V>(e: Entries<V>, k: string, v: V)
    requires k !in KeyList(e)
    ensures Set(e, k, v) == e + [(k, v)]
    decreases |e|
  {
    if |e| > 0 {
      assert KeyList(e)[0] == e[0].0;
      assert KeyList(e[1..]) == KeyList(e)[1..];
      SetAbsent(e[1..], k, v);
      assert e == [e[0]] + e[1..];
    }
  }

  lemma KeyListCons<V>(x: (string, V), t: Entries<V>)
    ensures KeyList([x] + t) == [x.0] + KeyList(t)
  {
  }

  /** Setting a key keeps every key where it was, adding it last if it was absent. */
  lemma {:induction false} SetPresent<V>(e: Entries<V>, k: string, v: V)
    ensures KeyList(Set(e, k, v)) == if Lookup(e, k).Some? then KeyList(e) else KeyList(e) + [k]
    decreases |e|
  {
    if |e| > 0 {
      var t := e[1..];
      assert e == [e[0]] + t;
      KeyListCons(e[0], t);
      if e[0].0 != k {
        SetPresent(t, k, v);
        SetPastHead(e, k, v);
      } else {
        assert Set(e, k, v) == [(k, v)] + t;
        KeyListCons((k, v), t);
      }
    }
  }

  lemma SetPastHead<V>(e: Entries<V>, k: string, v: V)
    requires |e| > 0 && e[0].0 != k
    requires KeyList(Set(e[1..], k, v)) ==
               if Lookup(e[1..], k).Some? then KeyList(e[1..]) else KeyList(e[1..]) + [k]
    ensures KeyList(Set(e, k, v)) == if Lookup(e, k).Some? then KeyList(e) else KeyList(e) + [k]
  {
    SetHeadKeys(e, k, v);
    KeyListHead(e);
    ConsKeys(e[0].0, KeyList(e[1..]), KeyList(Set(e[1..], k, v)), Lookup(e[1..], k).Some?, k);
  }

  lemma KeyListHead<V>(e: Entries<V>)
    requires |e| > 0
    ensures KeyList(e) == [e[0].0] + KeyList(e[1..])
  {
    assert forall i :: 0 <= i < |e| - 1 ==> e[1..][i] == e[i + 1];
  }

  lemma SetHeadKeys<V>(e: Entries<V>, k: string, v: V)
    requires |e| > 0 && e[0].0 != k
    ensures KeyList(Set(e, k, v)) == [e[0].0] + KeyList(Set(e[1..], k, v))
    ensures Lookup(e, k) == Lookup(e[1..], k)
  {
    KeyListCons(e[0], Set(e[1..], k, v));
  }

  lemma ConsKeys(x: string, ks: seq<string>, kr: seq<string>, present: bool, k: string)
    requires kr == if present then ks else ks + [k]
    ensures [x] + kr == if present then [x] + ks else ([x] + ks) + [k]
  {
    if !present {
      assert [x] + (ks + [k]) == ([x] + ks) + [k];
    }
  }

  lemma SetUniqueKeys<V>(e: Entries<V>, k: string, v: V)
    requires UniqueKeys(e)
    ensures UniqueKeys(Set(e, k, v))
  {
    SetPresent(e, k, v);
    var r := Set(e, k, v);
    var ks := KeyList(e);
    forall i, j | 0 <= i < j < |r| ensures r[i].0 != r[j].0 {
      assert r[i].0 == KeyList(r)[i];
      assert r[j].0 == KeyList(r)[j];
      if j < |ks| {
        assert ks[i] == e[i].0 && ks[j] == e[j].0;
      } else {
        assert ks[i] == e[i].0;
      }
    }
  }

  /** Setting a key no lookup finds appends its pair. */
  lemma SetNew<V>(e: Entries<V>, k: string, v: V)
    requires Lookup(e, k).None?
    ensures Set(e, k, v) == e + [(k, v)]
  {
    SetAbsent(e, k, v);
  }

  lemma LookupSnoc<V>(e: Entries<V>, k: string, v: V, k': string)
    ensures Lookup(e + [(k, v)], k') ==
              if Lookup(e, k').Some? then Lookup(e, k') else if k' == k then Some(v) else None
  {
    LookupConcat(e, [(k, v)], k');
  }

  lemma KeyListConcat<V>(a: Entries<V>, b: Entries<V>)
    ensures KeyList(a + b) == KeyList(a) + KeyList(b)
  {
  }

  /** Two key-unique lists whose keys do not meet concatenate to a key-unique list. */
  lemma ConcatUniqueKeys<V>(a: Entries<V>, b: Entries<V>)
    requires UniqueKeys(a) && UniqueKeys(b)
    requires forall i :: 0 <= i < |b| ==> Lookup(a, b[i].0).None?
    ensures UniqueKeys(a + b)
  {
    forall i, j | 0 <= i < |a| <= j < |a| + |b| ensures (a + b)[i].0 != (a + b)[j].0 {
      assert KeyList(a)[i] == a[i].0;
      assert Lookup(a, a[i].0).Some?;
      assert (a + b)[j] == b[j - |a|];
    }
  }

  /** `d.update(incoming)` in Python: apply the incoming pairs in order. */
  function Update<V>(e: Entries<V>, incoming: Entries<V>): (r: Entries<V>)
    decreases |incoming|
  {
    if |incoming| == 0 then e else Update(Set(e, incoming[0].0, incoming[0].1), incoming[1..])
  }

  /** After an update, incoming keys win and every other old key keeps its value. */
  lemma {:induction false} UpdateLookup<V>(e: Entries<V>, incoming: Entries<V>, k: string)
    requires UniqueKeys(incoming)
    ensures Lookup(Update(e, incoming), k) ==
              if Lookup(incoming, k).Some? then Lookup(incoming, k) else Lookup(e, k)
    decreases |incoming|
  {
    if |incoming| > 0 {
      var h, rest := incoming[0], incoming[1..];
      var e' := Set(e, h.0, h.1);
      assert UniqueKeys(rest);
      UpdateLookup(e', rest, k);
      assert Update(e, incoming) == Update(e', rest);
      if k == h.0 {
        assert Lookup(incoming, k) == Some(h.1);
        assert Lookup(e', k) == Some(h.1);
        forall i | 0 <= i < |rest| ensures KeyList(rest)[i] != k {
          assert rest[i] == incoming[i + 1];
        }
        assert k !in KeyList(rest);
      } else {
        assert Lookup(incoming, k) == Lookup(rest, k);
        assert Lookup(e', k) == Lookup(e, k);
      }
    }
  }

  /** Incoming pairs with fresh, distinct keys are appended in order. */
  lemma {:induction false} UpdateFresh<V>(e: Entries<V>, incoming: Entries<V>)
    requires UniqueKeys(incoming)
    requires forall i :: 0 <= i < |incoming| ==> Lookup(e, incoming[i].0).None?
    ensures Update(e, incoming) == e + incoming
    decreases |incoming|
  {
    if |incoming| > 0 {
      var p, rest := incoming[0], incoming[1..];
      assert Update(e, incoming) == Update(e + [p], rest) by {
        SetNew(e, p.0, p.1);
      }
      assert Update(e + [p], rest) == e + [p] + rest by {
        FreshTail(e, incoming);
        UpdateFresh(e + [p], rest);
      }
      SnocHead(e, incoming);
    }
  }

  lemma SnocHead<V>(e: Entries<V>, incoming: Entries<V>)
    requires |incoming| > 0
    ensures e + [incoming[0]] + incoming[1..] == e + incoming
  {
    assert [incoming[0]] + incoming[1..] == incoming;
  }

  lemma FreshTail<V>(e: Entries<V>, incoming: Entries<V>)
    requires |incoming| > 0 && UniqueKeys(incoming)
    requires forall i :: 0 <= i < |incoming| ==> Lookup(e, incoming[i].0).None?
    ensures UniqueKeys(incoming[1..])
    ensures forall i :: 0 <= i < |incoming| - 1 ==> Lookup(e + [incoming[0]], incoming[1..][i].0).None?
  {
    var p, rest := incoming[0], incoming[1..];
    forall i | 0 <= i < |rest| ensures Lookup(e + [p], rest[i].0).None? {
      assert rest[i] == incoming[i + 1];
      LookupSnoc(e, p.0, p.1, rest[i].0);
    }
  }

  /** Six assignments in a row are an update by the six pairs. */
  lemma UpdateSix<V>(e: Entries<V>, p0: (string, V), p1: (string, V), p2: (string, V),
                     p3: (string, V), p4: (string, V), p5: (string, V))
    ensures Update(e, [p0, p1, p2, p3, p4, p5]) ==
              Set(Set(Set(Set(Set(Set(e, p0.0, p0.1), p1.0, p1.1), p2.0, p2.1), p3.0, p3.1), p4.0, p4.1), p5.0, p5.1)
  {
    var e1 := Set(e, p0.0, p0.1);
    var e2 := Set(e1, p1.0, p1.1);
    var e3 := Set(e2, p2.0, p2.1);
    var e4 := Set(e3, p3.0, p3.1);
    var e5 := Set(e4, p4.0, p4.1);
    assert Update(e, [p0, p1, p2, p3, p4, p5]) == Update(e1, [p1, p2, p3, p4, p5]);
    assert Update(e1, [p1, p2, p3, p4, p5]) == Update(e2, [p2, p3, p4, p5]);
    assert Update(e2, [p2, p3, p4, p5]) == Update(e3, [p3, p4, p5]);
    assert Update(e3, [p3, p4, p5]) == Update(e4, [p4, p5]);
    assert Update(e4, [p4, p5]) == Update(e5, [p5]);
  }

  lemma {:induction false} UpdateUniqueKeys<V>(e: Entries<V>, incoming: Entries<V>)
    requires UniqueKeys(e)
    ensures UniqueKeys(Update(e, incoming))
    decreases |incoming|
  {
    if |incoming| > 0 {
      SetUniqueKeys(e, incoming[0].0, incoming[0].1);
      UpdateUniqueKeys(Set(e, incoming[0].0, incoming[0].1), incoming[1..]);
    }
  }


  /** The value of the last pair with key `k`: what a sequence of assignments
      `obj[k] = v` leaves behind. */
  function LastValue<V>(e: Entries<V>, k: string): (r: Option<V>)
    ensures r.Some? <==> k in KeyList(e)
    decreases |e|
  {
    if |e| == 0 then None
    else
      var n := |e| - 1;
      assert KeyList(e) == KeyList(e[..n]) + [e[n].0];
      if e[n].0 == k then Some(e[n].1) else LastValue(e[..n], k)
  }

  lemma {:induction false} UpdateSnoc<V>(e: Entries<V>, incoming: Entries<V>, p: (string, V))
    ensures Update(e, incoming + [p]) == Set(Update(e, incoming), p.0, p.1)
    decreases |incoming|
  {
    if |incoming| > 0 {
      assert (incoming + [p])[1..] == incoming[1..] + [p];
      UpdateSnoc(Set(e, incoming[0].0, incoming[0].1), incoming[1..], p);
    }
  }

  /** Whatever the incoming pairs, the last assignment to a key wins and keys
      never assigned keep their old value. */
  lemma {:induction false} UpdateLookupLast<V>(e: Entries<V>, incoming: Entries<V>, k: string)
    ensures Lookup(Update(e, incoming), k) ==
              if LastValue(incoming, k).Some? then LastValue(incoming, k) else Lookup(e, k)
    decreases |incoming|
  {
    if |incoming| > 0 {
      var n := |incoming| - 1;
      var front := incoming[..n];
      assert incoming == front + [incoming[n]];
      UpdateSnoc(e, front, incoming[n]);
      UpdateLookupLast(e, front, k);
    }
  }

  /** The pair at index `i` is the last one with its key exactly when no later
      pair repeats that key. */
  lemma {:induction false} LastValueAt<V>(e: Entries<V>, i: nat)
    requires i < |e|
    requires forall j :: i < j < |e| ==> e[j].0 != e[i].0
    ensures LastValue(e, e[i].0) == Some(e[i].1)
    decreases |e|
  {
    var n := |e| - 1;
    if i < n {
      LastValueAt(e[..n], i);
    }
  }
}
