/** String and sequence helpers shared by the frontend and backend models.
    Case folding and whitespace are ASCII only: the characters the source's
    data actually carries (host names, IP addresses, tag keys). */
module Strings {

  datatype Option<+T> = None | Some(value: T)

  /** `o ?? d` in TypeScript, `o or d` in Python for a value that is never falsy */
  function OrElse<T>(o: Option<T>, d: T): T { if o.Some? then o.value else d }

  // ---------------------------------------------------------------- characters

  predicate IsDigit(c: char) { '0' <= c <= '9' }

  predicate IsUpper(c: char) { 'A' <= c <= 'Z' }

  predicate IsHexDigit(c: char) { IsDigit(c) || 'a' <= c <= 'f' || 'A' <= c <= 'F' }

  /** ASCII white space: space, tab, line feed, vertical tab, form feed, carriage return */
  predicate IsSpace(c: char) { c == ' ' || c == '\t' || c == '\n' || c == '\r' || c == 11 as char || c == 12 as char }

  function LowerChar(c: char): (r: char)
    ensures !IsUpper(r)
    ensures !IsUpper(c) ==> r == c
  {
    if IsUpper(c) then (c as int + 32) as char else c
  }

  /** `toLowerCase()` / `lower()` restricted to ASCII letters */
  function ToLower(s: string): (r: string)
    ensures |r| == |s|
    ensures forall i :: 0 <= i < |s| ==> r[i] == LowerChar(s[i])
  {
    seq(|s|, i requires 0 <= i < |s| => LowerChar(s[i]))
  }

  predicate HasUpper(s: string) { exists i :: 0 <= i < |s| && IsUpper(s[i]) }

  lemma ToLowerHasNoUpper(s: string)
    ensures !HasUpper(ToLower(s))
  {}

  lemma ToLowerIdempotent(s: string)
    ensures ToLower(ToLower(s)) == ToLower(s)
  {
  }

  lemma ToLowerConcat(a: string, b: string)
    ensures ToLower(a + b) == ToLower(a) + ToLower(b)
  {
    assert forall i :: 0 <= i < |a + b| ==> ToLower(a + b)[i] == (ToLower(a) + ToLower(b))[i];
  }

  // ------------------------------------------------------------ substrings

  predicate StartsWith(s: string, prefix: string) {
    |prefix| <= |s| && s[..|prefix|] == prefix
  }

  predicate EndsWith(s: string, suffix: string) {
    |suffix| <= |s| && s[|s| - |suffix|..] == suffix
  }

  /** `s.includes(sub)` in JavaScript, `sub in s` in Python */
  predicate Contains(s: string, sub: string) {
    exists i :: 0 <= i <= |s| && OccursAt(s, sub, i)
  }

  predicate OccursAt(s: string, sub: string, i: int) {
    0 <= i <= |s| - |sub| && s[i..i + |sub|] == sub
  }

  /** A string that occurs in `mid` occurs in any string that contains `mid`. */
  lemma ContainsTransitive(s: string, mid: string, sub: string)
    requires Contains(s, mid) && Contains(mid, sub)
    ensures Contains(s, sub)
  {
    var i :| 0 <= i <= |s| && OccursAt(s, mid, i);
    var j :| 0 <= j <= |mid| && OccursAt(mid, sub, j);
    var a, b := s[i + j..i + j + |sub|], mid[j..j + |sub|];
    forall k | 0 <= k < |sub| ensures a[k] == b[k] {
      assert s[i..i + |mid|][j + k] == s[i + j + k];
    }
    assert a == b;
    assert OccursAt(s, sub, i + j);
  }

  /** No upper-case letter occurs in a string without upper-case letters. */
  lemma ContainsNoUpper(s: string, sub: string)
    requires Contains(s, sub) && !HasUpper(s)
    ensures !HasUpper(sub)
  {
    var i :| 0 <= i <= |s| && OccursAt(s, sub, i);
    forall k | 0 <= k < |sub| ensures !IsUpper(sub[k]) {
      assert sub[k] == s[i + k];
    }
  }

  lemma ContainsSuffix(a: string, b: string)
    ensures Contains(a + b, b)
  {
    assert (a + b)[|a|..|a| + |b|] == b;
    assert OccursAt(a + b, b, |a|);
  }

  lemma ContainsPrefix(a: string, b: string)
    ensures Contains(a + b, a)
  {
    assert (a + b)[0..|a|] == a;
    assert OccursAt(a + b, a, 0);
  }

  /** `s.replace(old, new)` in JavaScript with a string pattern: only the first occurrence */
  function ReplaceFirst(s: string, pat: string, rep: string): (r: string)
    requires |pat| > 0
    ensures !Contains(s, pat) ==> r == s
    decreases |s|
  {
    if |s| < |pat| then s
    else if s[..|pat|] == pat then assert OccursAt(s, pat, 0); rep + s[|pat|..]
    else
      var rest := ReplaceFirst(s[1..], pat, rep);
      assert !Contains(s, pat) ==> !Contains(s[1..], pat) by {
        if Contains(s[1..], pat) {
          var i :| 0 <= i <= |s[1..]| && OccursAt(s[1..], pat, i);
          assert s[i + 1..i + 1 + |pat|] == pat;
          assert OccursAt(s, pat, i + 1);
        }
      }
      [s[0]] + rest
  }

  lemma ReplaceFirstAtStart(pat: string, rep: string, rest: string)
    requires |pat| > 0
    ensures ReplaceFirst(pat + rest, pat, rep) == rep + rest
  {
    assert (pat + rest)[..|pat|] == pat;
    assert (pat + rest)[|pat|..] == rest;
  }

  // --------------------------------------------------------------- splitting

  predicate NoChar(s: string, c: char) { forall i :: 0 <= i < |s| ==> s[i] != c }

  /** `s.split(c)` with a one-character separator in JavaScript (and `s.split(c)` in
      Python): the pieces between the separators, always at least one. */
  function Split(s: string, c: char): (r: seq<string>)
    ensures |r| >= 1
    ensures forall k :: 0 <= k < |r| ==> NoChar(r[k], c)
    decreases |s|
  {
    if |s| == 0 then [""]
    else if s[0] == c then [""] + Split(s[1..], c)
    else
      var rest := Split(s[1..], c);
      [[s[0]] + rest[0]] + rest[1..]
  }

  function Join(pieces: seq<string>, c: char): string
    requires |pieces| >= 1
  {
    if |pieces| == 1 then pieces[0] else pieces[0] + [c] + Join(pieces[1..], c)
  }

  /** Splitting loses nothing: the pieces joined by the separator give the string back. */
  lemma {:induction false} JoinSplit(s: string, c: char)
    ensures Join(Split(s, c), c) == s
    decreases |s|
  {
    if |s| == 0 {
    } else if s[0] == c {
      JoinSplit(s[1..], c);
      assert s == [c] + s[1..];
    } else {
      JoinSplit(s[1..], c);
      var rest := Split(s[1..], c);
      if |rest| == 1 {
        assert s == [s[0]] + rest[0];
      } else {
        assert Join(rest, c) == rest[0] + [c] + Join(rest[1..], c);
        assert s == [s[0]] + s[1..];
      }
    }
  }

  /** A piece free of the separator is split off whole. */
  lemma {:induction false} SplitConcat(a: string, c: char, b: string)
    requires NoChar(a, c)
    ensures Split(a + [c] + b, c) == [a] + Split(b, c)
    decreases |a|
  {
    if |a| == 0 {
      assert a + [c] + b == [c] + b;
      assert ([c] + b)[1..] == b;
    } else {
      SplitConcat(a[1..], c, b);
      assert (a + [c] + b)[1..] == a[1..] + [c] + b;
      assert [a[0]] + a[1..] == a;
    }
  }

  lemma {:induction false} SplitNoChar(a: string, c: char)
    requires NoChar(a, c)
    ensures Split(a, c) == [a]
    decreases |a|
  {
    if |a| > 0 {
      SplitNoChar(a[1..], c);
      assert [a[0]] + a[1..] == a;
    }
  }

  // ------------------------------------------------------------- trimming

  function TrimStart(s: string): (r: string)
    ensures |r| <= |s| && r == s[|s| - |r|..]
    ensures |r| > 0 ==> !IsSpace(r[0])
    decreases |s|
  {
    if |s| > 0 && IsSpace(s[0]) then TrimStart(s[1..]) else s
  }

  function TrimEnd(s: string): (r: string)
    ensures |r| <= |s| && r == s[..|r|]
    ensures |r| > 0 ==> !IsSpace(r[|r| - 1])
    decreases |s|
  {
    if |s| > 0 && IsSpace(s[|s| - 1]) then TrimEnd(s[..|s| - 1]) else s
  }

  /** `trim()` in JavaScript, `strip()` in Python (ASCII white space) */
  function Trim(s: string): string { TrimEnd(TrimStart(s)) }

  predicate IsBlank(s: string) { forall i :: 0 <= i < |s| ==> IsSpace(s[i]) }

  lemma {:induction false} TrimStartBlank(s: string)
    ensures TrimStart(s) == "" <==> IsBlank(s)
    decreases |s|
  {
    if |s| > 0 {
      TrimStartBlank(s[1..]);
      if IsSpace(s[0]) {
        assert IsBlank(s) <==> IsBlank(s[1..]) by {
          if IsBlank(s[1..]) {
            forall i | 0 <= i < |s| ensures IsSpace(s[i]) {
              if i > 0 { assert s[i] == s[1..][i - 1]; }
            }
          }
        }
      }
    }
  }

  /** A string trims to the empty string exactly when it is all white space. */
  lemma TrimEmptyIffBlank(s: string)
    ensures Trim(s) == "" <==> IsBlank(s)
  {
    TrimStartBlank(s);
    var t := TrimStart(s);
    if t != "" {
      NonBlankTrimEnd(t);
    }
  }

  lemma {:induction false} NonBlankTrimEnd(t: string)
    requires |t| > 0 && !IsSpace(t[0])
    ensures |TrimEnd(t)| > 0
    decreases |t|
  {
    if |t| > 1 && IsSpace(t[|t| - 1]) {
      NonBlankTrimEnd(t[..|t| - 1]);
    }
  }

  /** Neither end of the string is white space. */
  predicate NoOuterSpace(s: string) {
    |s| == 0 || (!IsSpace(s[0]) && !IsSpace(s[|s| - 1]))
  }

  lemma TrimNoOuterSpace(s: string)
    requires NoOuterSpace(s)
    ensures Trim(s) == s
  {
  }

  /** Trimming leaves no white space at either end. */
  lemma TrimIsTrimmed(s: string)
    ensures NoOuterSpace(Trim(s))
  {
    var t := TrimStart(s);
    var r := TrimEnd(t);
    if |r| > 0 {
      assert r[0] == t[0];
    }
  }

  /** Trimming keeps a character out. */
  lemma TrimKeepsNoChar(s: string, c: char)
    requires NoChar(s, c)
    ensures NoChar(Trim(s), c)
  {
    var t := TrimStart(s);
    assert forall i :: 0 <= i < |t| ==> t[i] == s[|s| - |t| + i];
    var r := TrimEnd(t);
    assert forall i :: 0 <= i < |r| ==> r[i] == t[i];
  }

  /** `s.strip(c)` in Python with one character: drop it from both ends */
  function StripCharStart(s: string, c: char): (r: string)
    decreases |s|
  {
    if |s| > 0 && s[0] == c then StripCharStart(s[1..], c) else s
  }

  function StripCharEnd(s: string, c: char): (r: string)
    decreases |s|
  {
    if |s| > 0 && s[|s| - 1] == c then StripCharEnd(s[..|s| - 1], c) else s
  }

  function StripChar(s: string, c: char): string { StripCharEnd(StripCharStart(s, c), c) }

  predicate AllChar(s: string, c: char) { forall i :: 0 <= i < |s| ==> s[i] == c }

  lemma {:induction false} StripCharEmptyIffAll(s: string, c: char)
    ensures StripChar(s, c) == "" <==> AllChar(s, c)
    decreases |s|
  {
    if |s| > 0 {
      if s[0] == c {
        StripCharEmptyIffAll(s[1..], c);
        assert AllChar(s, c) <==> AllChar(s[1..], c) by {
          if AllChar(s[1..], c) {
            forall i | 0 <= i < |s| ensures s[i] == c {
              if i > 0 { assert s[i] == s[1..][i - 1]; }
            }
          }
        }
      } else {
        StripCharEndKeepsFirst(s, c);
      }
    }
  }

  lemma {:induction false} StripCharEndKeepsFirst(s: string, c: char)
    requires |s| > 0 && s[0] != c
    ensures StripCharEnd(s, c) != ""
    decreases |s|
  {
    if s[|s| - 1] == c {
      assert |s| > 1;
      StripCharEndKeepsFirst(s[..|s| - 1], c);
    }
  }

  /** `message || fallback` for an optional error message: an absent or empty message gives the fallback. */
  function ErrorText(message: Option<string>, fallback: string): (t: string)
    ensures message.Some? && message.value != "" ==> t == message.value
    ensures message.None? || message.value == "" ==> t == fallback
    ensures fallback != "" ==> t != ""
  {
    if message.Some? && message.value != "" then message.value else fallback
  }

  // ------------------------------------------------------------- numbers

  function DigitChar(d: nat): (c: char)
    requires d < 10
    ensures IsDigit(c)
  {
    ('0' as int + d) as char
  }

  function DigitValue(c: char): (d: nat)
    requires IsDigit(c)
    ensures d < 10 && DigitChar(d) == c
  {
    c as int - '0' as int
  }

  /** Decimal rendering of a natural number, as `String(n)` and `str(n)` give it */
  function NatToString(n: nat): (s: string)
    ensures |s| >= 1
    ensures forall i :: 0 <= i < |s| ==> IsDigit(s[i])
    decreases n
  {
    if n < 10 then [DigitChar(n)] else NatToString(n / 10) + [DigitChar(n % 10)]
  }

  function IntToString(i: int): string {
    if i < 0 then "-" + NatToString(-i) else NatToString(i)
  }

  predicate AllDigits(s: string) { forall i :: 0 <= i < |s| ==> IsDigit(s[i]) }

  /** The value of a string of decimal digits (leading zeros allowed, as `Number("007")`) */
  function DigitsValue(s: string): nat
    requires AllDigits(s)
    decreases |s|
  {
    if |s| == 0 then 0 else DigitsValue(s[..|s| - 1]) * 10 + DigitValue(s[|s| - 1])
  }

  /** Reading back a rendered number gives the number. */
  lemma {:induction false} DigitsValueOfNatToString(n: nat)
    ensures DigitsValue(NatToString(n)) == n
    decreases n
  {
    if n >= 10 {
      DigitsValueOfNatToString(n / 10);
      var s := NatToString(n);
      assert s[..|s| - 1] == NatToString(n / 10);
    }
  }

  /** The rendering of a two-digit number. */
  lemma TwoDigits(n: nat, d1: char, d0: char)
    requires 10 <= n < 100 && d1 == DigitChar(n / 10) && d0 == DigitChar(n % 10)
    ensures NatToString(n) == [d1, d0]
  {
  }

  /** The rendering of a three-digit number. */
  lemma ThreeDigits(n: nat, d2: char, d1: char, d0: char)
    requires 100 <= n < 1000 && d2 == DigitChar(n / 100) && d1 == DigitChar(n / 10 % 10) && d0 == DigitChar(n % 10)
    ensures NatToString(n) == [d2, d1, d0]
  {
    TwoDigits(n / 10, d2, d1);
  }

  /** Distinct numbers render to distinct strings. */
  lemma NatToStringInjective(m: nat, n: nat)
    requires NatToString(m) == NatToString(n)
    ensures m == n
  {
    DigitsValueOfNatToString(m);
    DigitsValueOfNatToString(n);
  }

  lemma {:induction false} NatToStringLength(n: nat, k: nat)
    requires n < Pow10(k) && k >= 1
    ensures |NatToString(n)| <= k
    decreases n
  {
    if n >= 10 {
      NatToStringLength(n / 10, k - 1);
    }
  }

  function Pow10(k: nat): (p: nat)
    ensures p >= 1
  {
    if k == 0 then 1 else 10 * Pow10(k - 1)
  }

  // ---------------------------------------------------------- sequences

  /** `xs.filter(p)`: the elements that pass, in their original order */
  function Filter<T(==)>(xs: seq<T>, p: T -> bool): (r: seq<T>)
    ensures |r| <= |xs|
    ensures forall i :: 0 <= i < |r| ==> r[i] in xs && p(r[i])
    ensures forall i :: 0 <= i < |xs| && p(xs[i]) ==> xs[i] in r
    decreases |xs|
  {
    if |xs| == 0 then []
    else
      var rest := Filter(xs[1..], p);
      assert forall i :: 1 <= i < |xs| ==> xs[i] == xs[1..][i - 1];
      if p(xs[0]) then [xs[0]] + rest else rest
  }

  /** `a` is an order-preserving subsequence of `b` */
  predicate Subseq<T(==)>(a: seq<T>, b: seq<T>)
    decreases |b|
  {
    if |a| == 0 then true
    else if |b| == 0 then false
    else if a[0] == b[0] then Subseq(a[1..], b[1..])
    else Subseq(a, b[1..])
  }

  lemma {:induction false} FilterIsSubseq<T>(xs: seq<T>, p: T -> bool)
    ensures Subseq(Filter(xs, p), xs)
    decreases |xs|
  {
    if |xs| > 0 {
      FilterIsSubseq(xs[1..], p);
      var rest := Filter(xs[1..], p);
      if !p(xs[0]) {
        SubseqSkip(rest, xs);
      }
    }
  }

  lemma {:induction false} SubseqSkip<T>(a: seq<T>, b: seq<T>)
    requires |b| > 0 && Subseq(a, b[1..])
    ensures Subseq(a, b)
    decreases |b|, 0
  {
    if |a| > 0 && a[0] == b[0] {
      SubseqDropHead(a, b[1..]);
    }
  }

  lemma {:induction false} SubseqDropHead<T>(a: seq<T>, b: seq<T>)
    requires |a| > 0 && Subseq(a, b)
    ensures Subseq(a[1..], b)
    decreases |b|, 1
  {
    if a[0] == b[0] {
      SubseqSkip(a[1..], b);
    } else {
      SubseqDropHead(a, b[1..]);
      SubseqSkip(a[1..], b);
    }
  }

  /** Every element of a subsequence sits at some index of the whole. */
  lemma {:induction false} SubseqMember<T>(a: seq<T>, b: seq<T>)
    requires Subseq(a, b)
    ensures forall j :: 0 <= j < |a| ==> exists m :: 0 <= m < |b| && b[m] == a[j]
    decreases |b|
  {
    if |a| > 0 && |b| > 0 {
      if a[0] == b[0] {
        SubseqMember(a[1..], b[1..]);
        forall j | 0 <= j < |a| ensures exists m :: 0 <= m < |b| && b[m] == a[j] {
          if j == 0 {
            assert b[0] == a[0];
          } else {
            assert a[j] == a[1..][j - 1];
            var m :| 0 <= m < |b[1..]| && b[1..][m] == a[1..][j - 1];
            assert b[m + 1] == a[j];
          }
        }
      } else {
        SubseqMember(a, b[1..]);
        forall j | 0 <= j < |a| ensures exists m :: 0 <= m < |b| && b[m] == a[j] {
          var m :| 0 <= m < |b[1..]| && b[1..][m] == a[j];
          assert b[m + 1] == a[j];
        }
      }
    }
  }

  /** No element occurs twice. */
  predicate Distinct<T(==)>(xs: seq<T>) {
    forall i, j :: 0 <= i < j < |xs| ==> xs[i] != xs[j]
  }

  lemma {:induction false} SubseqDistinct<T>(a: seq<T>, b: seq<T>)
    requires Subseq(a, b) && Distinct(b)
    ensures Distinct(a)
    decreases |b|
  {
    if |a| > 0 && |b| > 0 {
      assert Distinct(b[1..]) by {
        forall i, j | 0 <= i < j < |b[1..]| ensures b[1..][i] != b[1..][j] {
          assert b[1..][i] == b[i + 1] && b[1..][j] == b[j + 1];
        }
      }
      if a[0] == b[0] {
        SubseqDistinct(a[1..], b[1..]);
        SubseqMember(a[1..], b[1..]);
        forall j | 0 < j < |a| ensures a[0] != a[j] {
          assert a[j] == a[1..][j - 1];
          var m :| 0 <= m < |b[1..]| && b[1..][m] == a[j];
          assert b[m + 1] == a[j];
        }
        forall i, j | 0 < i < j < |a| ensures a[i] != a[j] {
          assert a[i] == a[1..][i - 1] && a[j] == a[1..][j - 1];
        }
      } else {
        SubseqDistinct(a, b[1..]);
      }
    }
  }

  /** Filtering with a predicate that every element passes changes nothing. */
  lemma {:induction false} FilterAll<T>(xs: seq<T>, p: T -> bool)
    requires forall x :: x in xs ==> p(x)
    ensures Filter(xs, p) == xs
    decreases |xs|
  {
    if |xs| > 0 {
      assert xs[0] in xs;
      assert forall x :: x in xs[1..] ==> x in xs;
      FilterAll(xs[1..], p);
      assert [xs[0]] + xs[1..] == xs;
    }
  }

  lemma {:induction false} FilterConcat<T>(xs: seq<T>, ys: seq<T>, p: T -> bool)
    ensures Filter(xs + ys, p) == Filter(xs, p) + Filter(ys, p)
    decreases |xs|
  {
    if |xs| > 0 {
      FilterConcat(xs[1..], ys, p);
      assert (xs + ys)[1..] == xs[1..] + ys;
    } else {
      assert xs + ys == ys;
    }
  }

  /** Filtering with a predicate that implies another keeps a subsequence of what
      the weaker one keeps. */
  lemma {:induction false} FilterStronger<T>(xs: seq<T>, p: T -> bool, q: T -> bool)
    requires forall i :: 0 <= i < |xs| && p(xs[i]) ==> q(xs[i])
    ensures Subseq(Filter(xs, p), Filter(xs, q))
    decreases |xs|
  {
    if |xs| > 0 {
      assert forall i :: 1 <= i < |xs| ==> xs[i] == xs[1..][i - 1];
      FilterStronger(xs[1..], p, q);
      var a, b := Filter(xs[1..], p), Filter(xs[1..], q);
      if p(xs[0]) {
        assert ([xs[0]] + a)[1..] == a && ([xs[0]] + b)[1..] == b;
      } else if q(xs[0]) {
        assert ([xs[0]] + b)[1..] == b;
        SubseqSkip(a, [xs[0]] + b);
      }
    }
  }

  function Count<T>(xs: seq<T>, p: T -> bool): nat
    decreases |xs|
  {
    if |xs| == 0 then 0 else (if p(xs[0]) then 1 else 0) + Count(xs[1..], p)
  }

  /** The elements a filter keeps and the ones it drops add up to the input. */
  lemma {:induction false} FilterCount<T>(xs: seq<T>, p: T -> bool)
    ensures |Filter(xs, p)| == Count(xs, p)
    decreases |xs|
  {
    if |xs| > 0 { FilterCount(xs[1..], p); }
  }
}
