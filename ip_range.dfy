/** The excluded-IP-range editor: a syntactic check for CIDR-style ranges
    (`a.b.c.d` with an optional `/n` prefix length, as in section 3.1 of RFC 4632)
    and a duplicate-free list the user adds to and removes from. */
module IpRanges {
  import opened Strings

  /** The four ranges the editor starts with: loopback and the three private
      blocks of section 3 of RFC 1918. */
  const DefaultExcludedRanges: seq<string> := ["127.0.0.0/8", "10.0.0.0/8", "172.16.0.0/12", "192.168.0.0/16"]

  const EmptyInputError: string := "Please enter an IP range"
  const InvalidFormatError: string := "Invalid IP range format. Use format: xxx.xxx.xxx.xxx/xx"
  const DuplicateError: string := "This IP range is already excluded"

  predicate DigitRun(s: string, lo: nat, hi: nat) {
    lo <= |s| <= hi && AllDigits(s)
  }

  /** `/^(\d{1,3}\.){3}\d{1,3}(\/\d{1,2})?$/`: four dot-separated runs of one to
      three digits, then optionally `/` and one or two digits. */
  predicate MatchesIpPattern(s: string) {
    var parts := Split(s, '/');
    (|parts| == 1 || (|parts| == 2 && DigitRun(parts[1], 1, 2))) &&
    var groups := Split(parts[0], '.');
    |groups| == 4 && forall i :: 0 <= i < 4 ==> DigitRun(groups[i], 1, 3)
  }

  /** `isValidIPRange`: the pattern, every octet at most 255, and a prefix length
      of at most 32 when one is given. Host bits are not looked at. */
  predicate IsValidIpRange(s: string) {
    MatchesIpPattern(s) &&
    var parts := Split(s, '/');
    var octets := Split(parts[0], '.');
    (forall i :: 0 <= i < 4 ==> DigitsValue(octets[i]) <= 255) &&
    (|parts| == 1 || DigitsValue(parts[1]) <= 32)
  }

  /** The canonical text of an address with an optional prefix length. */
  function RangeText(a: nat, b: nat, c: nat, d: nat, prefix: Option<nat>): string {
    var ip := NatToString(a) + "." + NatToString(b) + "." + NatToString(c) + "." + NatToString(d);
    if prefix.None? then ip else ip + "/" + NatToString(prefix.value)
  }

  lemma DigitsNoChar(s: string, c: char)
    requires AllDigits(s) && !IsDigit(c)
    ensures NoChar(s, c)
  {
  }

  lemma SplitDotted(a: string, b: string, c: string, d: string)
    requires AllDigits(a) && AllDigits(b) && AllDigits(c) && AllDigits(d)
    ensures Split(a + "." + b + "." + c + "." + d, '.') == [a, b, c, d]
    ensures NoChar(a + "." + b + "." + c + "." + d, '/')
  {
    DigitsNoChar(a, '.');
    DigitsNoChar(b, '.');
    DigitsNoChar(c, '.');
    DigitsNoChar(d, '.');
    assert a + "." + b + "." + c + "." + d == a + ['.'] + (b + ['.'] + (c + ['.'] + d));
    SplitConcat(a, '.', b + ['.'] + (c + ['.'] + d));
    SplitConcat(b, '.', c + ['.'] + d);
    SplitConcat(c, '.', d);
    SplitNoChar(d, '.');
  }

  lemma OctetDigits(n: nat)
    requires n <= 255
    ensures DigitRun(NatToString(n), 1, 3)
  {
    NatToStringLength(n, 3);
  }

  /** Every canonical rendering of octets at most 255 and a prefix length at most
      32 is accepted. */
  lemma CanonicalRangeValid(a: nat, b: nat, c: nat, d: nat, prefix: Option<nat>)
    requires a <= 255 && b <= 255 && c <= 255 && d <= 255
    requires prefix.Some? ==> prefix.value <= 32
    ensures IsValidIpRange(RangeText(a, b, c, d, prefix))
  {
    var sa, sb, sc, sd := NatToString(a), NatToString(b), NatToString(c), NatToString(d);
    OctetDigits(a);
    OctetDigits(b);
    OctetDigits(c);
    OctetDigits(d);
    var ip := sa + "." + sb + "." + sc + "." + sd;
    SplitDotted(sa, sb, sc, sd);
    DigitsValueOfNatToString(a);
    DigitsValueOfNatToString(b);
    DigitsValueOfNatToString(c);
    DigitsValueOfNatToString(d);
    if prefix.None? {
      SplitNoChar(ip, '/');
    } else {
      var sn := NatToString(prefix.value);
      NatToStringLength(prefix.value, 2);
      DigitsValueOfNatToString(prefix.value);
      assert ip + "/" + sn == ip + ['/'] + sn;
      DigitsNoChar(sn, '/');
      SplitConcat(ip, '/', sn);
      SplitNoChar(sn, '/');
    }
  }

  lemma LoopbackDefaultValid()
    ensures IsValidIpRange("127.0.0.0/8")
  {
    ThreeDigits(127, '1', '2', '7');
    assert RangeText(127, 0, 0, 0, Some(8)) == "127" + "." + "0" + "." + "0" + "." + "0" + "/" + "8";
    assert "127" + "." + "0" + "." + "0" + "." + "0" + "/" + "8" == "127.0.0.0/8";
    CanonicalRangeValid(127, 0, 0, 0, Some(8));
  }

  lemma TenDefaultValid()
    ensures IsValidIpRange("10.0.0.0/8")
  {
    TwoDigits(10, '1', '0');
    assert RangeText(10, 0, 0, 0, Some(8)) == "10" + "." + "0" + "." + "0" + "." + "0" + "/" + "8";
    assert "10" + "." + "0" + "." + "0" + "." + "0" + "/" + "8" == "10.0.0.0/8";
    CanonicalRangeValid(10, 0, 0, 0, Some(8));
  }

  lemma OneSevenTwoDefaultValid()
    ensures IsValidIpRange("172.16.0.0/12")
  {
    ThreeDigits(172, '1', '7', '2');
    TwoDigits(16, '1', '6');
    TwoDigits(12, '1', '2');
    assert RangeText(172, 16, 0, 0, Some(12)) == "172" + "." + "16" + "." + "0" + "." + "0" + "/" + "12";
    assert "172" + "." + "16" + "." + "0" + "." + "0" + "/" + "12" == "172.16.0.0/12";
    CanonicalRangeValid(172, 16, 0, 0, Some(12));
  }

  lemma OneNineTwoDefaultValid()
    ensures IsValidIpRange("192.168.0.0/16")
  {
    ThreeDigits(192, '1', '9', '2');
    ThreeDigits(168, '1', '6', '8');
    TwoDigits(16, '1', '6');
    assert RangeText(192, 168, 0, 0, Some(16)) == "192" + "." + "168" + "." + "0" + "." + "0" + "/" + "16";
    assert "192" + "." + "168" + "." + "0" + "." + "0" + "/" + "16" == "192.168.0.0/16";
    CanonicalRangeValid(192, 168, 0, 0, Some(16));
  }

  /** The defaults are all accepted. */
  lemma DefaultsValid()
    ensures forall i :: 0 <= i < |DefaultExcludedRanges| ==> IsValidIpRange(DefaultExcludedRanges[i])
  {
    var d := DefaultExcludedRanges;
    forall i | 0 <= i < |d| ensures IsValidIpRange(d[i]) {
      if i == 0 {
        assert d[i] == "127.0.0.0/8";
        LoopbackDefaultValid();
      } else if i == 1 {
        assert d[i] == "10.0.0.0/8";
        TenDefaultValid();
      } else if i == 2 {
        assert d[i] == "172.16.0.0/12";
        OneSevenTwoDefaultValid();
      } else {
        assert d[i] == "192.168.0.0/16";
        OneNineTwoDefaultValid();
      }
    }
  }

  /** The defaults are pairwise distinct: their second characters differ. */
  lemma DefaultsDistinct()
    ensures Distinct(DefaultExcludedRanges)
  {
    var d := DefaultExcludedRanges;
    var second := seq(4, i requires 0 <= i < 4 => d[i][1]);
    assert second == "2079";
    forall i, j | 0 <= i < j < |d| ensures d[i] != d[j] {
      assert second[i] != second[j];
    }
  }

  /** A range whose host bits are set is still accepted. */
  lemma HostBitsNotChecked()
    ensures IsValidIpRange("10.0.0.1/8")
  {
    TwoDigits(10, '1', '0');
    assert RangeText(10, 0, 0, 1, Some(8)) == "10" + "." + "0" + "." + "0" + "." + "1" + "/" + "8";
    assert "10" + "." + "0" + "." + "0" + "." + "1" + "/" + "8" == "10.0.0.1/8";
    CanonicalRangeValid(10, 0, 0, 1, Some(8));
  }

  /** An address with an octet above 255 is refused. */
  lemma LargeOctetRefused(a: string, b: string, c: string, d: string)
    requires AllDigits(a) && AllDigits(b) && AllDigits(c) && AllDigits(d)
    requires DigitsValue(a) > 255
    ensures !IsValidIpRange(a + "." + b + "." + c + "." + d)
  {
    var ip := a + "." + b + "." + c + "." + d;
    SplitDotted(a, b, c, d);
    SplitNoChar(ip, '/');
    assert Split(Split(ip, '/')[0], '.')[0] == a;
  }

  /** A prefix length above 32 is refused. */
  lemma LongPrefixRefused(ip: string, n: string)
    requires NoChar(ip, '/') && AllDigits(n) && DigitsValue(n) > 32
    ensures !IsValidIpRange(ip + "/" + n)
  {
    assert ip + "/" + n == ip + ['/'] + n;
    DigitsNoChar(n, '/');
    SplitConcat(ip, '/', n);
    SplitNoChar(n, '/');
  }

  lemma OutOfRangeExamples()
    ensures !IsValidIpRange("256.0.0.0")
    ensures !IsValidIpRange("1.2.3.4/33")
  {
    ThreeDigits(256, '2', '5', '6');
    DigitsValueOfNatToString(256);
    assert "256.0.0.0" == "256" + "." + "0" + "." + "0" + "." + "0";
    LargeOctetRefused("256", "0", "0", "0");
    TwoDigits(33, '3', '3');
    DigitsValueOfNatToString(33);
    assert "1.2.3.4/33" == "1.2.3.4" + "/" + "33";
    LongPrefixRefused("1.2.3.4", "33");
  }

  /** The editor's state. `excludedRanges` starts with the defaults. */
  class IpRangeExclusion {
    var excludedRanges: seq<string>
    var newRange: string
    var error: Option<string>

    /** No range is listed twice. */
    predicate Valid()
      reads this
    {
      Distinct(excludedRanges)
    }

    constructor ()
      ensures Valid()
      ensures excludedRanges == DefaultExcludedRanges && newRange == "" && error.None?
    {
      excludedRanges := DefaultExcludedRanges;
      newRange := "";
      error := None;
      DefaultsDistinct();
    }

    /** Typing in the input replaces its text and clears the error. */
    method SetNewRange(text: string)
      modifies this
      ensures newRange == text && error.None? && excludedRanges == old(excludedRanges)
    {
      newRange := text;
      error := None;
    }

    /** `addRange`; `reported` is the list passed to `onRangesChange`, if it is called. */
    method AddRange() returns (reported: Option<seq<string>>)
      requires Valid()
      modifies this
      ensures Valid()
      ensures old(newRange) == "" ==>
                error == Some(EmptyInputError) && excludedRanges == old(excludedRanges) &&
                newRange == old(newRange) && reported.None?
      ensures old(newRange) != "" && !IsValidIpRange(old(newRange)) ==>
                error == Some(InvalidFormatError) && excludedRanges == old(excludedRanges) &&
                newRange == old(newRange) && reported.None?
      ensures IsValidIpRange(old(newRange)) && old(newRange) in old(excludedRanges) ==>
                error == Some(DuplicateError) && excludedRanges == old(excludedRanges) &&
                newRange == old(newRange) && reported.None?
      ensures IsValidIpRange(old(newRange)) && old(newRange) !in old(excludedRanges) ==>
                error.None? && excludedRanges == old(excludedRanges) + [old(newRange)] &&
                newRange == "" && reported == Some(excludedRanges)
    {
      if newRange == "" {
        error := Some(EmptyInputError);
        return None;
      }
      if !IsValidIpRange(newRange) {
        error := Some(InvalidFormatError);
        return None;
      }
      if newRange in excludedRanges {
        error := Some(DuplicateError);
        return None;
      }
      error := None;
      var updated := excludedRanges + [newRange];
      excludedRanges := updated;
      newRange := "";
      reported := Some(updated);
    }

    /** `removeRange`: keep every other range in order and always report the list. */
    method RemoveRange(range: string) returns (reported: seq<string>)
      requires Valid()
      modifies this
      ensures Valid()
      ensures excludedRanges == Without(old(excludedRanges), range) && reported == excludedRanges
      ensures newRange == old(newRange) && error == old(error)
    {
      var updated := Without(excludedRanges, range);
      WithoutKeepsDistinct(excludedRanges, range);
      excludedRanges := updated;
      reported := updated;
    }
  }

  function OtherThan(range: string): string -> bool {
    (r: string) => r != range
  }

  /** `ranges.filter(r => r !== range)`. */
  function Without(ranges: seq<string>, range: string): (rs: seq<string>)
    ensures Subseq(rs, ranges)
    ensures range !in rs
    ensures forall i :: 0 <= i < |ranges| && ranges[i] != range ==> ranges[i] in rs
  {
    FilterIsSubseq(ranges, OtherThan(range));
    Filter(ranges, OtherThan(range))
  }

  lemma WithoutKeepsDistinct(ranges: seq<string>, range: string)
    requires Distinct(ranges)
    ensures Distinct(Without(ranges, range))
  {
    SubseqDistinct(Without(ranges, range), ranges);
  }

  /** Removing a range that is not listed leaves the list equal. */
  lemma WithoutAbsent(ranges: seq<string>, range: string)
    requires range !in ranges
    ensures Without(ranges, range) == ranges
  {
    FilterAll(ranges, OtherThan(range));
  }

  /** Adding a new range and removing it again restores the list. */
  lemma RemoveAfterAdd(ranges: seq<string>, range: string)
    requires range !in ranges
    ensures Without(ranges + [range], range) == ranges
  {
    FilterConcat(ranges, [range], OtherThan(range));
    FilterAll(ranges, OtherThan(range));
    assert Filter([range], OtherThan(range)) == [];
  }

  /** A successful add keeps the list duplicate-free. */
  lemma AppendFreshDistinct(ranges: seq<string>, range: string)
    requires Distinct(ranges) && range !in ranges
    ensures Distinct(ranges + [range])
  {
  }
}
