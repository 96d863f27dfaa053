/** Chart colour helpers: a `#RRGGBB` colour (section 5.2 of CSS Color Module
    Level 4) is turned into an `rgba(r, g, b, a)` string by reading each pair of
    hex digits with `parseInt(…, 16)`, and a gradient is a colour with four
    fixed opacities. */
module ChartColors {
  import opened Strings

  function HexDigitValue(c: char): (v: nat)
    requires IsHexDigit(c)
    ensures v < 16
  {
    if IsDigit(c) then c as int - '0' as int
    else if 'a' <= c <= 'f' then c as int - 'a' as int + 10
    else c as int - 'A' as int + 10
  }

  predicate AllHex(s: string) { forall i :: 0 <= i < |s| ==> IsHexDigit(s[i]) }

  /** The value of a string of hex digits, most significant first. */
  function HexValue(s: string): nat
    requires AllHex(s)
    decreases |s|
  {
    if |s| == 0 then 0 else HexValue(s[..|s| - 1]) * 16 + HexDigitValue(s[|s| - 1])
  }

  /** The longest prefix of hex digits. */
  function HexPrefix(s: string): string
    decreases |s|
  {
    if |s| == 0 || !IsHexDigit(s[0]) then "" else [s[0]] + HexPrefix(s[1..])
  }

  lemma {:induction false} HexPrefixIsHex(s: string)
    ensures AllHex(HexPrefix(s))
    decreases |s|
  {
    if |s| > 0 && IsHexDigit(s[0]) { HexPrefixIsHex(s[1..]); }
  }

  /** The leading white space skipped by `parseInt`. */
  function SkipSpace(s: string): string
    decreases |s|
  {
    if |s| > 0 && IsSpace(s[0]) then SkipSpace(s[1..]) else s
  }

  /** `parseInt(s, 16)`: leading white space, an optional sign and an optional
      `0x`, then the longest run of hex digits; `None` is `NaN`. */
  function ParseInt16(s: string): (r: Option<int>)
  {
    var t := SkipSpace(s);
    var negative := |t| > 0 && t[0] == '-';
    var unsigned := if |t| > 0 && (t[0] == '-' || t[0] == '+') then t[1..] else t;
    var body := if StartsWith(unsigned, "0x") || StartsWith(unsigned, "0X") then unsigned[2..] else unsigned;
    var digits := HexPrefix(body);
    HexPrefixIsHex(body);
    if digits == "" then None
    else Some(if negative then -(HexValue(digits) as int) else HexValue(digits))
  }

  /** `String(n)` of the parse result. */
  function NumText(r: Option<int>): string {
    if r.None? then "NaN" else IntToString(r.value)
  }

  /** `str.substring(a, b)` for `0 <= a <= b`: the indices are clamped to the length. */
  function Substring(s: string, a: nat, b: nat): string
    requires a <= b
  {
    if a >= |s| then "" else s[a..if b <= |s| then b else |s|]
  }

  datatype Channels = Channels(r: Option<int>, g: Option<int>, b: Option<int>)

  /** The three channel values read from a colour string. */
  function ChannelsOf(color: string): Channels {
    var hex := ReplaceFirst(color, "#", "");
    Channels(ParseInt16(Substring(hex, 0, 2)), ParseInt16(Substring(hex, 2, 4)), ParseInt16(Substring(hex, 4, 6)))
  }

  /** `getColorWithOpacity`; `opacity` is the JavaScript rendering of the number. */
  function ColorWithOpacity(color: string, opacity: string): (r: string)
    ensures StartsWith(r, "rgba(") && EndsWith(r, ", " + opacity + ")")
  {
    Rgba(ChannelsOf(color), opacity)
  }

  /** The `rgba(…)` text of three channel values and an opacity. */
  function Rgba(c: Channels, opacity: string): (r: string)
    ensures StartsWith(r, "rgba(") && EndsWith(r, ", " + opacity + ")")
  {
    RgbaAffixes(NumText(c.r) + ", " + NumText(c.g) + ", " + NumText(c.b), opacity);
    "rgba(" + NumText(c.r) + ", " + NumText(c.g) + ", " + NumText(c.b) + ", " + opacity + ")"
  }

  lemma RgbaAffixes(channels: string, opacity: string)
    ensures var r := "rgba(" + channels + ", " + opacity + ")";
            StartsWith(r, "rgba(") && EndsWith(r, ", " + opacity + ")")
  {
    var r := "rgba(" + channels + ", " + opacity + ")";
    assert r == "rgba(" + channels + (", " + opacity + ")");
    assert r[..5] == "rgba(";
    assert r[|r| - |", " + opacity + ")"|..] == ", " + opacity + ")";
  }

  /** A `#` followed by exactly six hex digits. */
  predicate IsHexColor(c: string) {
    |c| == 7 && c[0] == '#' && AllHex(c[1..])
  }

  lemma HexPairValue(s: string)
    requires |s| == 2 && AllHex(s)
    ensures ParseInt16(s) == Some(16 * HexDigitValue(s[0]) + HexDigitValue(s[1]))
    ensures ParseInt16(s).value <= 255
  {
    assert !IsSpace(s[0]) && s[0] != '-' && s[0] != '+';
    assert SkipSpace(s) == s;
    assert !StartsWith(s, "0x") && !StartsWith(s, "0X");
    assert HexPrefix(s[1..]) == s[1..];
    assert HexPrefix(s) == s;
    assert s[..1] == [s[0]];
    assert HexValue(s[..1]) == HexDigitValue(s[0]);
  }

  lemma StripHash(c: string, hex: string)
    requires c == "#" + hex
    ensures ReplaceFirst(c, "#", "") == hex
  {
    ReplaceFirstAtStart("#", "", hex);
  }

  /** `color.replace('#', '')` on a `#RRGGBB` colour drops the leading `#`. */
  lemma HexOfColor(c: string)
    requires IsHexColor(c)
    ensures ReplaceFirst(c, "#", "") == c[1..]
    ensures Substring(c[1..], 0, 2) == c[1..3] && Substring(c[1..], 2, 4) == c[3..5]
    ensures Substring(c[1..], 4, 6) == c[5..7]
    ensures AllHex(c[1..3]) && AllHex(c[3..5]) && AllHex(c[5..7])
  {
    StripHash(c, c[1..]);
  }

  /** A `#RRGGBB` colour decodes to the values of its three digit pairs, each at
      most 255. */
  lemma DecodeHexColor(c: string)
    requires IsHexColor(c)
    ensures ChannelsOf(c).r == Some(16 * HexDigitValue(c[1]) + HexDigitValue(c[2]))
    ensures ChannelsOf(c).g == Some(16 * HexDigitValue(c[3]) + HexDigitValue(c[4]))
    ensures ChannelsOf(c).b == Some(16 * HexDigitValue(c[5]) + HexDigitValue(c[6]))
    ensures ChannelsOf(c).r.value <= 255 && ChannelsOf(c).g.value <= 255 && ChannelsOf(c).b.value <= 255
  {
    RedChannel(c);
    GreenChannel(c);
    BlueChannel(c);
  }

  lemma RedChannel(c: string)
    requires IsHexColor(c)
    ensures ChannelsOf(c).r == Some(16 * HexDigitValue(c[1]) + HexDigitValue(c[2]))
    ensures 16 * HexDigitValue(c[1]) + HexDigitValue(c[2]) <= 255
  {
    assert ParseInt16(c[1..3]) == Some(16 * HexDigitValue(c[1]) + HexDigitValue(c[2])) by {
      PairsHex(c);
      PairOf(c[1..3], c[1], c[2]);
    }
    assert ChannelsOf(c).r == ParseInt16(c[1..3]) by { ChannelsOfPairs(c); }
  }

  lemma GreenChannel(c: string)
    requires IsHexColor(c)
    ensures ChannelsOf(c).g == Some(16 * HexDigitValue(c[3]) + HexDigitValue(c[4]))
    ensures 16 * HexDigitValue(c[3]) + HexDigitValue(c[4]) <= 255
  {
    assert ParseInt16(c[3..5]) == Some(16 * HexDigitValue(c[3]) + HexDigitValue(c[4])) by {
      PairsHex(c);
      PairOf(c[3..5], c[3], c[4]);
    }
    assert ChannelsOf(c).g == ParseInt16(c[3..5]) by { ChannelsOfPairs(c); }
  }

  lemma BlueChannel(c: string)
    requires IsHexColor(c)
    ensures ChannelsOf(c).b == Some(16 * HexDigitValue(c[5]) + HexDigitValue(c[6]))
    ensures 16 * HexDigitValue(c[5]) + HexDigitValue(c[6]) <= 255
  {
    assert ParseInt16(c[5..7]) == Some(16 * HexDigitValue(c[5]) + HexDigitValue(c[6])) by {
      PairsHex(c);
      PairOf(c[5..7], c[5], c[6]);
    }
    assert ChannelsOf(c).b == ParseInt16(c[5..7]) by { ChannelsOfPairs(c); }
  }

  lemma PairsHex(c: string)
    requires IsHexColor(c)
    ensures AllHex(c[1..3]) && AllHex(c[3..5]) && AllHex(c[5..7])
  {
    HexOfColor(c);
  }

  lemma PairOf(p: string, hi: char, lo: char)
    requires |p| == 2 && AllHex(p) && p[0] == hi && p[1] == lo
    ensures IsHexDigit(hi) && IsHexDigit(lo)
    ensures ParseInt16(p) == Some(16 * HexDigitValue(hi) + HexDigitValue(lo))
    ensures 16 * HexDigitValue(hi) + HexDigitValue(lo) <= 255
  {
    HexPairValue(p);
  }

  /** The three channels are read from the three digit pairs after the `#`. */
  lemma ChannelsOfPairs(c: string)
    requires IsHexColor(c)
    ensures ChannelsOf(c).r == ParseInt16(c[1..3])
    ensures ChannelsOf(c).g == ParseInt16(c[3..5])
    ensures ChannelsOf(c).b == ParseInt16(c[5..7])
  {
    HexOfColor(c);
  }

  /** Only the first `#` goes: a doubled `#` leaves one in the first pair, which
      reads as `NaN`. */
  lemma DoubleHashIsNaN(rest: string)
    ensures ChannelsOf("##" + rest).r.None?
  {
    StripHash("##" + rest, "#" + rest);
    var hex := "#" + rest;
    var p := Substring(hex, 0, 2);
    assert p[0] == '#';
    assert SkipSpace(p) == p;
    assert !StartsWith(p, "0x") && !StartsWith(p, "0X");
  }

  const Primary: string := "#60A5FA"
  const Secondary: string := "#3B82F6"
  const Tertiary: string := "#2563EB"
  const Quaternary: string := "#1D4ED8"
  const Highlight: string := "#93C5FD"

  const ChartColorList: seq<string> := [Primary, Secondary, Tertiary, Quaternary, Highlight]

  lemma ChartColorsAreHex()
    ensures forall i :: 0 <= i < |ChartColorList| ==> IsHexColor(ChartColorList[i])
  {
  }

  /** The primary blue decodes to (96, 165, 250). */
  lemma PrimaryChannels()
    ensures ChannelsOf(Primary) == Channels(Some(96), Some(165), Some(250))
  {
    ChartColorsAreHex();
    PrimaryDigits(ChartColorList[0]);
  }

  lemma PrimaryDigits(c: string)
    requires IsHexColor(c) && c[1..] == "60A5FA"
    ensures ChannelsOf(c) == Channels(Some(96), Some(165), Some(250))
  {
    DecodeHexColor(c);
  }

  /** Its hover variant at opacity 0.8. */
  lemma PrimaryHover()
    ensures ColorWithOpacity(Primary, HoverOpacity) == "rgba(96, 165, 250, 0.8)"
  {
    PrimaryChannels();
    PrimaryHoverText();
  }

  lemma PrimaryHoverText()
    ensures Rgba(Channels(Some(96), Some(165), Some(250)), HoverOpacity) == "rgba(96, 165, 250, 0.8)"
  {
    assert NatToString(96) == "96" && NatToString(165) == "165" && NatToString(250) == "250" by {
      TwoDigits(96, '9', '6');
      ThreeDigits(165, '1', '6', '5');
      ThreeDigits(250, '2', '5', '0');
    }
    assert "rgba(" + "96" + ", " + "165" + ", " + "250" + ", " + "0.8" + ")" == "rgba(96, 165, 250, 0.8)";
  }

  /** The gradient of a colour: the colour itself and four opacity variants. */
  datatype Gradient = Gradient(full: string, hover: string, background: string, border: string, glow: string)

  const HoverOpacity: string := "0.8"
  const BackgroundOpacity: string := "0.1"
  const BorderOpacity: string := "0.3"
  const GlowOpacity: string := "0.2"

  function CreateGradient(color: string): (g: Gradient)
    ensures g.full == color
  {
    Gradient(color, ColorWithOpacity(color, HoverOpacity), ColorWithOpacity(color, BackgroundOpacity),
             ColorWithOpacity(color, BorderOpacity), ColorWithOpacity(color, GlowOpacity))
  }

  /** The gradient of a `#RRGGBB` colour: the colour itself, then its decoded
      channels at opacities 0.8, 0.1, 0.3 and 0.2. */
  lemma GradientOfHexColor(c: string)
    requires IsHexColor(c)
    ensures var ch := Channels(Some(16 * HexDigitValue(c[1]) + HexDigitValue(c[2])),
                               Some(16 * HexDigitValue(c[3]) + HexDigitValue(c[4])),
                               Some(16 * HexDigitValue(c[5]) + HexDigitValue(c[6])));
            var g := CreateGradient(c);
            g.full == c && g.hover == Rgba(ch, "0.8") && g.background == Rgba(ch, "0.1") &&
            g.border == Rgba(ch, "0.3") && g.glow == Rgba(ch, "0.2")
  {
    DecodeHexColor(c);
  }
}
