/** The high-risk domain list: a score is classified into one of four levels by
    fixed thresholds, each with a text colour class and a background class; the
    side indicator and the score bar reuse the text colour with its first `text`
    turned into `bg`. */
module Risk {
  import opened Strings

  datatype Level = Low | Medium | High | Critical

  function Rank(l: Level): nat {
    match l
    case Low => 0
    case Medium => 1
    case High => 2
    case Critical => 3
  }

  function LevelName(l: Level): string {
    match l
    case Low => "Low"
    case Medium => "Medium"
    case High => "High"
    case Critical => "Critical"
  }

  datatype RiskStyle = RiskStyle(level: Level, color: string, bgColor: string)

  /** `getRiskLevel`: the first threshold the score reaches. */
  function GetRiskLevel(score: real): (s: RiskStyle)
    ensures score >= 80.0 <==> s.level == Critical
    ensures 60.0 <= score < 80.0 <==> s.level == High
    ensures 40.0 <= score < 60.0 <==> s.level == Medium
    ensures score < 40.0 <==> s.level == Low
  {
    if score >= 80.0 then RiskStyle(Critical, "text-red-400", "bg-red-500/10")
    else if score >= 60.0 then RiskStyle(High, "text-orange-400", "bg-orange-500/10")
    else if score >= 40.0 then RiskStyle(Medium, "text-yellow-400", "bg-yellow-500/10")
    else RiskStyle(Low, "text-blue-400", "bg-blue-500/10")
  }

  /** A higher score never gives a lower level. */
  lemma RiskMonotone(a: real, b: real)
    requires a <= b
    ensures Rank(GetRiskLevel(a).level) <= Rank(GetRiskLevel(b).level)
  {
  }

  /** The class of the side indicator and of the score bar. */
  function IndicatorClass(score: real): (c: string)
    ensures StartsWith(c, "bg-")
  {
    var color := GetRiskLevel(score).color;
    assert color == "text" + color[4..];
    ReplaceFirstAtStart("text", "bg", color[4..]);
    assert color[4] == '-';
    assert ("bg" + color[4..])[..3] == "bg-";
    ReplaceFirst(color, "text", "bg")
  }

  /** The indicator is the text colour with `text` turned into `bg`, for example
      `text-red-400` into `bg-red-400`. */
  lemma IndicatorIsBackgroundOfColor(score: real)
    ensures GetRiskLevel(score).color[..4] == "text"
    ensures IndicatorClass(score) == "bg" + GetRiskLevel(score).color[4..]
  {
    var c := GetRiskLevel(score).color;
    assert c == "text" + c[4..];
    ReplaceFirstAtStart("text", "bg", c[4..]);
  }

  lemma CriticalIndicator()
    ensures IndicatorClass(80.0) == "bg-red-400"
  {
    IndicatorIsBackgroundOfColor(80.0);
  }
}
