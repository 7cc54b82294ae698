/** The display logic of the result card: the verdict-to-theme classifier
    and the fallbacks used when a field of the analysis is missing. */
module ResultCard {
  import opened Wrappers
  import opened Json

  const SAFE := "SAFE"
  const HIGH_RISK := "HIGH RISK"
  const CAUTION := "CAUTION"

  /** A theme; `labelText` is the source's `label` (a reserved word here). */
  datatype Theme = Theme(color: string, light: string, gradient: string, labelText: string)

  const SAFE_THEME := Theme("#22c55e", "#dcfce7", "linear-gradient(135deg, #dcfce7 0%, #ffffff 100%)", SAFE)
  const HIGH_RISK_THEME := Theme("#ef4444", "#fee2e2", "linear-gradient(135deg, #fee2e2 0%, #ffffff 100%)", HIGH_RISK)
  const CAUTION_THEME := Theme("#eab308", "#fef3c7", "linear-gradient(135deg, #fef3c7 0%, #ffffff 100%)", CAUTION)

  predicate IsLower(c: char)
  {
    'a' <= c <= 'z'
  }

  /** `toUpperCase` on the ASCII letters. */
  function Upper(s: string): (u: string)
    ensures |u| == |s|
    ensures forall i :: 0 <= i < |s| ==> !IsLower(u[i])
    ensures forall i :: 0 <= i < |s| && !IsLower(s[i]) ==> u[i] == s[i]
    ensures forall i :: 0 <= i < |s| && IsLower(s[i]) ==> u[i] as int == s[i] as int - 32
    ensures (forall i :: 0 <= i < |s| ==> !IsLower(s[i])) ==> u == s
    decreases |s|
  {
    if s == [] then []
    else [if IsLower(s[0]) then (s[0] as int - 32) as char else s[0]] + Upper(s[1..])
  }

  /** `data?.verdict || data?.riskLevel || 'CAUTION'`: the value the level is
      read from. */
  function LevelSource(data: Value): (v: Value)
    ensures Truthy(v)
    ensures Truthy(Get(data, "verdict")) ==> v == Get(data, "verdict")
    ensures !Truthy(Get(data, "verdict")) && Truthy(Get(data, "riskLevel")) ==> v == Get(data, "riskLevel")
    ensures !Truthy(Get(data, "verdict")) && !Truthy(Get(data, "riskLevel")) ==> v == Str(CAUTION)
  {
    Or(Or(Get(data, "verdict"), Get(data, "riskLevel")), Str(CAUTION))
  }

  predicate IsSafeLevel(level: string)
  {
    level == "SAFE" || level == "LOW" || level == "LOW RISK"
  }

  predicate IsHighRiskLevel(level: string)
  {
    level == "HIGH RISK" || level == "HIGH" || level == "AVOID"
  }

  /** `getTheme(data)`. `None` when the chosen value is not a string, where
      `toUpperCase` would throw; otherwise one of the three themes, chosen by
      the upper-cased level. */
  function GetTheme(data: Value): (r: Option<Theme>)
    ensures r.Some? <==> LevelSource(data).Str?
    ensures r.Some? ==> r.value == SAFE_THEME || r.value == HIGH_RISK_THEME || r.value == CAUTION_THEME
    ensures r.Some? ==> (r.value.labelText == SAFE <==> IsSafeLevel(Upper(LevelSource(data).s)))
    ensures r.Some? ==> (r.value.labelText == HIGH_RISK <==> IsHighRiskLevel(Upper(LevelSource(data).s)))
  {
    var source := LevelSource(data);
    if !source.Str? then None
    else
      var level := Upper(source.s);
      if IsSafeLevel(level) then Some(SAFE_THEME)
      else if IsHighRiskLevel(level) then Some(HIGH_RISK_THEME)
      else Some(CAUTION_THEME)
  }

  /** The verdict with only a `verdict` field. */
  function VerdictOnly(verdict: string): Value
  {
    Obj(map["verdict" := Str(verdict)])
  }

  /** Verdicts are compared without regard to case. */
  lemma ThemeIgnoresCase(verdict: string)
    ensures GetTheme(VerdictOnly(verdict)) == GetTheme(VerdictOnly(Upper(verdict)))
  {
    assert Upper(Upper(verdict)) == Upper(verdict);
  }

  /** Each label, used as a verdict, selects its own theme. */
  lemma SafeLabelSelectsSafe()
    ensures GetTheme(VerdictOnly(SAFE)) == Some(SAFE_THEME)
  {
    assert Upper(SAFE) == SAFE by {
      assert forall i :: 0 <= i < |SAFE| ==> !IsLower(SAFE[i]);
    }
    assert LevelSource(VerdictOnly(SAFE)) == Str(SAFE);
  }

  lemma HighRiskLabelSelectsHighRisk()
    ensures GetTheme(VerdictOnly(HIGH_RISK)) == Some(HIGH_RISK_THEME)
  {
    assert Upper(HIGH_RISK) == HIGH_RISK by {
      assert forall i :: 0 <= i < |HIGH_RISK| ==> !IsLower(HIGH_RISK[i]);
    }
    assert LevelSource(VerdictOnly(HIGH_RISK)) == Str(HIGH_RISK);
  }

  lemma CautionLabelSelectsCaution()
    ensures GetTheme(VerdictOnly(CAUTION)) == Some(CAUTION_THEME)
  {
    assert Upper(CAUTION) == CAUTION by {
      assert forall i :: 0 <= i < |CAUTION| ==> !IsLower(CAUTION[i]);
    }
    assert LevelSource(VerdictOnly(CAUTION)) == Str(CAUTION);
  }

  /** A theme's label, fed back as a verdict, selects the same theme. */
  lemma LabelIsFixedPoint(data: Value)
    requires GetTheme(data).Some?
    ensures GetTheme(VerdictOnly(GetTheme(data).value.labelText)) == GetTheme(data)
  {
    var t := GetTheme(data).value;
    if t == SAFE_THEME {
      SafeLabelSelectsSafe();
    } else if t == HIGH_RISK_THEME {
      HighRiskLabelSelectsHighRisk();
    } else {
      CautionLabelSelectsCaution();
    }
  }

  /** The shown confidence: `result.confidenceScore || 90`. */
  function DisplayConfidence(result: Value): (v: Value)
    ensures Truthy(v)
    ensures Truthy(Get(result, "confidenceScore")) ==> v == Get(result, "confidenceScore")
    ensures !Truthy(Get(result, "confidenceScore")) ==> v == Num(90.0)
  {
    Or(Get(result, "confidenceScore"), Num(90.0))
  }

  /** The shown title: `title || "Analysis Complete"`. */
  function DisplayTitle(result: Value): (v: Value)
    ensures Truthy(v)
    ensures Truthy(Get(result, "title")) ==> v == Get(result, "title")
    ensures !Truthy(Get(result, "title")) ==> v == Str("Analysis Complete")
  {
    Or(Get(result, "title"), Str("Analysis Complete"))
  }

  /** `v.length`: the length of a string or array, an object's own `length`
      property, and `undefined` for anything else. */
  function Length(v: Value): Value
  {
    match v
    case Str(s) => Num(|s| as real)
    case Arr(items) => Num(|items| as real)
    case Obj(_) => Get(v, "length")
    case _ => Undefined
  }

  /** `redFlags && redFlags.length > 0`: whether the red-flag section is shown. */
  predicate ShowsRedFlags(result: Value)
  {
    var flags := Get(result, "redFlags");
    Truthy(flags) && Length(flags).Num? && Length(flags).n > 0.0
  }

  /** The section is shown exactly for a non-empty list of flags, and never
      when the field is missing. */
  lemma RedFlagsShownWhenNonEmpty(result: Value)
    ensures Get(result, "redFlags").Arr? ==>
      (ShowsRedFlags(result) <==> |Get(result, "redFlags").items| > 0)
    ensures !Truthy(Get(result, "redFlags")) ==> !ShowsRedFlags(result)
  {
  }

  /** The stroke offset of the score arc: `440 - (440 * score) / 10`. */
  function ArcOffset(score: real): (o: real)
    ensures 0.0 <= score <= 10.0 ==> 0.0 <= o <= 440.0
    ensures score == 0.0 ==> o == 440.0
    ensures score == 10.0 ==> o == 0.0
  {
    440.0 - (440.0 * score) / 10.0
  }

  /** A higher score fills more of the arc. */
  lemma ArcOffsetDecreasing(a: real, b: real)
    requires a < b
    ensures ArcOffset(b) < ArcOffset(a)
  {
  }
}
