/** The risk-category names the application produces and recognises. Four display functions
    (ReviewAssessment's two colour functions, Dashboard's colour function, ResultsPage's
    colour and icon functions) share one case analysis: the category is lower-cased and
    compared against "very high", "high", "intermediate", "borderline" and "low", each with
    or without a trailing " risk". `Classify` is that case analysis. */
module Categories {
  import Text
  import opened Values

  datatype Level = VeryHigh | High | Intermediate | Borderline | Low

  /** The lower-case name of a level without the " risk" suffix. */
  function BareName(l: Level): string
  {
    match l
    case VeryHigh => "very high"
    case High => "high"
    case Intermediate => "intermediate"
    case Borderline => "borderline"
    case Low => "low"
  }

  /** The name the questionnaire stores for a level, e.g. "Very High Risk". */
  function DisplayName(l: Level): string
  {
    match l
    case VeryHigh => "Very High Risk"
    case High => "High Risk"
    case Intermediate => "Intermediate Risk"
    case Borderline => "Borderline Risk"
    case Low => "Low Risk"
  }

  /** Severity rank, 4 for very high down to 0 for low. */
  function Rank(l: Level): nat
  {
    match l
    case VeryHigh => 4
    case High => 3
    case Intermediate => 2
    case Borderline => 1
    case Low => 0
  }

  function LevelOfLowered(lowered: string): Option<Level>
  {
    if lowered == "very high" || lowered == "very high risk" then Some(VeryHigh)
    else if lowered == "high" || lowered == "high risk" then Some(High)
    else if lowered == "intermediate" || lowered == "intermediate risk" then Some(Intermediate)
    else if lowered == "borderline" || lowered == "borderline risk" then Some(Borderline)
    else if lowered == "low" || lowered == "low risk" then Some(Low)
    else None
  }

  /** `switch (category.toLowerCase())` over the ten recognised spellings. */
  function Classify(category: string): Option<Level>
  {
    LevelOfLowered(Text.Lower(category))
  }

  /** A category is recognised exactly when its lower-case form is one of the ten names. */
  lemma ClassifyRecognises(category: string, l: Level)
    ensures Classify(category) == Some(l)
        <==> (Text.Lower(category) == BareName(l) || Text.Lower(category) == BareName(l) + " risk")
  {
    var lo := Text.Lower(category);
    match l
    case VeryHigh => assert BareName(l) + " risk" == "very high risk";
    case High => assert BareName(l) + " risk" == "high risk";
    case Intermediate => assert BareName(l) + " risk" == "intermediate risk";
    case Borderline => assert BareName(l) + " risk" == "borderline risk";
    case Low => assert BareName(l) + " risk" == "low risk";
  }

  /** The classification ignores letter case. */
  lemma ClassifyIgnoresCase(category: string)
    ensures Classify(Text.Upper(category)) == Classify(category)
    ensures Classify(Text.Lower(category)) == Classify(category)
  {
    Text.LowerOfUpper(category);
    Text.LowerIdempotent(category);
  }

  /** "X" and "X risk" classify alike, as the level X names, whatever the case of X. */
  lemma ClassifyRiskSuffix(category: string, l: Level)
    requires Text.Lower(category) == BareName(l)
    ensures Classify(category) == Some(l)
    ensures Classify(category + " risk") == Some(l)
  {
    Text.LowerAppend(category, " risk");
    assert Text.Lower(" risk") == " risk";
    ClassifyRecognises(category, l);
    ClassifyRecognises(category + " risk", l);
  }

  /** The stored name of a level is its bare name followed by " Risk", in title case. */
  lemma LowerDisplayName(l: Level)
    ensures Text.Lower(DisplayName(l)) == BareName(l) + " risk"
  {
    match l
    case VeryHigh => LowerVeryHighRisk();
    case High => LowerHighRisk();
    case Intermediate => LowerIntermediateRisk();
    case Borderline => LowerBorderlineRisk();
    case Low => LowerLowRisk();
  }

  lemma LowerVeryHighRisk() ensures Text.Lower("Very High Risk") == "very high risk" {}
  lemma LowerHighRisk() ensures Text.Lower("High Risk") == "high risk" {}
  lemma LowerIntermediateRisk() ensures Text.Lower("Intermediate Risk") == "intermediate risk" {}
  lemma LowerBorderlineRisk() ensures Text.Lower("Borderline Risk") == "borderline risk" {}
  lemma LowerLowRisk() ensures Text.Lower("Low Risk") == "low risk" {}

  /** Every stored category name is recognised, and as the level it names. */
  lemma ClassifyDisplayName(l: Level)
    ensures Classify(DisplayName(l)) == Some(l)
  {
    LowerDisplayName(l);
    ClassifyRecognises(DisplayName(l), l);
  }

  /** The colour and icon functions first reject a category that is falsy or not a string
      (`!category || typeof category !== 'string'`). */
  predicate Blank(category: Option<Value>)
  {
    !(Truthy(category) && category.value.Str?)
  }

  /** The level a stored category value names, if it is a string the switch recognises. */
  function CategoryOf(category: Option<Value>): Option<Level>
  {
    if Blank(category) then None else Classify(category.value.s)
  }

  /** A stored category name is recognised as its level. */
  lemma CategoryOfDisplayName(l: Level)
    ensures !Blank(Some(Str(DisplayName(l))))
    ensures CategoryOf(Some(Str(DisplayName(l)))) == Some(l)
  {
    ClassifyDisplayName(l);
  }

  /** "X" and "X risk" are recognised alike, as the level X names. */
  lemma CategoryOfRiskSuffix(s: string, l: Level)
    requires Text.Lower(s) == BareName(l)
    ensures CategoryOf(Some(Str(s))) == Some(l)
    ensures CategoryOf(Some(Str(s + " risk"))) == Some(l)
  {
    ClassifyRiskSuffix(s, l);
    assert |s| == |BareName(l)| > 0;
  }

  /** Recognition of a stored string ignores letter case. */
  lemma CategoryOfIgnoresCase(s: string)
    ensures CategoryOf(Some(Str(Text.Upper(s)))) == CategoryOf(Some(Str(s)))
    ensures CategoryOf(Some(Str(Text.Lower(s)))) == CategoryOf(Some(Str(s)))
  {
    ClassifyIgnoresCase(s);
    assert |Text.Upper(s)| == |s| && |Text.Lower(s)| == |s|;
  }
}
