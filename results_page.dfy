/** The patient's results screen: the stored risk score and category of the assessment just
    submitted, shown in the category's colours with an icon for its severity. */
module ResultsPage {
  import Text
  import opened Values
  import Categories
  import AssessmentChat
  import ReviewAssessment

  /** The colours of an unrecognised or blank category. */
  const NeutralColor := "text-gray-600 bg-gray-100 border-gray-200"

  /** `getRiskColor(assessment.risk_category || '')`: the review screen's colours for a
      recognised category, a lighter gray otherwise. */
  function RiskColor(category: Option<Value>): string
  {
    match Categories.CategoryOf(category)
    case Some(l) => ReviewAssessment.LevelColor(l)
    case None => NeutralColor
  }

  datatype Icon = AlertTriangle | Clock | CheckCircle

  /** `getRiskIcon(assessment.risk_category || '')`. */
  function RiskIcon(category: Option<Value>): Icon
  {
    match Categories.CategoryOf(category)
    case Some(VeryHigh) | Some(High) => AlertTriangle
    case Some(Low) => CheckCircle
    case _ => Clock
  }

  /** The headline under the score: the category, or a generic one when it is falsy. */
  function CategoryHeadline(category: Option<Value>): string
  {
    if Truthy(category) then ToText(category.value) else "Risk Assessment Complete"
  }

  /** A category that is blank or not recognised gets the gray colours and the clock. */
  lemma UnrecognisedIsNeutral(category: Option<Value>)
    requires Categories.CategoryOf(category).None?
    ensures RiskColor(category) == NeutralColor && RiskIcon(category) == Clock
  {
  }

  /** The warning sign marks exactly the two highest levels and the check mark exactly the
      lowest; everything else gets the clock. */
  lemma IconBySeverity(category: Option<Value>)
    ensures RiskIcon(category) == AlertTriangle
            <==> Categories.CategoryOf(category).Some? && Categories.Rank(Categories.CategoryOf(category).value) >= 3
    ensures RiskIcon(category) == CheckCircle <==> Categories.CategoryOf(category) == Some(Categories.Low)
  {
  }

  /** The check mark appears exactly when the lower-cased category is "low" or "low risk". */
  lemma CheckCircleIffLow(s: string)
    ensures RiskIcon(Some(Str(s))) == CheckCircle <==> Text.Lower(s) == "low" || Text.Lower(s) == "low risk"
  {
    IconBySeverity(Some(Str(s)));
    Categories.ClassifyRecognises(s, Categories.Low);
    if Text.Lower(s) == "low" || Text.Lower(s) == "low risk" {
      assert |s| > 0;
    }
  }

  /** Colours and icon ignore letter case. */
  lemma CaseInsensitive(s: string)
    ensures RiskColor(Some(Str(Text.Upper(s)))) == RiskColor(Some(Str(s)))
    ensures RiskIcon(Some(Str(Text.Upper(s)))) == RiskIcon(Some(Str(s)))
  {
    Categories.CategoryOfIgnoresCase(s);
  }

  /** "X" and "X risk" look alike for each of the five names X, in any letter case. */
  lemma RiskSuffixInsensitive(s: string, l: Categories.Level)
    requires Text.Lower(s) == Categories.BareName(l)
    ensures RiskColor(Some(Str(s + " risk"))) == RiskColor(Some(Str(s))) == ReviewAssessment.LevelColor(l)
    ensures RiskIcon(Some(Str(s + " risk"))) == RiskIcon(Some(Str(s)))
  {
    Categories.CategoryOfRiskSuffix(s, l);
  }

  /** A recognised category looks as it does on the review screen; an unrecognised one is a
      lighter gray there. */
  lemma AgreesWithReview(category: Option<Value>)
    ensures Categories.CategoryOf(category).Some? <==> RiskColor(category) == ReviewAssessment.RiskColor(category)
  {
    if Categories.CategoryOf(category).None? {
      assert ReviewAssessment.NeutralColor[10] != NeutralColor[10];
    }
  }

  /** The result of the questionnaire: its category is shown as its own name, with the
      warning sign exactly when the score is 60 or more and the check mark exactly when it is
      below 20. */
  lemma ResultIconOfScore(score: int)
    ensures var category := Some(Str(Categories.DisplayName(AssessmentChat.CategoryLevel(score))));
            CategoryHeadline(category) == Categories.DisplayName(AssessmentChat.CategoryLevel(score))
            && (RiskIcon(category) == AlertTriangle <==> score >= 60)
            && (RiskIcon(category) == CheckCircle <==> score < 20)
  {
    Categories.CategoryOfDisplayName(AssessmentChat.CategoryLevel(score));
  }
}
