/** The clinician's review screen for one assessment: it loads the stored record, shows the
    patient's answers with readable labels and values, the risk score and category in the
    category's colours, and hands the editable fields to the recommendation workbench,
    read-only once the review is finished. */
module ReviewAssessment {
  import Text
  import opened Values
  import Categories
  import RecommendationWorkbench

  // ---------------------------------------------------------------------------------------
  // Answer labels and values

  /** `key.replace(/_/g, ' ')`. */
  function Spaced(key: string): string
  {
    seq(|key|, i requires 0 <= i < |key| => if key[i] == '_' then ' ' else key[i])
  }

  /** Position `i` is matched by `\b\w`: a word character not preceded by one. */
  predicate WordStart(s: string, i: int)
    requires 0 <= i < |s|
  {
    Text.IsWordChar(s[i]) && (i == 0 || !Text.IsWordChar(s[i - 1]))
  }

  /** `s.replace(/\b\w/g, l => l.toUpperCase())`. */
  function CapitalizeWords(s: string): string
  {
    seq(|s|, i requires 0 <= i < |s| => if WordStart(s, i) then Text.UpperChar(s[i]) else s[i])
  }

  /** `formatInputLabel`: underscores become spaces and every word starts upper-case. */
  function FormatInputLabel(key: string): string
  {
    CapitalizeWords(Spaced(key))
  }

  lemma UpperCharKeepsWordChar(c: char)
    ensures Text.IsWordChar(Text.UpperChar(c)) == Text.IsWordChar(c)
    ensures Text.LowerChar(Text.UpperChar(c)) == Text.LowerChar(c)
    ensures !Text.IsLowerAscii(Text.UpperChar(c))
  {
  }

  /** The label has one character per character of the key; the underscores, and only they
      and the spaces, become spaces; the letters differ from the key's at most in case; the
      first character of every word is not a lower-case letter and every other character is
      the key's own. */
  lemma FormatInputLabelShape(key: string)
    ensures var r := FormatInputLabel(key);
            |r| == |key|
            && (forall i :: 0 <= i < |key| ==> (r[i] == ' ' <==> key[i] == '_' || key[i] == ' '))
            && Text.Lower(r) == Text.Lower(Spaced(key))
            && (forall i :: 0 <= i < |r| && WordStart(r, i) ==> !Text.IsLowerAscii(r[i]))
            && (forall i :: 0 <= i < |r| && !WordStart(r, i) ==> r[i] == Spaced(key)[i])
  {
    var s := Spaced(key);
    var r := FormatInputLabel(key);
    forall i | 0 <= i < |s| ensures WordStart(r, i) == WordStart(s, i) && Text.LowerChar(r[i]) == Text.LowerChar(s[i]) {
      UpperCharKeepsWordChar(s[i]);
      if i > 0 { UpperCharKeepsWordChar(s[i - 1]); }
    }
    assert forall i :: 0 <= i < |r| ==> Text.Lower(r)[i] == Text.Lower(s)[i];
    forall i | 0 <= i < |r| && WordStart(r, i) ensures !Text.IsLowerAscii(r[i]) {
      UpperCharKeepsWordChar(s[i]);
    }
  }

  /** Formatting a label again changes nothing. */
  lemma FormatInputLabelIdempotent(key: string)
    ensures FormatInputLabel(FormatInputLabel(key)) == FormatInputLabel(key)
  {
    var s := Spaced(key);
    var r := FormatInputLabel(key);
    assert Spaced(r) == r;
    forall i | 0 <= i < |s| ensures WordStart(r, i) == WordStart(s, i) {
      UpperCharKeepsWordChar(s[i]);
      if i > 0 { UpperCharKeepsWordChar(s[i - 1]); }
    }
    assert forall i :: 0 <= i < |r| ==> CapitalizeWords(r)[i] == r[i];
  }

  /** An example: an answer key of the questionnaire. */
  lemma FormatSystolicBp()
    ensures FormatInputLabel("systolic_bp") == "Systolic Bp"
  {
    var s := Spaced("systolic_bp");
    assert s == "systolic bp";
    assert WordStart(s, 0) && WordStart(s, 9);
    assert forall i :: 0 <= i < |s| && i != 0 && i != 9 ==> !WordStart(s, i);
  }

  /** `formatInputValue`: booleans as Yes or No, other values as their string, and a missing
      value, `null` or an empty string as "N/A". */
  function FormatInputValue(v: Option<Value>): (r: string)
    ensures r != ""
  {
    if v.None? || v.value.Null? then "N/A"
    else if v.value.Bool? then (if v.value.b then "Yes" else "No")
    else
      var t := ToText(v.value);
      if t == "" then "N/A" else t
  }

  /** "N/A" appears exactly for a missing value, `null`, an empty string or the string
      "N/A" itself. */
  lemma NotAvailableIff(v: Option<Value>)
    ensures FormatInputValue(v) == "N/A"
            <==> v == None || v == Some(Null) || v == Some(Str("")) || v == Some(Str("N/A"))
  {
    if v.Some? && v.value.Num? {
      var n := v.value.n;
      var d := Text.NatToDecimal(if n < 0 then -n else n);
      assert ToText(v.value) == if n < 0 then "-" + d else d;
      assert ToText(v.value)[|ToText(v.value)| - 1] == d[|d| - 1];
    }
  }

  /** A non-empty string is shown as it is. */
  lemma FormatStringValue(s: string)
    requires s != ""
    ensures FormatInputValue(Some(Str(s))) == s
  {
  }

  /** A shown non-negative number reads back as the number. */
  lemma FormatNumberReadsBack(n: nat)
    ensures Text.ParseIntOrZero(FormatInputValue(Some(Num(n)))) == n
  {
    assert FormatInputValue(Some(Num(n))) == Text.NatToDecimal(n) + "";
    Text.ParseRenderedNat(n, "");
  }

  // ---------------------------------------------------------------------------------------
  // The workbench's inputs

  /** `v || ''` for a field shown as text. */
  function FieldText(v: Option<Value>): string
  {
    if Truthy(v) then ToText(v.value) else ""
  }

  /** `formatRecommendationsForWorkbench`: a missing or non-array field gives no
      recommendations; each element gives its category and text, empty when falsy; a `null`
      element makes the render throw (`None`). */
  function FormatRecommendationsForWorkbench(recs: Option<seq<RecItem>>)
    : Option<seq<RecommendationWorkbench.Recommendation>>
  {
    match recs
    case None => Some([])
    case Some(items) =>
      if exists i :: 0 <= i < |items| && items[i].NullItem? then None
      else Some(seq(|items|, i requires 0 <= i < |items| && items[i].Item? =>
                      RecommendationWorkbench.Recommendation(FieldText(items[i].category),
                                                             FieldText(items[i].text))))
  }

  /** How the workbench's recommendations are stored: an array of objects with string fields. */
  function StoredRecommendations(recs: seq<RecommendationWorkbench.Recommendation>): seq<RecItem>
  {
    seq(|recs|, i requires 0 <= i < |recs| => Item(Some(Str(recs[i].category)), Some(Str(recs[i].text))))
  }

  /** Reloading saved recommendations gives back exactly what was saved. */
  lemma ReloadSavedRecommendations(recs: seq<RecommendationWorkbench.Recommendation>)
    ensures FormatRecommendationsForWorkbench(Some(StoredRecommendations(recs))) == Some(recs)
  {
    var items := StoredRecommendations(recs);
    assert forall i :: 0 <= i < |items| ==> items[i].Item?;
    var r := FormatRecommendationsForWorkbench(Some(items));
    assert r.Some? && |r.value| == |recs|;
    forall i | 0 <= i < |recs| ensures r.value[i] == recs[i] {
      assert items[i] == Item(Some(Str(recs[i].category)), Some(Str(recs[i].text)));
      assert FieldText(Some(Str(recs[i].category))) == recs[i].category;
      assert FieldText(Some(Str(recs[i].text))) == recs[i].text;
    }
    assert r.value == recs;
  }

  /** The array keeps its length and order; truthy fields are kept as their text, falsy
      ones become empty strings; only a `null` element fails. */
  lemma FormatRecommendationsShape(items: seq<RecItem>)
    ensures var r := FormatRecommendationsForWorkbench(Some(items));
            (r.None? <==> exists i :: 0 <= i < |items| && items[i].NullItem?)
            && (r.Some? ==>
                  |r.value| == |items|
                  && forall i :: 0 <= i < |items| ==>
                     (Truthy(items[i].category) || r.value[i].category == "")
                     && (Truthy(items[i].text) || r.value[i].text == "")
                     && (Truthy(items[i].category) ==> r.value[i].category == ToText(items[i].category.value))
                     && (Truthy(items[i].text) ==> r.value[i].text == ToText(items[i].text.value))
                     && (items[i].category.Some? && items[i].category.value.Str? ==>
                           r.value[i].category == items[i].category.value.s))
  {
  }

  /** Finished reviews (`reviewed`, `review_complete`, `rejected`) are read-only. */
  predicate IsReadOnly(status: Option<string>)
  {
    status == Some("reviewed") || status == Some("review_complete") || status == Some("rejected")
  }

  /** `assessment?.status || ''`. */
  function WorkbenchStatus(status: Option<string>): string
  {
    match status
    case None => ""
    case Some(s) => s
  }

  /** The workbench is read-only exactly when it shows a finished review's heading. */
  lemma ReadOnlyIffFinishedTitle(status: Option<string>)
    ensures IsReadOnly(status)
            <==> RecommendationWorkbench.Title(WorkbenchStatus(status)) != "Clinical Review"
  {
    RecommendationWorkbench.TitleOfFinishedStatuses(WorkbenchStatus(status));
  }

  /** An approval, once its first update lands, makes the record read-only. */
  lemma ApprovedReviewIsReadOnly(row: RecommendationWorkbench.Row, recs: seq<RecommendationWorkbench.Recommendation>,
                                 overall: string, comments: string, replies: RecommendationWorkbench.Replies)
    requires replies.updateOk
    ensures IsReadOnly(Some(RecommendationWorkbench.ApplyAll(row,
              RecommendationWorkbench.ApprovalUpdates(recs, overall, comments, replies)).status))
  {
    RecommendationWorkbench.ApprovalFinalStatus(row, recs, overall, comments, replies);
  }

  // ---------------------------------------------------------------------------------------
  // Identifier and colours

  /** `CVD-` followed by the first eight characters of the id, upper-cased. The dashboard
      formats ids the same way. */
  function FormatAssessmentId(id: string): string
  {
    "CVD-" + Text.Upper(id[..if |id| < 8 then |id| else 8])
  }

  /** The id keeps its prefix, is at most twelve characters long and holds no lower-case
      letter. */
  lemma FormatAssessmentIdShape(id: string)
    ensures var r := FormatAssessmentId(id);
            Text.StartsWith(r, "CVD-") && |r| == 4 + (if |id| < 8 then |id| else 8) && |r| <= 12
            && forall i :: 4 <= i < |r| ==> !Text.IsLowerAscii(r[i])
  {
    var r := FormatAssessmentId(id);
    assert r[..4] == "CVD-";
  }

  /** Only the first eight characters matter, and not their case. */
  lemma FormatAssessmentIdPrefix(id1: string, id2: string)
    requires |id1| >= 8 && |id2| >= 8 && Text.Upper(id1[..8]) == Text.Upper(id2[..8])
    ensures FormatAssessmentId(id1) == FormatAssessmentId(id2)
  {
  }

  /** The `text-` class of a level: the colour of the risk score. */
  function LevelScoreColor(l: Categories.Level): string
  {
    match l
    case VeryHigh => "text-red-700"
    case High => "text-red-600"
    case Intermediate => "text-orange-600"
    case Borderline => "text-yellow-600"
    case Low => "text-green-600"
  }

  /** The background and border classes of a level. */
  function LevelFrame(l: Categories.Level): string
  {
    match l
    case VeryHigh | High => "bg-red-50 border-red-200"
    case Intermediate => "bg-orange-50 border-orange-200"
    case Borderline => "bg-yellow-50 border-yellow-200"
    case Low => "bg-green-50 border-green-200"
  }

  /** The colours of a category badge. */
  function LevelColor(l: Categories.Level): string
  {
    LevelScoreColor(l) + " " + LevelFrame(l)
  }

  const NeutralScoreColor := "text-gray-900"
  const NeutralColor := NeutralScoreColor + " " + "bg-gray-100 border-gray-200"

  /** `getRiskColor(assessment.risk_category || '')`. */
  function RiskColor(category: Option<Value>): string
  {
    match Categories.CategoryOf(category)
    case Some(l) => LevelColor(l)
    case None => NeutralColor
  }

  /** `getRiskScoreColor(assessment.risk_category || '')`. */
  function RiskScoreColor(category: Option<Value>): string
  {
    match Categories.CategoryOf(category)
    case Some(l) => LevelScoreColor(l)
    case None => NeutralScoreColor
  }

  /** Two characters of a level's colours that tell the hues and shades apart: the hue's
      initial and the character four places after it. */
  function Key(l: Categories.Level): (char, char)
  {
    match l
    case VeryHigh => ('r', '7')
    case High => ('r', '6')
    case Intermediate => ('o', 'g')
    case Borderline => ('y', 'o')
    case Low => ('g', 'n')
  }

  lemma KeyOfLevelColor(l: Categories.Level)
    ensures |LevelColor(l)| > 9 && (LevelColor(l)[5], LevelColor(l)[9]) == Key(l)
  {
    var a := LevelScoreColor(l);
    assert LevelColor(l)[5] == a[5] && LevelColor(l)[9] == a[9];
  }

  /** The colours tell the levels apart, and none of them is the neutral one. */
  lemma LevelColorsDistinct(l1: Categories.Level, l2: Categories.Level)
    ensures LevelColor(l1) == LevelColor(l2) <==> l1 == l2
    ensures LevelColor(l1) != NeutralColor
  {
    KeyOfLevelColor(l1);
    KeyOfLevelColor(l2);
    assert NeutralColor[5] == 'g' && NeutralColor[9] == '-';
  }

  /** The score's colour is the first class of the category's colours. */
  lemma ScoreColorLeadsRiskColor(category: Option<Value>)
    ensures Text.StartsWith(RiskColor(category), RiskScoreColor(category) + " ")
  {
    var a := RiskScoreColor(category) + " ";
    match Categories.CategoryOf(category) {
      case Some(l) =>
        assert LevelColor(l) == a + LevelFrame(l);
        assert LevelColor(l)[..|a|] == a;
      case None =>
        assert NeutralColor[..|a|] == a;
    }
  }

  /** A stored category name is shown in its level's colours, whatever its case. */
  lemma RiskColorOfStoredName(l: Categories.Level)
    ensures RiskColor(Some(Str(Categories.DisplayName(l)))) == LevelColor(l)
    ensures RiskScoreColor(Some(Str(Categories.DisplayName(l)))) == LevelScoreColor(l)
    ensures RiskColor(Some(Str(Text.Upper(Categories.DisplayName(l))))) == LevelColor(l)
  {
    Categories.CategoryOfDisplayName(l);
    Categories.CategoryOfIgnoresCase(Categories.DisplayName(l));
  }

  // ---------------------------------------------------------------------------------------
  // The screen

  /** The columns of the stored record the screen reads. */
  datatype StoredAssessment = StoredAssessment(
    id: string, status: Option<string>, inputs: map<string, Value>,
    recommendations: Option<seq<RecItem>>, overallRecommendation: Option<Value>,
    providerComments: Option<Value>, riskScore: Option<Value>, riskCategory: Option<Value>)

  /** What the database answers to the screen's query. */
  datatype FetchReply = FetchFailed | FetchedRow(row: StoredAssessment)

  /** What the screen hands to the workbench; `None` recommendations make the render throw. */
  datatype WorkbenchProps = WorkbenchProps(
    isReadOnly: bool, status: string,
    recommendations: Option<seq<RecommendationWorkbench.Recommendation>>,
    overallRecommendation: string, providerComments: string)

  function PropsOf(a: StoredAssessment): WorkbenchProps
  {
    WorkbenchProps(IsReadOnly(a.status), WorkbenchStatus(a.status),
                   FormatRecommendationsForWorkbench(a.recommendations),
                   FieldText(a.overallRecommendation), FieldText(a.providerComments))
  }

  /** After an approval or a draft save with every field written back as strings, the
      reloaded screen shows the workbench the saved fields. */
  lemma PropsAfterSave(a: StoredAssessment, recs: seq<RecommendationWorkbench.Recommendation>,
                       overall: string, comments: string)
    ensures var p := PropsOf(a.(recommendations := Some(StoredRecommendations(recs)),
                                overallRecommendation := Some(Str(overall)),
                                providerComments := Some(Str(comments))));
            p.recommendations == Some(recs) && p.overallRecommendation == overall
            && p.providerComments == comments
  {
    ReloadSavedRecommendations(recs);
  }

  datatype Screen = LoadingScreen | NotFound | Review(row: StoredAssessment, props: WorkbenchProps)

  class ReviewScreen {
    var assessment: Option<StoredAssessment>
    var loading: bool

    constructor()
      ensures assessment == None && loading
    {
      assessment := None;
      loading := true;
    }

    /** `fetchAssessment`: a failed query keeps whatever was shown before. */
    method FetchAssessment(reply: FetchReply)
      modifies this
      ensures !loading
      ensures assessment == if reply.FetchedRow? then Some(reply.row) else old(assessment)
    {
      loading := true;
      if reply.FetchedRow? {
        assessment := Some(reply.row);
      }
      loading := false;
    }

    /** The loading view, the not-found view, or the review with the workbench's props. */
    function View(): (s: Screen)
      reads this
      ensures s.Review? <==> !loading && assessment.Some?
      ensures s.Review? ==> s.row == assessment.value && s.props == PropsOf(assessment.value)
    {
      if loading then LoadingScreen
      else if assessment.None? then NotFound
      else Review(assessment.value, PropsOf(assessment.value))
    }
  }
}
