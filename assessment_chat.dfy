/** The patient questionnaire: twelve required questions answered one at a time, and the
    points model that turns the answers into a risk score, a category and the text stored
    with the assessment. */
module AssessmentChat {
  import Text
  import opened Values
  import opened Categories

  datatype QuestionKind = Select | Number | Boolean | FreeText

  datatype Question = Question(id: string, kind: QuestionKind, options: seq<string>, required: bool)

  const ActivityOptions: seq<string> := ["0 days", "1-2 days", "3-4 days", "5-6 days", "7 days"]

  /** The questionnaire, in the order it is asked. */
  const Questions: seq<Question> := [
    Question("age", Number, [], true),
    Question("gender", Select, ["Male", "Female"], true),
    Question("systolic_bp", Number, [], true),
    Question("total_cholesterol", Number, [], true),
    Question("hdl_cholesterol", Number, [], true),
    Question("smoking_status", Boolean, [], true),
    Question("diabetes", Boolean, [], true),
    Question("hypertension_treatment", Boolean, [], true),
    Question("family_history", Boolean, [], true),
    Question("physical_activity", Select, ActivityOptions, true),
    Question("chest_pain", Boolean, [], true),
    Question("shortness_of_breath", Boolean, [], true)
  ]

  /** Each question's answer is stored under its own key. */
  lemma QuestionIdsDistinct()
    ensures |Questions| == 12
    ensures forall i, j :: 0 <= i < j < |Questions| ==> Questions[i].id != Questions[j].id
  {
    var ids := seq(|Questions|, k requires 0 <= k < |Questions| => Questions[k].id);
    assert ids == ["age", "gender", "systolic_bp", "total_cholesterol", "hdl_cholesterol",
                   "smoking_status", "diabetes", "hypertension_treatment", "family_history",
                   "physical_activity", "chest_pain", "shortness_of_breath"];
    forall i, j | 0 <= i < j < |Questions| ensures Questions[i].id != Questions[j].id {
      assert ids[i] == Questions[i].id && ids[j] == Questions[j].id;
      assert ids[i][..1] != ids[j][..1] || |ids[i]| != |ids[j]| || ids[i] != ids[j];
    }
  }

  // ---------------------------------------------------------------------------------------
  // Risk points model

  /** `parseInt(answers[key]) || 0`: a missing or unparseable answer reads as 0. */
  function NumericAnswer(answers: map<string, Value>, key: string): int
  {
    NumericValue(Get(answers, key))
  }

  function NumericValue(v: Option<Value>): int
  {
    match v
    case Some(Str(s)) => Text.ParseIntOrZero(s)
    case Some(Num(n)) => n
    case _ => 0
  }

  function AgePoints(age: int): (r: nat)
  {
    if age >= 65 then 30 else if age >= 55 then 20 else if age >= 45 then 10
    else if age >= 35 then 5 else 0
  }

  function SexPoints(answers: map<string, Value>): (r: nat)
  {
    if Get(answers, "gender") == Some(Str("Male")) then 10 else 0
  }

  function BloodPressurePoints(systolic: int): (r: nat)
  {
    if systolic >= 160 then 25 else if systolic >= 140 then 15 else if systolic >= 130 then 10
    else if systolic >= 120 then 5 else 0
  }

  function TotalCholesterolPoints(total: int): (r: nat)
  {
    if total >= 240 then 15 else if total >= 200 then 10 else 0
  }

  function HdlPoints(hdl: int): (r: nat)
  {
    if hdl < 40 then 15 else if hdl < 50 then 5 else 0
  }

  function FlagPoints(answers: map<string, Value>, key: string, points: nat): nat
  {
    if Truthy(Get(answers, key)) then points else 0
  }

  /** The yes/no history and symptom factors. */
  function HistoryPoints(answers: map<string, Value>): nat
  {
    FlagPoints(answers, "smoking_status", 20) + FlagPoints(answers, "diabetes", 25)
    + FlagPoints(answers, "hypertension_treatment", 10) + FlagPoints(answers, "family_history", 15)
    + FlagPoints(answers, "chest_pain", 10) + FlagPoints(answers, "shortness_of_breath", 10)
  }

  /** `answers.physical_activity || '0 days'`. */
  function ActivityAnswer(answers: map<string, Value>): Value
  {
    var v := Get(answers, "physical_activity");
    if Truthy(v) then v.value else Str("0 days")
  }

  /** The protective exercise factor. */
  function ActivityPoints(answers: map<string, Value>): (r: int)
    ensures -10 <= r <= 0
  {
    var a := ActivityAnswer(answers);
    if a == Str("7 days") then -10 else if a == Str("5-6 days") then -5
    else if a == Str("3-4 days") then -3 else 0
  }

  /** Every factor except physical activity. */
  function RiskFactorPoints(answers: map<string, Value>): nat
  {
    AgePoints(NumericAnswer(answers, "age")) + SexPoints(answers)
    + BloodPressurePoints(NumericAnswer(answers, "systolic_bp"))
    + TotalCholesterolPoints(NumericAnswer(answers, "total_cholesterol"))
    + HdlPoints(NumericAnswer(answers, "hdl_cholesterol"))
    + HistoryPoints(answers)
  }

  /** `Math.max(0, Math.min(100, x))`. */
  function Clamp(x: int): (r: nat)
    ensures 0 <= r <= 100
    ensures 0 <= x <= 100 ==> r == x
    ensures x > 100 ==> r == 100
    ensures x < 0 ==> r == 0
  {
    if x > 100 then 100 else if x < 0 then 0 else x
  }

  /** The final score: all factor points, clamped to [0, 100]. */
  function RiskScore(answers: map<string, Value>): nat
  {
    Clamp(RiskFactorPoints(answers) + ActivityPoints(answers))
  }

  function CategoryLevel(score: int): Level
  {
    if score >= 80 then VeryHigh else if score >= 60 then High
    else if score >= 40 then Intermediate else if score >= 20 then Borderline else Low
  }

  /** `${riskScore}%`. */
  function ScoreText(score: nat): string
  {
    Text.NatToDecimal(score) + "%"
  }

  datatype RiskFactors = RiskFactors(age: Option<Value>, gender: Option<Value>,
                                     systolicBp: Option<Value>, smoking: Option<Value>,
                                     diabetes: Option<Value>, familyHistory: Option<Value>)

  datatype RiskResult = RiskResult(score: string, category: string, factors: RiskFactors)

  /** The factor-by-factor accumulation at the start of `calculateRisk`, before the clamp. */
  method AccumulatePoints(answers: map<string, Value>) returns (riskScore: int)
    ensures riskScore == RiskFactorPoints(answers) + ActivityPoints(answers)
  {
    riskScore := 0;
    riskScore := AddMeasuredPoints(answers, riskScore);
    riskScore := AddHistoryPoints(answers, riskScore);

    var activity := ActivityAnswer(answers);
    if activity == Str("7 days") { riskScore := riskScore - 10; }
    else if activity == Str("5-6 days") { riskScore := riskScore - 5; }
    else if activity == Str("3-4 days") { riskScore := riskScore - 3; }
  }

  /** The age, sex, blood-pressure and cholesterol steps of `calculateRisk`. */
  method AddMeasuredPoints(answers: map<string, Value>, score: int) returns (riskScore: int)
    ensures riskScore == score + AgePoints(NumericAnswer(answers, "age")) + SexPoints(answers)
                         + BloodPressurePoints(NumericAnswer(answers, "systolic_bp"))
                         + TotalCholesterolPoints(NumericAnswer(answers, "total_cholesterol"))
                         + HdlPoints(NumericAnswer(answers, "hdl_cholesterol"))
  {
    riskScore := score;

    var age := NumericAnswer(answers, "age");
    if age >= 65 { riskScore := riskScore + 30; }
    else if age >= 55 { riskScore := riskScore + 20; }
    else if age >= 45 { riskScore := riskScore + 10; }
    else if age >= 35 { riskScore := riskScore + 5; }
    ghost var sum := score + AgePoints(age);
    assert riskScore == sum;

    if Get(answers, "gender") == Some(Str("Male")) { riskScore := riskScore + 10; }
    sum := sum + SexPoints(answers);
    assert riskScore == sum;

    var systolic := NumericAnswer(answers, "systolic_bp");
    if systolic >= 160 { riskScore := riskScore + 25; }
    else if systolic >= 140 { riskScore := riskScore + 15; }
    else if systolic >= 130 { riskScore := riskScore + 10; }
    else if systolic >= 120 { riskScore := riskScore + 5; }
    sum := sum + BloodPressurePoints(systolic);
    assert riskScore == sum;

    var totalChol := NumericAnswer(answers, "total_cholesterol");
    var hdlChol := NumericAnswer(answers, "hdl_cholesterol");
    if totalChol >= 240 { riskScore := riskScore + 15; }
    else if totalChol >= 200 { riskScore := riskScore + 10; }
    sum := sum + TotalCholesterolPoints(totalChol);
    assert riskScore == sum;
    if hdlChol < 40 { riskScore := riskScore + 15; }
    else if hdlChol < 50 { riskScore := riskScore + 5; }
  }

  /** The lifestyle and medical-history steps of `calculateRisk`. */
  method AddHistoryPoints(answers: map<string, Value>, score: int) returns (riskScore: int)
    ensures riskScore == score + HistoryPoints(answers)
  {
    riskScore := score;
    if Truthy(Get(answers, "smoking_status")) { riskScore := riskScore + 20; }
    if Truthy(Get(answers, "diabetes")) { riskScore := riskScore + 25; }
    ghost var sum := score + FlagPoints(answers, "smoking_status", 20) + FlagPoints(answers, "diabetes", 25);
    assert riskScore == sum;
    if Truthy(Get(answers, "hypertension_treatment")) { riskScore := riskScore + 10; }
    if Truthy(Get(answers, "family_history")) { riskScore := riskScore + 15; }
    sum := sum + FlagPoints(answers, "hypertension_treatment", 10) + FlagPoints(answers, "family_history", 15);
    assert riskScore == sum;
    if Truthy(Get(answers, "chest_pain")) { riskScore := riskScore + 10; }
    if Truthy(Get(answers, "shortness_of_breath")) { riskScore := riskScore + 10; }
  }

  /** `calculateRisk`: accumulate the points factor by factor, clamp, then categorise. */
  method CalculateRisk(answers: map<string, Value>) returns (result: RiskResult)
    ensures result.score == ScoreText(RiskScore(answers))
    ensures result.category == DisplayName(CategoryLevel(RiskScore(answers)))
    ensures result.factors == RiskFactors(Get(answers, "age"), Get(answers, "gender"),
                                          Get(answers, "systolic_bp"), Get(answers, "smoking_status"),
                                          Get(answers, "diabetes"), Get(answers, "family_history"))
  {
    var riskScore := AccumulatePoints(answers);
    riskScore := if riskScore > 100 then 100 else riskScore;
    riskScore := if riskScore < 0 then 0 else riskScore;
    assert riskScore == RiskScore(answers);

    var category := "Low Risk";
    if riskScore >= 80 { category := "Very High Risk"; }
    else if riskScore >= 60 { category := "High Risk"; }
    else if riskScore >= 40 { category := "Intermediate Risk"; }
    else if riskScore >= 20 { category := "Borderline Risk"; }

    result := RiskResult(
      Text.NatToDecimal(riskScore) + "%",
      category,
      RiskFactors(Get(answers, "age"), Get(answers, "gender"), Get(answers, "systolic_bp"),
                  Get(answers, "smoking_status"), Get(answers, "diabetes"),
                  Get(answers, "family_history")));
  }

  /** The category bands are 20 points wide from 0, with everything from 80 up very high;
      so the category never decreases as the score grows. */
  lemma CategoryBands(score: int)
    requires 0 <= score <= 100
    ensures Rank(CategoryLevel(score)) == if score >= 80 then 4 else score / 20
  {
  }

  lemma CategoryMonotone(s1: int, s2: int)
    requires s1 <= s2
    ensures Rank(CategoryLevel(s1)) <= Rank(CategoryLevel(s2))
  {
  }

  /** The stored score text reads back, through `parseInt`, as the score itself. */
  lemma ScoreTextParses(score: nat)
    ensures Text.ParseIntOrZero(ScoreText(score)) == score
    ensures ScoreText(score)[|ScoreText(score)| - 1] == '%'
  {
    Text.ParseRenderedNat(score, "%");
  }

  /** The risk factors add up to at most 185 points, so the clamp at 100 is reachable from
      above; the score is 0 exactly when the exercise factor cancels every risk factor, and
      100 exactly when the points reach 100. */
  lemma PointsRange(answers: map<string, Value>)
    ensures RiskFactorPoints(answers) <= 185
    ensures RiskScore(answers) == 0 <==> RiskFactorPoints(answers) + ActivityPoints(answers) <= 0
    ensures RiskScore(answers) == 100 <==> RiskFactorPoints(answers) + ActivityPoints(answers) >= 100
  {
    assert AgePoints(NumericAnswer(answers, "age")) <= 30;
    assert BloodPressurePoints(NumericAnswer(answers, "systolic_bp")) <= 25;
    assert HistoryPoints(answers) <= 90;
  }

  /** Answers at the top of every band, with no exercise. */
  const HighestRiskAnswers: map<string, Value> :=
    map["age" := Num(65), "gender" := Str("Male"), "systolic_bp" := Num(160),
        "total_cholesterol" := Num(240), "hdl_cholesterol" := Num(39),
        "smoking_status" := Bool(true), "diabetes" := Bool(true),
        "hypertension_treatment" := Bool(true), "family_history" := Bool(true),
        "chest_pain" := Bool(true), "shortness_of_breath" := Bool(true)]

  /** The bound of 185 is reached, and such answers score 100. */
  lemma HighestRiskReached()
    ensures RiskFactorPoints(HighestRiskAnswers) == 185 && RiskScore(HighestRiskAnswers) == 100
  {
    var m := HighestRiskAnswers;
    assert Get(m, "age") == Some(Num(65)) && Get(m, "systolic_bp") == Some(Num(160));
    assert Get(m, "total_cholesterol") == Some(Num(240)) && Get(m, "hdl_cholesterol") == Some(Num(39));
    assert Get(m, "gender") == Some(Str("Male"));
    assert HistoryPoints(m) == 90 by {
      assert Truthy(Get(m, "smoking_status")) && Truthy(Get(m, "diabetes"));
      assert Truthy(Get(m, "hypertension_treatment")) && Truthy(Get(m, "family_history"));
      assert Truthy(Get(m, "chest_pain")) && Truthy(Get(m, "shortness_of_breath"));
    }
    assert ActivityAnswer(m) == Str("0 days") by {
      assert "physical_activity" !in m;
    }
  }

  /** An answer `parseInt` cannot read: not a number, and not text with a digit after the
      optional whitespace and sign. */
  predicate Unreadable(v: Value)
  {
    match v
    case Num(_) => false
    case Str(s) => !Text.HasLeadingInteger(s)
    case _ => true
  }

  /** A missing or unparseable HDL answer reads as 0 and so adds the full 15 points. */
  lemma HdlMissingAddsFifteen(answers: map<string, Value>)
    requires "hdl_cholesterol" !in answers || Unreadable(answers["hdl_cholesterol"])
    ensures NumericAnswer(answers, "hdl_cholesterol") == 0
    ensures HdlPoints(NumericAnswer(answers, "hdl_cholesterol")) == 15
  {
    if "hdl_cholesterol" in answers && answers["hdl_cholesterol"].Str? {
      Text.UnreadableParsesAsZero(answers["hdl_cholesterol"].s);
    }
  }

  /** Answer maps that agree on every key except the exercise answer score the same
      non-exercise points. */
  lemma SameRiskFactors(a: map<string, Value>, b: map<string, Value>)
    requires forall k :: k != "physical_activity" ==> Get(a, k) == Get(b, k)
    ensures RiskFactorPoints(a) == RiskFactorPoints(b)
  {
    assert Get(a, "age") == Get(b, "age");
    assert Get(a, "gender") == Get(b, "gender");
    assert Get(a, "systolic_bp") == Get(b, "systolic_bp");
    assert Get(a, "total_cholesterol") == Get(b, "total_cholesterol");
    assert Get(a, "hdl_cholesterol") == Get(b, "hdl_cholesterol");
    assert HistoryPoints(a) == HistoryPoints(b) by {
      assert Get(a, "smoking_status") == Get(b, "smoking_status");
      assert Get(a, "diabetes") == Get(b, "diabetes");
      assert Get(a, "hypertension_treatment") == Get(b, "hypertension_treatment");
      assert Get(a, "family_history") == Get(b, "family_history");
      assert Get(a, "chest_pain") == Get(b, "chest_pain");
      assert Get(a, "shortness_of_breath") == Get(b, "shortness_of_breath");
    }
  }

  /** Whatever the exercise answer, the score is never above the score with no exercise
      answer at all. */
  lemma ExerciseNeverRaises(answers: map<string, Value>, activity: Value)
    ensures RiskScore(answers["physical_activity" := activity])
            <= RiskScore(answers - {"physical_activity"})
  {
    var withA := answers["physical_activity" := activity];
    var without := answers - {"physical_activity"};
    forall k | k != "physical_activity" ensures Get(withA, k) == Get(without, k) {
    }
    SameRiskFactors(withA, without);
    assert Get(without, "physical_activity") == None;
  }

  /** The exercise points of each offered answer, in questionnaire order. */
  lemma ActivityOptionPoints(answers: map<string, Value>, i: nat)
    requires i < |ActivityOptions|
    ensures ActivityPoints(answers["physical_activity" := Str(ActivityOptions[i])]) == [0, 0, -3, -5, -10][i]
  {
    var a := answers["physical_activity" := Str(ActivityOptions[i])];
    assert Get(a, "physical_activity") == Some(Str(ActivityOptions[i]));
    assert ActivityAnswer(a) == Str(ActivityOptions[i]);
  }

  /** More exercise days never give a higher score (the options in questionnaire order). */
  lemma MoreExerciseNeverRaises(answers: map<string, Value>, i: nat, j: nat)
    requires i <= j < |ActivityOptions|
    ensures RiskScore(answers["physical_activity" := Str(ActivityOptions[j])])
            <= RiskScore(answers["physical_activity" := Str(ActivityOptions[i])])
  {
    var ai := answers["physical_activity" := Str(ActivityOptions[i])];
    var aj := answers["physical_activity" := Str(ActivityOptions[j])];
    forall k | k != "physical_activity" ensures Get(ai, k) == Get(aj, k) {
    }
    SameRiskFactors(ai, aj);
    ActivityOptionPoints(answers, i);
    ActivityOptionPoints(answers, j);
  }

  // ---------------------------------------------------------------------------------------
  // Questionnaire navigation

  /** The value stored for an answer: boolean questions store whether the answer is "Yes". */
  function Recorded(q: Question, answer: string): Value
  {
    if q.kind == Boolean then Bool(answer == "Yes") else Str(answer)
  }

  /** The text put back in the answer field when returning to a question: for other than
      yes/no questions a missing or `null` answer has no `toString` and gives "". */
  function Restored(q: Question, stored: Option<Value>): (r: string)
    ensures q.kind == Boolean ==> r == "Yes" || r == "No"
    ensures q.kind != Boolean && (stored.None? || stored == Some(Null)) ==> r == ""
    ensures q.kind != Boolean && stored.Some? && stored.value.Str? ==> r == stored.value.s
  {
    if q.kind == Boolean then (if Truthy(stored) then "Yes" else "No")
    else if stored.Some? && !stored.value.Null? then ToText(stored.value)
    else ""
  }

  /** Going back to a question shows the answer that was given to it: exactly for text,
      number and select questions, and for yes/no questions whenever the answer was one of
      the two offered. */
  lemma RestoreRecordedAnswer(q: Question, answer: string)
    requires q.kind == Boolean ==> answer in {"Yes", "No"}
    ensures Restored(q, Some(Recorded(q, answer))) == answer
  {
  }

  class Questionnaire {
    var index: nat
    var answers: map<string, Value>
    var currentAnswer: string
    /** The answer maps handed to `submitAssessment`, oldest first. */
    var submissions: seq<map<string, Value>>

    ghost predicate Valid()
      reads this
    {
      index < |Questions|
    }

    constructor ()
      ensures Valid()
      ensures index == 0 && answers == map[] && currentAnswer == "" && submissions == []
    {
      index, answers, currentAnswer, submissions := 0, map[], "", [];
    }

    /** The answer buttons and input fields set the pending answer. */
    method Choose(answer: string)
      modifies this`currentAnswer
      ensures currentAnswer == answer
    {
      currentAnswer := answer;
    }

    /** `canProceed`: the next button is enabled. */
    function CanProceed(): bool
      reads this
      requires Valid()
    {
      currentAnswer != "" || !Questions[index].required
    }

    /** `handleAnswer`. */
    method HandleAnswer()
      requires Valid()
      modifies this`answers, this`index, this`submissions
      ensures Valid()
      ensures !old(CanProceed()) ==> unchanged(this)
      ensures old(CanProceed()) ==>
        answers == old(answers)[Questions[old(index)].id := Recorded(Questions[old(index)], currentAnswer)]
      ensures old(CanProceed()) && old(index) < |Questions| - 1 ==>
        index == old(index) + 1 && submissions == old(submissions)
      ensures old(CanProceed()) && old(index) == |Questions| - 1 ==>
        index == old(index) && submissions == old(submissions) + [answers]
    {
      var q := Questions[index];
      if currentAnswer == "" && q.required {
        return;
      }
      var processed := Recorded(q, currentAnswer);
      answers := answers[q.id := processed];
      if index == |Questions| - 1 {
        submissions := submissions + [answers];
      } else {
        index := index + 1;
      }
    }

    /** `handlePrevious`. */
    method HandlePrevious()
      requires Valid()
      modifies this`index, this`currentAnswer
      ensures Valid()
      ensures old(index) == 0 ==> unchanged(this)
      ensures old(index) > 0 ==>
        index == old(index) - 1
        && currentAnswer == Restored(Questions[index], Get(answers, Questions[index].id))
    {
      if index > 0 {
        index := index - 1;
        var prev := Questions[index];
        currentAnswer := Restored(prev, Get(answers, prev.id));
      }
    }

    /** The effect that runs after every render in which the question index changed. */
    method ResetAnswerOnIndexChange()
      modifies this`currentAnswer
      ensures currentAnswer == ""
    {
      currentAnswer := "";
    }

    /** Pressing Next, with the reset effect that follows when the index moved: the next
        question starts with an empty answer. */
    method Next()
      requires Valid()
      modifies this
      ensures Valid()
      ensures !old(CanProceed()) ==> unchanged(this)
      ensures old(CanProceed()) ==>
        answers == old(answers)[Questions[old(index)].id := Recorded(Questions[old(index)], old(currentAnswer))]
      ensures old(CanProceed()) && old(index) < |Questions| - 1 ==>
        index == old(index) + 1 && submissions == old(submissions) && currentAnswer == ""
      ensures old(CanProceed()) && old(index) == |Questions| - 1 ==>
        index == old(index) && submissions == old(submissions) + [answers]
        && currentAnswer == old(currentAnswer)
    {
      var before := index;
      HandleAnswer();
      if index != before {
        ResetAnswerOnIndexChange();
      }
    }

    /** Pressing Back as the component is written: the restored answer is rendered once and
        then cleared by the reset effect, because the index changed. */
    method BackAsWritten()
      requires Valid()
      modifies this
      ensures Valid() && answers == old(answers) && submissions == old(submissions)
      ensures old(index) == 0 ==> unchanged(this)
      ensures old(index) > 0 ==> index == old(index) - 1 && currentAnswer == ""
    {
      var before := index;
      HandlePrevious();
      if index != before {
        ResetAnswerOnIndexChange();
      }
    }

    /** Pressing Back as intended: the reset applies to forward moves only, so the previous
        question shows the answer that was given to it. */
    method Back()
      requires Valid()
      modifies this
      ensures Valid() && answers == old(answers) && submissions == old(submissions)
      ensures old(index) == 0 ==> unchanged(this)
      ensures old(index) > 0 ==>
        index == old(index) - 1
        && currentAnswer == Restored(Questions[index], Get(answers, Questions[index].id))
    {
      HandlePrevious();
    }
  }

  /** After answering "50" to the first question and going back from the second, the
      answer field shows "" as written and "50" as intended. */
  method BackClearsRestoredAnswer() returns (asWritten: string, intended: string)
    ensures asWritten == "" && intended == "50"
  {
    var chat := new Questionnaire();
    chat.Choose("50");
    chat.Next();
    chat.BackAsWritten();
    asWritten := chat.currentAnswer;

    chat := new Questionnaire();
    chat.Choose("50");
    chat.Next();
    chat.Back();
    intended := chat.currentAnswer;
  }
}
