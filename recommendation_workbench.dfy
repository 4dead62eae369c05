/** The clinician's workbench for one assessment: per-category recommendation texts, an
    overall recommendation picked from three options, review notes, and the two actions
    that persist them. Saving a draft writes the edited fields; approving validates them,
    writes them with status `review_complete`, looks up the patient's e-mail address,
    notifies the patient through a webhook and finally sets status `reviewed`. The
    database and the webhook are outside the model: what they answer is `Replies`. */
module RecommendationWorkbench {
  import Text
  import opened Values

  datatype Recommendation = Recommendation(category: string, text: string)

  // ---------------------------------------------------------------------------------------
  // Lookups

  /** `getTitle`: the heading for a record status. */
  function Title(status: string): string
  {
    if status == "reviewed" then "Reviewed Assessment"
    else if status == "review_complete" then "Approved Assessment"
    else if status == "rejected" then "Rejected Assessment"
    else "Clinical Review"
  }

  /** The three finished statuses have their own headings, and every other status shows the
      editing heading. */
  lemma TitleOfFinishedStatuses(status: string)
    ensures Title(status) == "Clinical Review"
            <==> status != "reviewed" && status != "review_complete" && status != "rejected"
    ensures Title("reviewed") != Title("review_complete") && Title("review_complete") != Title("rejected")
            && Title("reviewed") != Title("rejected")
  {
  }

  /** The overall-recommendation options as (value, label) pairs, in display order. */
  const OverallOptions: seq<(string, string)> := [
    ("requires-discussion", "Requires In-Depth Discussion with Cardiologist"),
    ("routine-followup", "Routine Follow-Up Recommended"),
    ("low-risk-monitor", "Low-Risk / Monitor Annually")
  ]

  /** `options.find(opt => opt.value === value)`: the position of the first option with
      that value. */
  function FindOption(options: seq<(string, string)>, value: string): (r: Option<nat>)
    ensures r.Some? ==> r.value < |options| && options[r.value].0 == value
                        && forall j :: 0 <= j < r.value ==> options[j].0 != value
    ensures r.None? ==> forall j :: 0 <= j < |options| ==> options[j].0 != value
  {
    if options == [] then None
    else if options[0].0 == value then Some(0)
    else
      match FindOption(options[1..], value)
      case None => None
      case Some(k) => Some(k + 1)
  }

  /** `getOverallRecommendationLabel`. */
  function OverallRecommendationLabel(value: string): string
  {
    match FindOption(OverallOptions, value)
    case Some(k) => OverallOptions[k].1
    case None => value
  }

  /** A known option value is shown as its label. */
  lemma LabelOfKnownValue(k: nat)
    requires k < |OverallOptions|
    ensures OverallRecommendationLabel(OverallOptions[k].0) == OverallOptions[k].1
  {
    var r := FindOption(OverallOptions, OverallOptions[k].0);
    assert OverallOptions[0].0[0] == 'r' && OverallOptions[1].0[1] == 'o' && OverallOptions[2].0[0] == 'l';
    assert OverallOptions[1].0[0] == 'r' && OverallOptions[0].0[1] == 'e';
    assert r.Some? && r.value == k;
  }

  /** Any other value is shown as it is. */
  lemma LabelOfUnknownValue(value: string)
    requires forall k :: 0 <= k < |OverallOptions| ==> OverallOptions[k].0 != value
    ensures OverallRecommendationLabel(value) == value
  {
  }

  /** The read-only view: the label, or "Not specified" when it is empty. */
  function DisplayedOverallRecommendation(value: string): string
  {
    var shown := OverallRecommendationLabel(value);
    if shown == "" then "Not specified" else shown
  }

  /** "Not specified" is shown exactly when no overall recommendation was chosen. */
  lemma NotSpecifiedIffEmpty(value: string)
    ensures DisplayedOverallRecommendation(value) == "Not specified" <==> value == "" || value == "Not specified"
  {
    match FindOption(OverallOptions, value)
    case None =>
    case Some(k) =>
      assert OverallOptions[k].1 != "" && OverallOptions[k].1 != "Not specified";
      assert value == OverallOptions[k].0;
      assert value != "" && value != "Not specified";
  }

  // ---------------------------------------------------------------------------------------
  // Editing

  /** `updateRecommendationText`: every recommendation of the given category gets the new
      text; nothing else changes. */
  function UpdateRecommendationText(recs: seq<Recommendation>, category: string, text: string)
    : (r: seq<Recommendation>)
    ensures |r| == |recs|
    ensures forall i :: 0 <= i < |recs| ==> r[i].category == recs[i].category
    ensures forall i :: 0 <= i < |recs| && recs[i].category == category ==> r[i].text == text
    ensures forall i :: 0 <= i < |recs| && recs[i].category != category ==> r[i] == recs[i]
  {
    seq(|recs|, i requires 0 <= i < |recs| =>
      if recs[i].category == category then recs[i].(text := text) else recs[i])
  }

  /** Setting the same text twice is setting it once. */
  lemma UpdateIdempotent(recs: seq<Recommendation>, category: string, text: string)
    ensures UpdateRecommendationText(UpdateRecommendationText(recs, category, text), category, text)
            == UpdateRecommendationText(recs, category, text)
  {
    var once := UpdateRecommendationText(recs, category, text);
    var twice := UpdateRecommendationText(once, category, text);
    assert forall i :: 0 <= i < |recs| ==> twice[i] == once[i];
  }

  /** Edits to two different categories do not interfere. */
  lemma UpdatesCommute(recs: seq<Recommendation>, c1: string, t1: string, c2: string, t2: string)
    requires c1 != c2
    ensures UpdateRecommendationText(UpdateRecommendationText(recs, c1, t1), c2, t2)
            == UpdateRecommendationText(UpdateRecommendationText(recs, c2, t2), c1, t1)
  {
    var a := UpdateRecommendationText(UpdateRecommendationText(recs, c1, t1), c2, t2);
    var b := UpdateRecommendationText(UpdateRecommendationText(recs, c2, t2), c1, t1);
    assert forall i :: 0 <= i < |recs| ==> a[i] == b[i];
  }

  // ---------------------------------------------------------------------------------------
  // The stored record and the approval protocol

  /** The columns of the assessment row the workbench reads and writes. */
  datatype Row = Row(status: string, recommendations: seq<Recommendation>,
                     overallRecommendation: string, providerComments: string,
                     riskScore: Option<Value>, riskCategory: Option<Value>)

  /** An update the database applied to the row. */
  datatype RowUpdate =
    | SaveFields(recommendations: seq<Recommendation>, overall: string, comments: string)
    | CompleteReview(recommendations: seq<Recommendation>, overall: string, comments: string)
    | MarkReviewed

  function Apply(row: Row, u: RowUpdate): Row
  {
    match u
    case SaveFields(recs, overall, comments) =>
      row.(recommendations := recs, overallRecommendation := overall, providerComments := comments)
    case CompleteReview(recs, overall, comments) =>
      row.(recommendations := recs, overallRecommendation := overall, providerComments := comments,
           status := "review_complete")
    case MarkReviewed => row.(status := "reviewed")
  }

  /** The updates in order. */
  function ApplyAll(row: Row, us: seq<RowUpdate>): Row
    decreases |us|
  {
    if us == [] then row else ApplyAll(Apply(row, us[0]), us[1..])
  }

  /** What the backend answers during an approval: whether the first update, the re-read of
      the row and the e-mail lookup succeed, the e-mail address found, whether the webhook
      answers `ok`, and whether the final status update succeeds. */
  datatype Replies = Replies(updateOk: bool, fetchOk: bool, lookupOk: bool, email: Option<Value>,
                             webhookOk: bool, statusOk: bool)

  /** The notification sent to the webhook. */
  datatype Payload = Payload(userEmail: Value, assessmentId: string,
                             recommendations: seq<Recommendation>, riskScore: Option<Value>,
                             riskCategory: Option<Value>, overallRecommendation: string,
                             providerComments: string)

  datatype ApprovalOutcome = NeedsOverallRecommendation | NeedsComments | ApprovalFailed | Approved

  /** Approval needs an overall recommendation and review notes that are not blank. */
  predicate ReadyToApprove(overall: string, comments: string)
  {
    overall != "" && Text.Trim(comments) != ""
  }

  /** Review notes count exactly when they hold a character other than whitespace. */
  lemma ReadyToApproveIff(overall: string, comments: string)
    ensures ReadyToApprove(overall, comments) <==> overall != "" && !Text.AllWhitespace(comments)
  {
    Text.TrimEmptyIff(comments);
  }

  /** The approval reaches the webhook: the first update, the re-read and the lookup
      succeeded and found an address. */
  predicate WebhookSent(replies: Replies)
  {
    replies.updateOk && replies.fetchOk && replies.lookupOk && Truthy(replies.email)
  }

  /** The updates an approval gets applied, once the fields have passed validation. */
  function ApprovalUpdates(recs: seq<Recommendation>, overall: string, comments: string,
                           replies: Replies): seq<RowUpdate>
  {
    if !replies.updateOk then []
    else if WebhookSent(replies) && replies.webhookOk && replies.statusOk
    then [CompleteReview(recs, overall, comments), MarkReviewed]
    else [CompleteReview(recs, overall, comments)]
  }

  function ApprovalResult(overall: string, comments: string, replies: Replies): ApprovalOutcome
  {
    if overall == "" then NeedsOverallRecommendation
    else if Text.Trim(comments) == "" then NeedsComments
    else if WebhookSent(replies) && replies.webhookOk && replies.statusOk then Approved
    else ApprovalFailed
  }

  /** The status is written twice and in this order: `review_complete` with the edited
      fields first, `reviewed` last and only after the webhook answered `ok`. */
  lemma ApprovalWritesInOrder(recs: seq<Recommendation>, overall: string, comments: string,
                              replies: Replies)
    ensures var us := ApprovalUpdates(recs, overall, comments, replies);
            |us| <= 2
            && (us != [] ==> us[0] == CompleteReview(recs, overall, comments))
            && (|us| == 2 <==> WebhookSent(replies) && replies.webhookOk && replies.statusOk)
            && (|us| == 2 ==> us[1] == MarkReviewed)
            && (us == [] <==> !replies.updateOk)
  {
  }

  /** After an approval that got past validation the row is `reviewed` exactly when every
      step succeeded, and otherwise `review_complete` once the first update succeeded. */
  lemma ApprovalFinalStatus(row: Row, recs: seq<Recommendation>, overall: string, comments: string,
                            replies: Replies)
    ensures var after := ApplyAll(row, ApprovalUpdates(recs, overall, comments, replies));
            (replies.updateOk ==> (after.status == "reviewed"
                                   <==> WebhookSent(replies) && replies.webhookOk && replies.statusOk))
            && (replies.updateOk && !(WebhookSent(replies) && replies.webhookOk && replies.statusOk)
                ==> after.status == "review_complete")
            && (replies.updateOk ==>
                  (after.recommendations == recs && after.overallRecommendation == overall
                   && after.providerComments == comments))
            && (!replies.updateOk ==> after == row)
  {
    var us := ApprovalUpdates(recs, overall, comments, replies);
    if replies.updateOk {
      var written := Apply(row, CompleteReview(recs, overall, comments));
      if |us| == 2 {
        ApplyOneThenAnother(row, us[0], MarkReviewed);
      } else {
        ApplyOne(row, us[0]);
      }
    }
  }

  lemma ApplyOne(row: Row, u: RowUpdate)
    ensures ApplyAll(row, [u]) == Apply(row, u)
  {
    assert [u][1..] == [];
  }

  lemma ApplyOneThenAnother(row: Row, u: RowUpdate, v: RowUpdate)
    ensures ApplyAll(row, [u, v]) == Apply(Apply(row, u), v)
  {
    assert [u, v][1..] == [v];
    ApplyOne(Apply(row, u), v);
  }

  /** A missing e-mail address stops the approval before the webhook. */
  lemma MissingEmailSendsNothing(replies: Replies)
    requires !Truthy(replies.email)
    ensures !WebhookSent(replies)
  {
  }

  /** A saved draft never changes the status. */
  lemma DraftKeepsStatus(row: Row, recs: seq<Recommendation>, overall: string, comments: string)
    ensures Apply(row, SaveFields(recs, overall, comments)).status == row.status
  {
  }

  class Workbench {
    const assessmentId: string
    /** Finished reviews are shown without editing controls or action buttons. */
    const isReadOnly: bool
    var recommendations: seq<Recommendation>
    var overallRecommendation: string
    var providerComments: string
    var saving: bool
    var approving: bool
    /** The row as stored. */
    var row: Row
    /** The updates the database applied, oldest first. */
    var updates: seq<RowUpdate>
    /** The notifications sent to the webhook, oldest first. */
    var sent: seq<Payload>

    /** The editable fields start from the values passed in by the review screen. */
    constructor(id: string, readOnly: bool, stored: Row, initialRecommendations: seq<Recommendation>,
                initialOverall: string, initialComments: string)
      ensures assessmentId == id && isReadOnly == readOnly && row == stored
      ensures recommendations == initialRecommendations
      ensures overallRecommendation == initialOverall && providerComments == initialComments
      ensures !saving && !approving && updates == [] && sent == []
    {
      assessmentId := id;
      isReadOnly := readOnly;
      row := stored;
      recommendations := initialRecommendations;
      overallRecommendation := initialOverall;
      providerComments := initialComments;
      saving, approving := false, false;
      updates, sent := [], [];
    }

    /** New initial values from the review screen replace the edited ones. */
    method Resync(initialRecommendations: seq<Recommendation>, initialOverall: string,
                  initialComments: string)
      modifies this`recommendations, this`overallRecommendation, this`providerComments
      ensures recommendations == initialRecommendations
      ensures overallRecommendation == initialOverall && providerComments == initialComments
    {
      recommendations := initialRecommendations;
      overallRecommendation := initialOverall;
      providerComments := initialComments;
    }

    /** The text area of one category. */
    method EditRecommendationText(category: string, text: string)
      requires !isReadOnly
      modifies this`recommendations
      ensures recommendations == UpdateRecommendationText(old(recommendations), category, text)
    {
      recommendations := UpdateRecommendationText(recommendations, category, text);
    }

    method SelectOverallRecommendation(value: string)
      requires !isReadOnly
      modifies this`overallRecommendation
      ensures overallRecommendation == value
    {
      overallRecommendation := value;
    }

    method EditProviderComments(value: string)
      requires !isReadOnly
      modifies this`providerComments
      ensures providerComments == value
    {
      providerComments := value;
    }

    /** `saveDraft`: one update of the three edited fields; the status is left alone. */
    method SaveDraft(updateOk: bool) returns (ok: bool)
      requires !isReadOnly
      modifies this`row, this`updates, this`saving
      ensures ok == updateOk
      ensures updates == old(updates)
                         + (if updateOk then [SaveFields(recommendations, overallRecommendation, providerComments)] else [])
      ensures row == if updateOk then Apply(old(row), SaveFields(recommendations, overallRecommendation, providerComments))
                     else old(row)
      ensures row.status == old(row.status)
      ensures !saving
    {
      saving := true;
      if updateOk {
        var u := SaveFields(recommendations, overallRecommendation, providerComments);
        row := Apply(row, u);
        updates := updates + [u];
        ok := true;
      } else {
        ok := false;
      }
      saving := false;
    }

    /** `approveAndSend`: validate, write the fields with status `review_complete`, re-read
        the row, look up the e-mail address, notify the webhook, then set `reviewed`. Any
        failure after the first write leaves the row `review_complete`. */
    method ApproveAndSend(replies: Replies) returns (outcome: ApprovalOutcome)
      requires !isReadOnly
      modifies this`row, this`updates, this`sent, this`approving
      ensures outcome == ApprovalResult(overallRecommendation, providerComments, replies)
      ensures !ReadyToApprove(overallRecommendation, providerComments) ==>
                row == old(row) && updates == old(updates) && sent == old(sent) && approving == old(approving)
      ensures ReadyToApprove(overallRecommendation, providerComments) ==>
                var us := ApprovalUpdates(recommendations, overallRecommendation, providerComments, replies);
                updates == old(updates) + us && row == ApplyAll(old(row), us) && !approving
                && sent == old(sent) + (if WebhookSent(replies)
                                        then [Payload(replies.email.value, assessmentId, recommendations,
                                                      old(row).riskScore, old(row).riskCategory,
                                                      overallRecommendation, providerComments)]
                                        else [])
    {
      if overallRecommendation == "" {
        return NeedsOverallRecommendation;
      }
      if Text.Trim(providerComments) == "" {
        return NeedsComments;
      }
      approving := true;
      ghost var us := ApprovalUpdates(recommendations, overallRecommendation, providerComments, replies);
      ghost var before := row;
      outcome := ApprovalFailed;
      if replies.updateOk {
        var first := CompleteReview(recommendations, overallRecommendation, providerComments);
        row := Apply(row, first);
        updates := updates + [first];
        if replies.fetchOk && replies.lookupOk && Truthy(replies.email) {
          var full := row;
          sent := sent + [Payload(replies.email.value, assessmentId, recommendations, full.riskScore,
                                  full.riskCategory, overallRecommendation, providerComments)];
          if replies.webhookOk && replies.statusOk {
            row := Apply(row, MarkReviewed);
            updates := updates + [MarkReviewed];
            outcome := Approved;
            ApplyOneThenAnother(before, first, MarkReviewed);
          } else {
            ApplyOne(before, first);
          }
        } else {
          ApplyOne(before, first);
        }
      }
      approving := false;
    }
  }
}
