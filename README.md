# CardioAI Provider Portal — a Dafny model of its logic

The Cardio AI provider portal is a React and Supabase application with two audiences.

A patient answers a twelve-question cardiovascular questionnaire. The app turns the answers into a
risk score from 0 to 100 and one of five risk categories, and stores the assessment with status
`pending_review`.

A clinician then works in a second part of the app:

- a dashboard lists assessments awaiting review and those already reviewed;
- a review screen shows the answers and the risk;
- a recommendation workbench edits per-category recommendations, an overall recommendation and
  review notes.

The clinician can save a draft or approve. Approving writes status `review_complete`, looks up
the patient's e-mail address, notifies the patient through a webhook and then sets status
`reviewed`.

A server-side function backfills text embeddings for stored assessments. It composes one text
per record, embeds it and counts successes and failures.

This project models that logic in Dafny and proves its properties. One module corresponds to
each component:

| module | file | models |
|---|---|---|
| `Text` | text.dfy | the JavaScript string built-ins used: ASCII case mapping, ECMAScript `trim`, `Array.join`, decimal rendering, `parseInt(x) \|\| 0` |
| `Values` | values.dfy | stored JavaScript values, truthiness, `${v}` rendering |
| `Categories` | categories.dfy | the case-insensitive risk-category `switch` shared by four display functions |
| `AssessmentChat` | assessment_chat.dfy | the points model `calculateRisk`; the question-by-question navigation (class `Questionnaire`) |
| `GenerateEmbeddings` | generate_embeddings.dfy | text-part composition, the skip rule, the counting loop, the request handler |
| `RecommendationWorkbench` | recommendation_workbench.dfy | title and label lookups, recommendation editing, the draft and approval flows (class `Workbench`) |
| `ReviewAssessment` | review_assessment.dfy | answer formatting, recommendations for the workbench, read-only status, the id format, colours, the review screen |
| `Dashboard` | dashboard.dfy | tab status filter, badge colours, the list screen |
| `ResultsPage` | results_page.dfy | the results colours, icon and headline |
| `App` | app.dfy | the landing / questionnaire / results state machine with the saved assessment id |
| `EnvCheck` | env_check.dfy | the configuration validity check and its error panel |

The backend — database queries, the e-mail lookup, the webhook and the embedding model — is not
modelled. What it answers enters as parameters: `Replies`, `FetchReply`, `QueryReply`,
`EmbedOutcome` and `FetchResult`. Component state that the source updates in place is modelled
as classes whose methods state their whole new state.

`formatAssessmentId` occurs twice with identical bodies, at `src/components/ReviewAssessment.tsx:91-93`
and `src/components/Dashboard.tsx:88-90`. It is defined once, as
`ReviewAssessment.FormatAssessmentId`.

The repository's description mentions search components: a query parser, filters, a ranker and
tenant scoping. None of them is in the repository's code. The only search code is an embedding
call followed by a database procedure call. It is not modelled.

## Model

| member | source | states |
|---|---|---|
| Text.TrimStartRemovesLeadingWhitespace | supabase/functions/generate-embeddings/index.ts:99 | `trimStart` removes exactly the leading run of whitespace: what is left is a suffix, starts with a non-whitespace character or is empty, and what was removed is all whitespace |
| Text.TrimEndRemovesTrailingWhitespace | supabase/functions/generate-embeddings/index.ts:99 | `trimEnd` removes exactly the trailing run of whitespace |
| Text.TrimEmptyIff | supabase/functions/generate-embeddings/index.ts:99-101 | a string trims to empty iff every character is whitespace |
| Text.JoinAllWhitespace | supabase/functions/generate-embeddings/index.ts:99 | parts joined by a space are all whitespace iff every part is |
| Text.AllWhitespaceAppend | supabase/functions/generate-embeddings/index.ts:99 | a concatenation is all whitespace iff both halves are |
| Text.LowerAppend | src/components/ReviewAssessment.tsx:100 | lower-casing distributes over concatenation |
| Text.LowerOfUpper | src/components/ReviewAssessment.tsx:100 | lower-casing an upper-cased string equals lower-casing the original |
| Text.LowerIdempotent | src/components/ReviewAssessment.tsx:100 | lower-casing twice is lower-casing once |
| Text.UpperIdempotent | src/components/ReviewAssessment.tsx:92 | upper-casing twice is upper-casing once |
| Text.NatToDecimal | src/components/AssessmentChat.tsx:236 | the rendering of a count is a non-empty digit string with no leading zero |
| Text.DecimalRoundTrip | src/components/AssessmentChat.tsx:236 | reading back a rendered count gives the count |
| Text.DigitPrefix | src/components/AssessmentChat.tsx:185 | the digits `parseInt` reads are the longest digit prefix |
| Text.DigitPrefixOfDigitsThen | src/components/AssessmentChat.tsx:185 | digits followed by a non-digit: the digit prefix is exactly those digits |
| Text.UnreadableParsesAsZero | src/components/AssessmentChat.tsx:203 | text without a leading integer parses, with `\|\| 0`, to 0 |
| Text.ParseRenderedNat | src/components/AssessmentChat.tsx:236 | a rendered count followed by a non-digit suffix such as `%` parses back to the count |
| Values.TruthyTextNonEmpty | supabase/functions/generate-embeddings/index.ts:75-80 | a truthy value never renders as the empty string |
| Categories.ClassifyRecognises | src/components/ReviewAssessment.tsx:100-118 | a category is recognised as level L iff its lower-case form is L's name, with or without " risk" |
| Categories.ClassifyIgnoresCase | src/components/ReviewAssessment.tsx:100 | classification is the same for the upper-cased and lower-cased category |
| Categories.ClassifyRiskSuffix | src/components/ReviewAssessment.tsx:101-116 | "X" and "X risk" classify as the same level, in any letter case |
| Categories.LowerDisplayName | src/components/AssessmentChat.tsx:229-233 | each stored category name is its level's name plus " Risk" in title case |
| Categories.ClassifyDisplayName | src/components/AssessmentChat.tsx:229-233 | every category the questionnaire stores is recognised, as the level it names |
| Categories.CategoryOfDisplayName | src/components/ReviewAssessment.tsx:96-118 | a stored category value is not blank and is recognised as its level |
| Categories.CategoryOfRiskSuffix | src/components/ResultsPage.tsx:38-79 | a stored "X" and "X risk" are recognised as level X |
| Categories.CategoryOfIgnoresCase | src/components/Dashboard.tsx:68 | recognition of a stored string ignores letter case |
| AssessmentChat.QuestionIdsDistinct | src/components/AssessmentChat.tsx:18-97 | there are twelve questions and each stores its answer under its own key |
| AssessmentChat.ActivityPoints | src/components/AssessmentChat.tsx:220-223 | the exercise factor lies between -10 and 0 |
| AssessmentChat.Clamp | src/components/AssessmentChat.tsx:226 | the clamp lies in [0, 100], keeps values in range and maps values below or above to the nearest bound |
| AssessmentChat.AccumulatePoints | src/components/AssessmentChat.tsx:182-223 | the accumulated points are the risk-factor points plus the exercise points |
| AssessmentChat.AddMeasuredPoints | src/components/AssessmentChat.tsx:184-209 | the age, sex, blood-pressure and cholesterol steps add exactly their points |
| AssessmentChat.AddHistoryPoints | src/components/AssessmentChat.tsx:211-217 | the six yes/no steps add exactly their points |
| AssessmentChat.CalculateRisk | src/components/AssessmentChat.tsx:180-247 | the result's score text is the clamped score rendered with `%`; the category names the score's band; the factors echo six answers |
| AssessmentChat.CategoryBands | src/components/AssessmentChat.tsx:229-233 | the category's rank is the score divided by 20, with 80 and above very high |
| AssessmentChat.CategoryMonotone | src/components/AssessmentChat.tsx:229-233 | a higher score never gives a lower category |
| AssessmentChat.ScoreTextParses | src/components/AssessmentChat.tsx:236 | the stored score text ends in `%` and parses back to the score |
| AssessmentChat.PointsRange | src/components/AssessmentChat.tsx:184-226 | the risk factors add up to at most 185 points; the score is 0 iff exercise cancels every risk point, and 100 iff the points reach 100 |
| AssessmentChat.HighestRiskReached | src/components/AssessmentChat.tsx:184-226 | answers at the top of every band without exercise reach the 185 points and score 100 |
| AssessmentChat.HdlMissingAddsFifteen | src/components/AssessmentChat.tsx:203-208 | a missing or unreadable HDL answer reads as 0 and adds 15 points |
| AssessmentChat.SameRiskFactors | src/components/AssessmentChat.tsx:184-217 | answers that agree except on exercise have the same risk-factor points |
| AssessmentChat.ExerciseNeverRaises | src/components/AssessmentChat.tsx:219-226 | any exercise answer gives a score no higher than no exercise answer |
| AssessmentChat.ActivityOptionPoints | src/components/AssessmentChat.tsx:220-223 | the five offered exercise answers are worth 0, 0, -3, -5 and -10 points |
| AssessmentChat.MoreExerciseNeverRaises | src/components/AssessmentChat.tsx:219-226 | choosing a later, more active exercise option never raises the score |
| AssessmentChat.Restored | src/components/AssessmentChat.tsx:142-146 | a yes/no question is restored as "Yes" or "No"; any other question is restored as "" when its answer is missing or `null`, and as the stored string otherwise |
| AssessmentChat.RestoreRecordedAnswer | src/components/AssessmentChat.tsx:117-146 | restoring a recorded answer gives back the answer typed or chosen |
| AssessmentChat.Questionnaire.constructor | src/components/AssessmentChat.tsx:99-101 | the questionnaire starts at the first question with no answers |
| AssessmentChat.Questionnaire.Choose | src/components/AssessmentChat.tsx:257 | choosing sets the pending answer |
| AssessmentChat.Questionnaire.HandleAnswer | src/components/AssessmentChat.tsx:114-134 | an empty answer to a required question changes nothing; otherwise the answer is recorded under the question's key (booleans as `answer == "Yes"`), and the index advances by one or, on the last question, the answers are submitted |
| AssessmentChat.Questionnaire.HandlePrevious | src/components/AssessmentChat.tsx:136-148 | at index 0 nothing changes; otherwise the index drops by one and the previous answer is restored; the index stays in range |
| AssessmentChat.Questionnaire.ResetAnswerOnIndexChange | src/components/AssessmentChat.tsx:109-112 | the effect clears the pending answer |
| AssessmentChat.Questionnaire.Next | src/components/AssessmentChat.tsx:109-134 | pressing Next records the answer and moves on with an empty field |
| AssessmentChat.Questionnaire.BackAsWritten | src/components/AssessmentChat.tsx:109-148 | as written, going back ends with an empty answer field |
| AssessmentChat.Questionnaire.Back | src/components/AssessmentChat.tsx:136-148 | as intended, going back shows the previous question's recorded answer |
| AssessmentChat.BackClearsRestoredAnswer | src/components/AssessmentChat.tsx:109-148 | after answering "50" and going back, the field shows "" as written and "50" as intended |
| GenerateEmbeddings.PartIf | supabase/functions/generate-embeddings/index.ts:75 | a field contributes at most one part |
| GenerateEmbeddings.ComposeText | supabase/functions/generate-embeddings/index.ts:72-99 | the pushes produce the specified parts in the fixed order, joined by spaces and trimmed, or fail when a `null` recommendation throws |
| GenerateEmbeddings.PushInputParts | supabase/functions/generate-embeddings/index.ts:83-89 | the input loop appends exactly the `key: value` parts of the non-null entries |
| GenerateEmbeddings.PushRecommendationParts | supabase/functions/generate-embeddings/index.ts:92-97 | the recommendation loop appends each truthy category and text, or throws on a `null` element |
| GenerateEmbeddings.RecommendationPartsFailureSticks | supabase/functions/generate-embeddings/index.ts:93-96 | once an element throws, the whole loop throws |
| GenerateEmbeddings.InputPartsExactly | supabase/functions/generate-embeddings/index.ts:83-89 | every non-null input entry contributes its part, every part comes from such an entry, and there are exactly as many parts as non-null entries |
| GenerateEmbeddings.NonNullCount | supabase/functions/generate-embeddings/index.ts:85 | the number of non-null entries is at most the number of entries |
| GenerateEmbeddings.InputPartsCount | supabase/functions/generate-embeddings/index.ts:84-87 | there is exactly one input part per non-null entry |
| GenerateEmbeddings.InputPartsComplete | supabase/functions/generate-embeddings/index.ts:84-87 | a non-null entry's part is among the input parts |
| GenerateEmbeddings.InputPartSource | supabase/functions/generate-embeddings/index.ts:84-87 | each input part comes from a non-null entry |
| GenerateEmbeddings.InputPartsLength | supabase/functions/generate-embeddings/index.ts:84-87 | there are no more input parts than entries |
| GenerateEmbeddings.NullEntriesOmitted | supabase/functions/generate-embeddings/index.ts:85 | a null-valued entry adds no part |
| GenerateEmbeddings.SkippedIffAllBlank | supabase/functions/generate-embeddings/index.ts:99-104 | a record's text is empty iff every part is whitespace |
| GenerateEmbeddings.RecordWithInputNotSkipped | supabase/functions/generate-embeddings/index.ts:83-104 | a record with a non-null input entry is never skipped |
| GenerateEmbeddings.RecordTexts | supabase/functions/generate-embeddings/index.ts:69 | there is one text per record |
| GenerateEmbeddings.TallyAccountsForEveryRecord | supabase/functions/generate-embeddings/index.ts:65-132 | processed, errors and skipped add up to the number of records, and the model is called at most once per counted record |
| GenerateEmbeddings.TallyExtend | supabase/functions/generate-embeddings/index.ts:69-131 | one more iteration adds that record's step to the counters |
| GenerateEmbeddings.TallySnoc | supabase/functions/generate-embeddings/index.ts:69-131 | appending a record to the batch adds its step to the counters |
| GenerateEmbeddings.SkippedRecordCountsNothing | supabase/functions/generate-embeddings/index.ts:101-104 | a record with empty text moves neither `processed` nor `errors` and calls no model |
| GenerateEmbeddings.EmbeddedRecordCounts | supabase/functions/generate-embeddings/index.ts:115-130 | a stored embedding moves `processed` by one; an update error or a thrown error moves `errors` by one |
| GenerateEmbeddings.ProcessAssessments | supabase/functions/generate-embeddings/index.ts:65-132 | the loop's counters are the tally of the records' steps, and `processed + errors` is at most the number of records |
| GenerateEmbeddings.CountRecord | supabase/functions/generate-embeddings/index.ts:70-131 | one iteration counts exactly its record's step |
| GenerateEmbeddings.Serve | supabase/functions/generate-embeddings/index.ts:9-154 | each response happens exactly in its own case. `OPTIONS` gets the preflight. Missing settings give the configuration error. A client or session that throws gives the internal error. A fetch error is reported with its message. An empty or `null` batch gives `processed: 0`. Every other request completes, with the tally as its counters and the record count as its total. Only a completed run calls the model |
| RecommendationWorkbench.TitleOfFinishedStatuses | src/components/RecommendationWorkbench.tsx:49-54 | the heading is "Clinical Review" iff the status is none of the three finished ones, and those three have distinct headings |
| RecommendationWorkbench.FindOption | src/components/RecommendationWorkbench.tsx:228 | `find` returns the first option with that value, or none when there is none |
| RecommendationWorkbench.LabelOfKnownValue | src/components/RecommendationWorkbench.tsx:21-25 | each option value is shown as its own label |
| RecommendationWorkbench.LabelOfUnknownValue | src/components/RecommendationWorkbench.tsx:227-230 | any other value is shown as it is |
| RecommendationWorkbench.NotSpecifiedIffEmpty | src/components/RecommendationWorkbench.tsx:246 | the read-only view shows "Not specified" iff there is no overall recommendation, or it is that string itself |
| RecommendationWorkbench.UpdateRecommendationText | src/components/RecommendationWorkbench.tsx:63-69 | length and categories are kept, entries of the category get the new text, and the others are unchanged |
| RecommendationWorkbench.UpdateIdempotent | src/components/RecommendationWorkbench.tsx:63-69 | setting the same text twice is setting it once |
| RecommendationWorkbench.UpdatesCommute | src/components/RecommendationWorkbench.tsx:63-69 | edits to different categories can be made in either order |
| RecommendationWorkbench.ReadyToApproveIff | src/components/RecommendationWorkbench.tsx:139-146 | approval may start iff an overall recommendation is chosen and the notes hold a non-whitespace character |
| RecommendationWorkbench.ApprovalWritesInOrder | src/components/RecommendationWorkbench.tsx:151-215 | an approval makes at most two writes: `review_complete` with the fields first, and `reviewed` second only after every later step succeeded; none if the first write fails |
| RecommendationWorkbench.ApprovalFinalStatus | src/components/RecommendationWorkbench.tsx:151-215 | once the first write lands, the row is `reviewed` iff every step succeeded and `review_complete` otherwise, and it holds the edited fields; a failed first write leaves the row untouched |
| RecommendationWorkbench.ApplyOne | src/components/RecommendationWorkbench.tsx:151-161 | applying a single update is that update |
| RecommendationWorkbench.ApplyOneThenAnother | src/components/RecommendationWorkbench.tsx:151-215 | applying two updates applies them in order |
| RecommendationWorkbench.MissingEmailSendsNothing | src/components/RecommendationWorkbench.tsx:177-179 | without an e-mail address no webhook is sent |
| RecommendationWorkbench.DraftKeepsStatus | src/components/RecommendationWorkbench.tsx:113-120 | a saved draft never changes the status |
| RecommendationWorkbench.Workbench.constructor | src/components/RecommendationWorkbench.tsx:37-41 | the editable fields start from the initial values, with no write or notification yet |
| RecommendationWorkbench.Workbench.Resync | src/components/RecommendationWorkbench.tsx:43-47 | new initial values replace the edited ones |
| RecommendationWorkbench.Workbench.EditRecommendationText | src/components/RecommendationWorkbench.tsx:278-279 | editing a text area updates that category's recommendations |
| RecommendationWorkbench.Workbench.SelectOverallRecommendation | src/components/RecommendationWorkbench.tsx:251 | choosing an option sets the overall recommendation |
| RecommendationWorkbench.Workbench.EditProviderComments | src/components/RecommendationWorkbench.tsx:305 | typing sets the notes |
| RecommendationWorkbench.Workbench.SaveDraft | src/components/RecommendationWorkbench.tsx:110-135 | a successful save writes the three fields and only them; a failed save writes nothing; the status never changes and `saving` ends false |
| RecommendationWorkbench.Workbench.ApproveAndSend | src/components/RecommendationWorkbench.tsx:137-225 | failed validation writes and sends nothing; otherwise the row gets exactly the approval updates, the webhook gets one payload iff the lookup found an address, the outcome says which check failed, and `approving` ends false |
| ReviewAssessment.UpperCharKeepsWordChar | src/components/ReviewAssessment.tsx:40 | upper-casing keeps a character's word-character class and its lower-case form |
| ReviewAssessment.FormatInputLabelShape | src/components/ReviewAssessment.tsx:39-41 | the label keeps the key's length; spaces appear exactly where the key had `_` or a space; only letter case changes; each word starts with a non-lower-case character |
| ReviewAssessment.FormatInputLabelIdempotent | src/components/ReviewAssessment.tsx:39-41 | formatting a label twice is formatting it once |
| ReviewAssessment.FormatSystolicBp | src/components/ReviewAssessment.tsx:39-41 | the key `systolic_bp` is shown as "Systolic Bp" |
| ReviewAssessment.FormatInputValue | src/components/ReviewAssessment.tsx:43-48 | a shown value is never empty |
| ReviewAssessment.NotAvailableIff | src/components/ReviewAssessment.tsx:43-48 | "N/A" is shown iff the value is missing, null, empty or that string |
| ReviewAssessment.FormatStringValue | src/components/ReviewAssessment.tsx:47 | a non-empty string is shown as it is |
| ReviewAssessment.FormatNumberReadsBack | src/components/ReviewAssessment.tsx:47 | a shown non-negative number parses back to itself |
| ReviewAssessment.ReloadSavedRecommendations | src/components/ReviewAssessment.tsx:50-58 | recommendations saved by the workbench are reloaded exactly |
| ReviewAssessment.FormatRecommendationsShape | src/components/ReviewAssessment.tsx:50-58 | the result fails iff an element is `null`; otherwise length and order are kept, truthy categories and texts are kept as their text, and falsy ones become "" |
| ReviewAssessment.ReadOnlyIffFinishedTitle | src/components/ReviewAssessment.tsx:60-62 | the workbench is read-only iff its heading is a finished review's |
| ReviewAssessment.ApprovedReviewIsReadOnly | src/components/ReviewAssessment.tsx:60 | a record whose approval's first write landed is read-only |
| ReviewAssessment.FormatAssessmentIdShape | src/components/ReviewAssessment.tsx:91-93 | the id is "CVD-" plus at most eight characters, at most twelve in all, with no lower-case letter after the prefix |
| ReviewAssessment.FormatAssessmentIdPrefix | src/components/ReviewAssessment.tsx:91-93 | ids that agree in their first eight characters, up to case, format alike |
| ReviewAssessment.KeyOfLevelColor | src/components/ReviewAssessment.tsx:104-116 | two characters of each level's colours identify the level |
| ReviewAssessment.LevelColorsDistinct | src/components/ReviewAssessment.tsx:95-119 | each level has its own colours, none of them the neutral default |
| ReviewAssessment.ScoreColorLeadsRiskColor | src/components/ReviewAssessment.tsx:95-145 | for every category the score colour is the first class of the category colours |
| ReviewAssessment.RiskColorOfStoredName | src/components/ReviewAssessment.tsx:95-145 | a stored category name gets its level's colours in any letter case, and its score colour |
| ReviewAssessment.PropsAfterSave | src/components/ReviewAssessment.tsx:253-261 | after saving, the reloaded screen hands the workbench the saved fields |
| ReviewAssessment.ReviewScreen.constructor | src/components/ReviewAssessment.tsx:12-13 | the screen starts loading with no record |
| ReviewAssessment.ReviewScreen.FetchAssessment | src/components/ReviewAssessment.tsx:19-33 | a fetched row replaces the record, a failed fetch keeps the one shown, and loading ends |
| ReviewAssessment.ReviewScreen.View | src/components/ReviewAssessment.tsx:64-89 | the review with its workbench is shown iff loading is over and a record is present |
| Dashboard.WithStatus | src/components/Dashboard.tsx:46 | the query keeps only rows of the requested status, drawn from the table |
| Dashboard.ShownExactly | src/components/Dashboard.tsx:43-52 | an answered query shows exactly the table's rows of the tab's status |
| Dashboard.ShownRowsMatchTab | src/components/Dashboard.tsx:43-52 | after an answered query, every shown row opens read-only iff the tab is the reviewed one |
| Dashboard.WithStatusComplete | src/components/Dashboard.tsx:46 | the query keeps every row of that status |
| Dashboard.TabsAreDisjoint | src/components/Dashboard.tsx:46 | no row is on both tabs, and `review_complete` or `rejected` rows are on neither |
| Dashboard.TabMatchesReadOnly | src/components/Dashboard.tsx:46 | the tab's status is read-only on the review screen iff the tab is the reviewed one |
| Dashboard.ListedRowsMatchTab | src/components/Dashboard.tsx:44-53 | every listed row opens read-only iff the tab is the reviewed one |
| Dashboard.InterruptedApprovalDisappears | src/components/Dashboard.tsx:46 | an approval interrupted after its first write leaves the record on neither tab |
| Dashboard.KeyOfLevelColor | src/components/Dashboard.tsx:68-82 | two characters of each badge identify its hue |
| Dashboard.LevelColorIff | src/components/Dashboard.tsx:68-85 | two levels share a badge iff they are equal or both very high or high, and no level looks blank or unrecognised |
| Dashboard.BlankAndUnknownDiffer | src/components/Dashboard.tsx:64-66 | a blank category differs from an unknown one exactly by the missing border class |
| Dashboard.RiskColorIgnoresCase | src/components/Dashboard.tsx:68 | the badge ignores letter case |
| Dashboard.RiskColorOfStoredName | src/components/Dashboard.tsx:68-82 | a stored category name gets its level's badge |
| Dashboard.DashboardScreen.constructor | src/components/Dashboard.tsx:11-15 | the dashboard starts on the pending tab, loading, with no rows |
| Dashboard.DashboardScreen.StartFetch | src/components/Dashboard.tsx:42 | before the query, the loading view is switched on unless the closure's `refreshing` is true |
| Dashboard.DashboardScreen.FinishFetch | src/components/Dashboard.tsx:43-55 | the answered query shows the tab's rows of the table, `null` data empties the list, and an error keeps it; loading is switched off unless the closure's `refreshing` is true; `refreshing` ends false |
| Dashboard.DashboardScreen.FetchAssessments | src/components/Dashboard.tsx:41-56 | the list becomes the tab's query result; loading ends false unless the closure saw a refresh, then it is unchanged; `refreshing` ends false |
| Dashboard.DashboardScreen.PressRefresh | src/components/Dashboard.tsx:59 | the refresh flag is set |
| Dashboard.DashboardScreen.HandleRefreshAsWritten | src/components/Dashboard.tsx:58-61 | as written, a refresh (the button at line 112 is enabled only while `refreshing` is false) reloads the list, and loading ends false, since the awaited closure saw `refreshing` false |
| Dashboard.DashboardScreen.HandleRefresh | src/components/Dashboard.tsx:58-61 | as the guard intends, a refresh reloads the list and leaves `loading` as it was |
| Dashboard.RefreshShowsLoadingView | src/components/Dashboard.tsx:41-61 | after the first load, pressing Refresh turns the loading view on as written, and not as intended |
| Dashboard.DashboardScreen.SelectTab | src/components/Dashboard.tsx:17-27 | clicking the tab already shown changes nothing; a new tab reloads the list for it, and after an answered query every row on screen opens read-only iff the new tab is the reviewed one |
| ResultsPage.UnrecognisedIsNeutral | src/components/ResultsPage.tsx:33-81 | a blank or unknown category gets the gray colours and the clock |
| ResultsPage.IconBySeverity | src/components/ResultsPage.tsx:59-81 | the warning sign marks exactly very high and high, and the check mark exactly low |
| ResultsPage.CheckCircleIffLow | src/components/ResultsPage.tsx:59-81 | the check mark appears iff the lower-cased category is "low" or "low risk" |
| ResultsPage.CaseInsensitive | src/components/ResultsPage.tsx:38 | colours and icon ignore letter case |
| ResultsPage.RiskSuffixInsensitive | src/components/ResultsPage.tsx:38-79 | "X" and "X risk" get the same colours and icon |
| ResultsPage.AgreesWithReview | src/components/ResultsPage.tsx:33-57 | the colours match the review screen's iff the category is recognised |
| ResultsPage.ResultIconOfScore | src/components/ResultsPage.tsx:142-150 | for the questionnaire's own result, the headline is the category name, the warning sign shows iff the score is at least 60, and the check mark iff it is below 20 |
| App.Application.constructor | src/App.tsx:11-13 | the app starts on the landing state, loading, with no id |
| App.Application.Rendered | src/App.tsx:41-70 | exactly one view: loading while loading, else the state's screen; results only with a non-empty id, and for that id |
| App.Application.Restore | src/App.tsx:15-23 | a saved id resumes the questionnaire with that id; otherwise nothing changes; loading ends |
| App.Application.HandleStartAssessment | src/App.tsx:25-27 | starting moves to the questionnaire and keeps the id |
| App.Application.HandleAssessmentComplete | src/App.tsx:29-33 | completing shows the results of exactly that id and forgets the saved id |
| App.Application.HandleBackToStart | src/App.tsx:35-39 | going back shows the landing page with no id and forgets the saved id |
| App.Launch | src/App.tsx:11-23 | start-up shows the questionnaire iff an id was saved, and the landing page otherwise |
| EnvCheck.UrlValidIff | src/components/EnvCheck.tsx:8-12 | the URL is valid iff it is set and starts with `https://`, so its placeholder test is redundant |
| EnvCheck.KeyValidIff | src/components/EnvCheck.tsx:8-13 | the key is valid iff it is longer than 20 characters and not a placeholder; both placeholders pass the length test |
| EnvCheck.PanelIffInvalid | src/components/EnvCheck.tsx:15-38 | the panel shows iff a setting is invalid, then lists at least one problem, and each problem iff its own check fails |

## Left out

- Database, authentication, the e-mail-lookup procedure and the webhook transport are not modelled. Every call's result is a parameter: `Replies`, `FetchReply`, `QueryReply` or `FetchResult`.
- The sequencing of the calls is modelled as well as the fields written and the payload sent. The HTTP shape is not.
- The embedding model (`Supabase.ai.Session`, `model.run`) is not modelled. Its effect on one record is an `EmbedOutcome`.
- `src/lib/supabase.ts`, `src/components/AuthForm.tsx`, `src/components/LandingPage.tsx` and `tailwind.config.js` are not part of this model: client set-up, sign-in and presentation only.
- `supabase/functions/smart-search/index.ts` is not part of this model. It is an embedding call followed by a database procedure whose logic is not visible.
- JSX rendering, styling, icons' markup, `showCenteredAlert`, `alert`, console logging and the questionnaire's progress bar (a floating-point percentage) are left out as presentation.
- Timers are left out: the dashboard's 30-second auto-refresh and the pause before returning to the dashboard after a draft save.
- Concurrency between asynchronous handlers is not modelled. Each handler runs to completion. The buttons the source disables while `saving`, `approving` or `refreshing` therefore cannot be pressed twice in the model. What each `async` function's closure sees of the state is modelled: it is the render's value, passed as `seenRefreshing`.
- The callbacks `onSaveSuccess`, `onBackToDashboard` and `onComplete` are not modelled.
- The provider record fetched by the dashboard (`fetchProvider`) is not modelled.
- `Text.Lower` and `Text.Upper` map ASCII letters only. JavaScript's `toLowerCase` / `toUpperCase` map all of Unicode.
- `Text.ParseIntOrZero` reads optional whitespace, an optional sign and decimal digits. `parseInt`'s `0x` prefix and other radixes are not modelled.
- Numbers are integers. Fractional answers and scores are not modelled.
- `Values.ToText` renders values that are not strings. The source hands such values on unconverted, for example a numeric `category` passed through `rec.category || ''`, and the model uses their string form instead.
- Nested objects and arrays among answer values are not modelled. The source would render them as `[object Object]` or comma lists.
- `GenerateEmbeddings.ComposeText` models the inputs column as a sequence of key/value entries in `Object.entries` order. A non-object column is the empty case.
- The payload fields `inputs`, `results`, `guidelines` and `disclaimer` that the source copies from the re-read row are not part of `Payload`. The model carries the fields the workbench edits plus `risk_score` and `risk_category`.
- `Dashboard.WithStatus` models the list query's status filter. The database's `order('timestamp', descending)` is not modelled, so the newest-first order is not proved.
- `ReviewAssessment.FormatRecommendationsForWorkbench` models a column that is missing, `null` or not an array as `None`. Inside the array, real objects and other values are not distinguished: any element other than `null` reads its two fields, which are absent on strings and numbers.
- `Dashboard.DashboardScreen.HandleRefresh` and `Dashboard.DashboardScreen.HandleRefreshAsWritten` require `refreshing` to be false, because the source disables the refresh button while it is true (`src/components/Dashboard.tsx:112`).
- `RecommendationWorkbench.Workbench.ApproveAndSend` and `RecommendationWorkbench.Workbench.SaveDraft` require a workbench that is not read-only, because the source renders neither button on a finished review. The editing methods require the same, because the source renders no inputs there.

## Findings

| source | as written | input that shows it | evidently intended | confidence | as-written member | corrected member |
|---|---|---|---|---|---|---|
| src/components/AssessmentChat.tsx:110-112,136-147 | `handlePrevious` restores the previous answer into the answer field. The effect on `currentQuestionIndex` then clears the field, because the index changed in the same update. | Answer "50" to the age question, press Next, then press Back: the age field is empty. | Going back shows the answer given to the previous question. | not executed | AssessmentChat.Questionnaire.BackAsWritten | AssessmentChat.Questionnaire.Back |
| src/components/Dashboard.tsx:42,54,58-61 | `handleRefresh` sets `refreshing` and awaits `fetchAssessments`. That function belongs to the render in which the button was enabled, where `refreshing` is false. The `if (!refreshing)` guards therefore never see the refresh: the list is replaced by the loading view during every manual refresh. | Let the first load finish, then press Refresh: "Loading assessments..." replaces the list until the query answers. | A manual refresh keeps the list in view and only spins the refresh icon. | not executed | Dashboard.DashboardScreen.HandleRefreshAsWritten | Dashboard.DashboardScreen.HandleRefresh |
