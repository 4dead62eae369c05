/** The embedding backfill function: for every stored assessment without an embedding it
    composes a text from the record, asks the embedding model for a vector and stores the
    vector on the record, counting successes and failures. The model, the database and the
    HTTP transport are outside the model; what they do to one record is an `EmbedOutcome`. */
module GenerateEmbeddings {
  import Text
  import opened Values

  /** The columns of an assessment row that the text is built from. `inputs` is `None` when
      the column is not an object; `recommendations` is `None` when it is not an array. */
  datatype AssessmentRecord = AssessmentRecord(
    id: string,
    riskCategory: Option<Value>,
    riskScore: Option<Value>,
    overallRecommendation: Option<Value>,
    providerComments: Option<Value>,
    inputs: Option<seq<(string, Value)>>,
    recommendations: Option<seq<RecItem>>)

  // ---------------------------------------------------------------------------------------
  // Text composition: the specification

  /** `[${v}]` when `v` is truthy, nothing otherwise. */
  function PartIf(v: Option<Value>): (r: seq<string>)
    ensures |r| <= 1
  {
    if Truthy(v) then [ToText(v.value)] else []
  }

  function ScorePart(v: Option<Value>): seq<string>
  {
    if Truthy(v) then ["risk score " + ToText(v.value)] else []
  }

  /** Risk category, risk score, overall recommendation and provider comments, in this
      order, each only when its field is truthy. */
  function HeaderParts(r: AssessmentRecord): seq<string>
  {
    PartIf(r.riskCategory) + ScorePart(r.riskScore)
    + PartIf(r.overallRecommendation) + PartIf(r.providerComments)
  }

  function EntryText(entry: (string, Value)): string
  {
    entry.0 + ": " + ToText(entry.1)
  }

  /** One `key: value` part per input entry whose value is not null, in entry order. */
  function InputParts(entries: seq<(string, Value)>): seq<string>
  {
    if entries == [] then []
    else
      var last := entries[|entries| - 1];
      InputParts(entries[..|entries| - 1]) + (if last.1 != Null then [EntryText(last)] else [])
  }

  function ItemParts(category: Option<Value>, text: Option<Value>): seq<string>
  {
    PartIf(category) + PartIf(text)
  }

  /** The category and text of each recommendation, in order; `None` when a `null` element
      makes the loop throw. */
  function RecommendationParts(items: seq<RecItem>): Option<seq<string>>
  {
    if items == [] then Some([])
    else
      match RecommendationParts(items[..|items| - 1])
      case None => None
      case Some(parts) =>
        match items[|items| - 1]
        case NullItem => None
        case Item(c, t) => Some(parts + ItemParts(c, t))
  }

  /** All text parts of a record, or `None` when building them throws. */
  function TextParts(r: AssessmentRecord): Option<seq<string>>
  {
    var inputs := if r.inputs.Some? then InputParts(r.inputs.value) else [];
    if r.recommendations.None? then Some(HeaderParts(r) + inputs)
    else
      match RecommendationParts(r.recommendations.value)
      case None => None
      case Some(recs) => Some(HeaderParts(r) + inputs + recs)
  }

  /** `textParts.join(' ').trim()`. */
  function RecordText(r: AssessmentRecord): Option<string>
  {
    match TextParts(r)
    case None => None
    case Some(parts) => Some(Text.Trim(Text.Join(parts, " ")))
  }

  // ---------------------------------------------------------------------------------------
  // Text composition: the loop that builds it

  /** Pushes the parts of one block of text parts onto `textParts`, as the function's loop
      body does, and joins them. `None` when reading a recommendation throws. */
  method ComposeText(r: AssessmentRecord) returns (text: Option<string>)
    ensures text == RecordText(r)
  {
    var textParts: seq<string> := [];
    if Truthy(r.riskCategory) { textParts := textParts + [ToText(r.riskCategory.value)]; }
    assert textParts == PartIf(r.riskCategory);
    if Truthy(r.riskScore) { textParts := textParts + ["risk score " + ToText(r.riskScore.value)]; }
    assert textParts == PartIf(r.riskCategory) + ScorePart(r.riskScore);
    if Truthy(r.overallRecommendation) { textParts := textParts + [ToText(r.overallRecommendation.value)]; }
    assert textParts == PartIf(r.riskCategory) + ScorePart(r.riskScore) + PartIf(r.overallRecommendation);
    if Truthy(r.providerComments) { textParts := textParts + [ToText(r.providerComments.value)]; }
    assert textParts == HeaderParts(r);
    ghost var inputs := if r.inputs.Some? then InputParts(r.inputs.value) else [];
    if r.inputs.Some? {
      textParts := PushInputParts(textParts, r.inputs.value);
    }
    assert textParts == HeaderParts(r) + inputs;
    if r.recommendations.Some? {
      var pushed := PushRecommendationParts(textParts, r.recommendations.value);
      if pushed.None? {
        assert TextParts(r) == None;
        return None;
      }
      textParts := pushed.value;
    }
    assert TextParts(r) == Some(textParts);
    text := Some(Text.Trim(Text.Join(textParts, " ")));
  }

  /** `Object.entries(inputs).forEach(...)`: push `key: value` for every non-null value. */
  method PushInputParts(textParts: seq<string>, entries: seq<(string, Value)>) returns (parts: seq<string>)
    ensures parts == textParts + InputParts(entries)
  {
    parts := textParts;
    var i := 0;
    while i < |entries|
      invariant 0 <= i <= |entries|
      invariant parts == textParts + InputParts(entries[..i])
    {
      var entry := entries[i];
      if entry.1 != Null {
        parts := parts + [entry.0 + ": " + ToText(entry.1)];
      }
      assert entries[..i + 1][..i] == entries[..i];
      i := i + 1;
    }
    assert entries[..i] == entries;
  }

  /** `recommendations.forEach(...)`: push each truthy category and text; `None` when a
      `null` element throws. */
  method PushRecommendationParts(textParts: seq<string>, items: seq<RecItem>) returns (parts: Option<seq<string>>)
    ensures RecommendationParts(items).None? ==> parts.None?
    ensures RecommendationParts(items).Some? ==> parts == Some(textParts + RecommendationParts(items).value)
  {
    var pushed := textParts;
    var j := 0;
    while j < |items|
      invariant 0 <= j <= |items|
      invariant RecommendationParts(items[..j]).Some?
      invariant pushed == textParts + RecommendationParts(items[..j]).value
    {
      assert items[..j + 1][..j] == items[..j];
      if items[j].NullItem? {
        RecommendationPartsFailureSticks(items, j + 1);
        return None;
      }
      var c, t := items[j].category, items[j].text;
      if Truthy(c) { pushed := pushed + [ToText(c.value)]; }
      if Truthy(t) { pushed := pushed + [ToText(t.value)]; }
      j := j + 1;
    }
    assert items[..j] == items;
    parts := Some(pushed);
  }

  /** Once an element throws, every longer prefix throws too. */
  lemma {:induction false} RecommendationPartsFailureSticks(items: seq<RecItem>, k: nat)
    requires k <= |items|
    requires RecommendationParts(items[..k]).None?
    ensures RecommendationParts(items).None?
  {
    if k < |items| {
      var n := |items|;
      assert items[..n - 1][..k] == items[..k];
      RecommendationPartsFailureSticks(items[..n - 1], k);
      assert items[..n][..n - 1] == items[..n - 1];
    } else {
      assert items[..k] == items;
    }
  }

  // ---------------------------------------------------------------------------------------
  // Properties of the composed text

  /** Each input entry with a non-null value contributes its `key: value` part, every input
      part comes from such an entry, and there is one part per such entry. */
  lemma InputPartsExactly(entries: seq<(string, Value)>)
    ensures forall k :: 0 <= k < |entries| && entries[k].1 != Null ==> EntryText(entries[k]) in InputParts(entries)
    ensures forall p :: p in InputParts(entries) ==>
              exists k :: 0 <= k < |entries| && entries[k].1 != Null && p == EntryText(entries[k])
    ensures |InputParts(entries)| == NonNullCount(entries) <= |entries|
  {
    InputPartsCount(entries);
    forall k | 0 <= k < |entries| && entries[k].1 != Null
      ensures EntryText(entries[k]) in InputParts(entries)
    {
      InputPartsComplete(entries, k);
    }
    forall p | p in InputParts(entries)
      ensures exists k :: 0 <= k < |entries| && entries[k].1 != Null && p == EntryText(entries[k])
    {
      var k := InputPartSource(entries, p);
    }
    InputPartsLength(entries);
  }

  lemma {:induction false} InputPartsComplete(entries: seq<(string, Value)>, k: nat)
    requires k < |entries| && entries[k].1 != Null
    ensures EntryText(entries[k]) in InputParts(entries)
  {
    var n := |entries| - 1;
    var init := entries[..n];
    var tail := if entries[n].1 != Null then [EntryText(entries[n])] else [];
    assert InputParts(entries) == InputParts(init) + tail;
    if k < n {
      assert init[k] == entries[k];
      InputPartsComplete(init, k);
    } else {
      assert tail == [EntryText(entries[k])];
    }
  }

  /** The entry an input part comes from. */
  lemma {:induction false} InputPartSource(entries: seq<(string, Value)>, p: string) returns (k: nat)
    requires p in InputParts(entries)
    ensures k < |entries| && entries[k].1 != Null && p == EntryText(entries[k])
  {
    var n := |entries| - 1;
    var init := entries[..n];
    var tail := if entries[n].1 != Null then [EntryText(entries[n])] else [];
    assert InputParts(entries) == InputParts(init) + tail;
    if p in InputParts(init) {
      k := InputPartSource(init, p);
      assert init[k] == entries[k];
    } else {
      assert p in tail;
      k := n;
    }
  }

  /** The number of input entries whose value is not null. */
  function NonNullCount(entries: seq<(string, Value)>): (n: nat)
    ensures n <= |entries|
  {
    if entries == [] then 0
    else NonNullCount(entries[..|entries| - 1]) + (if entries[|entries| - 1].1 != Null then 1 else 0)
  }

  /** There is exactly one part per non-null entry. */
  lemma {:induction false} InputPartsCount(entries: seq<(string, Value)>)
    ensures |InputParts(entries)| == NonNullCount(entries)
  {
    if entries != [] {
      InputPartsCount(entries[..|entries| - 1]);
    }
  }

  lemma {:induction false} InputPartsLength(entries: seq<(string, Value)>)
    ensures |InputParts(entries)| <= |entries|
  {
    if entries != [] {
      InputPartsLength(entries[..|entries| - 1]);
    }
  }

  /** Null-valued entries contribute nothing: dropping them leaves the parts unchanged. */
  lemma {:induction false} NullEntriesOmitted(entries: seq<(string, Value)>, key: string)
    ensures InputParts(entries + [(key, Null)]) == InputParts(entries)
  {
    assert (entries + [(key, Null)])[..|entries|] == entries;
  }

  /** A record is skipped exactly when every one of its parts is blank. */
  lemma SkippedIffAllBlank(r: AssessmentRecord)
    requires TextParts(r).Some?
    ensures RecordText(r) == Some("")
            <==> forall k :: 0 <= k < |TextParts(r).value| ==> Text.AllWhitespace(TextParts(r).value[k])
  {
    var parts := TextParts(r).value;
    Text.TrimEmptyIff(Text.Join(parts, " "));
    Text.JoinAllWhitespace(parts, " ");
  }

  /** A record with at least one non-null input is never skipped: its `key: value` part
      holds a colon. */
  lemma RecordWithInputNotSkipped(r: AssessmentRecord, k: nat)
    requires TextParts(r).Some?
    requires r.inputs.Some? && k < |r.inputs.value| && r.inputs.value[k].1 != Null
    ensures RecordText(r) != Some("")
  {
    var entry := r.inputs.value[k];
    InputPartsExactly(r.inputs.value);
    var parts := TextParts(r).value;
    assert EntryText(entry) in parts;
    var idx :| 0 <= idx < |parts| && parts[idx] == EntryText(entry);
    assert parts[idx][|entry.0|] == ':';
    SkippedIffAllBlank(r);
  }

  // ---------------------------------------------------------------------------------------
  // The batch loop

  /** What embedding and storing one record's text led to. */
  datatype EmbedOutcome = Stored | UpdateFailed | EmbeddingThrew

  datatype Counts = Counts(processed: nat, errors: nat, skipped: nat, modelCalls: nat)

  /** What one record adds to the counters, given its text (`None` when composing the text
      threw) and what embedding it led to. */
  function Step(text: Option<string>, outcome: EmbedOutcome): Counts
  {
    match text
    case None => Counts(0, 1, 0, 0)
    case Some(t) =>
      if t == "" then Counts(0, 0, 1, 0)
      else if outcome == Stored then Counts(1, 0, 0, 1)
      else Counts(0, 1, 0, 1)
  }

  function Add(a: Counts, b: Counts): Counts
  {
    Counts(a.processed + b.processed, a.errors + b.errors, a.skipped + b.skipped,
           a.modelCalls + b.modelCalls)
  }

  /** The texts of a batch of records, in order. */
  function RecordTexts(records: seq<AssessmentRecord>): (texts: seq<Option<string>>)
    ensures |texts| == |records|
  {
    seq(|records|, k requires 0 <= k < |records| => RecordText(records[k]))
  }

  /** The counters after the loop has visited every text. */
  function Tally(texts: seq<Option<string>>, outcomes: seq<EmbedOutcome>): Counts
    requires |outcomes| == |texts|
  {
    if texts == [] then Counts(0, 0, 0, 0)
    else
      var n := |texts| - 1;
      Add(Tally(texts[..n], outcomes[..n]), Step(texts[n], outcomes[n]))
  }

  /** Every record is counted exactly once: processed, failed or skipped; and the model is
      called at most once per counted record. */
  lemma {:induction false} TallyAccountsForEveryRecord(texts: seq<Option<string>>, outcomes: seq<EmbedOutcome>)
    requires |outcomes| == |texts|
    ensures Tally(texts, outcomes).processed + Tally(texts, outcomes).errors
            + Tally(texts, outcomes).skipped == |texts|
    ensures Tally(texts, outcomes).modelCalls <= Tally(texts, outcomes).processed + Tally(texts, outcomes).errors
  {
    if texts != [] {
      var n := |texts| - 1;
      TallyAccountsForEveryRecord(texts[..n], outcomes[..n]);
    }
  }

  lemma TallyExtend(texts: seq<Option<string>>, outcomes: seq<EmbedOutcome>, i: nat)
    requires |outcomes| == |texts| && i < |texts|
    ensures Tally(texts[..i + 1], outcomes[..i + 1])
            == Add(Tally(texts[..i], outcomes[..i]), Step(texts[i], outcomes[i]))
  {
    assert texts[..i + 1][..i] == texts[..i] && outcomes[..i + 1][..i] == outcomes[..i];
  }

  /** Appending a record to the batch adds its step to the counters. */
  lemma TallySnoc(records: seq<AssessmentRecord>, outcomes: seq<EmbedOutcome>,
                  r: AssessmentRecord, outcome: EmbedOutcome)
    requires |outcomes| == |records|
    ensures Tally(RecordTexts(records + [r]), outcomes + [outcome])
            == Add(Tally(RecordTexts(records), outcomes), Step(RecordText(r), outcome))
  {
    var texts := RecordTexts(records + [r]);
    assert texts[..|records|] == RecordTexts(records);
    assert texts[|records|] == RecordText(r);
    assert (outcomes + [outcome])[..|outcomes|] == outcomes;
  }

  /** A record with blank text moves only the skip count. */
  lemma SkippedRecordCountsNothing(records: seq<AssessmentRecord>, outcomes: seq<EmbedOutcome>,
                                   r: AssessmentRecord, outcome: EmbedOutcome)
    requires |outcomes| == |records|
    requires RecordText(r) == Some("")
    ensures var before, after := Tally(RecordTexts(records), outcomes),
                                 Tally(RecordTexts(records + [r]), outcomes + [outcome]);
            after.processed == before.processed && after.errors == before.errors
            && after.modelCalls == before.modelCalls && after.skipped == before.skipped + 1
  {
    TallySnoc(records, outcomes, r, outcome);
  }

  /** A stored embedding moves `processed`; a failed update or a thrown error moves
      `errors`. */
  lemma EmbeddedRecordCounts(records: seq<AssessmentRecord>, outcomes: seq<EmbedOutcome>,
                             r: AssessmentRecord, outcome: EmbedOutcome)
    requires |outcomes| == |records|
    requires RecordText(r).Some? && RecordText(r) != Some("")
    ensures var before, after := Tally(RecordTexts(records), outcomes),
                                 Tally(RecordTexts(records + [r]), outcomes + [outcome]);
            after.modelCalls == before.modelCalls + 1 && after.skipped == before.skipped
            && (outcome == Stored ==> after.processed == before.processed + 1 && after.errors == before.errors)
            && (outcome != Stored ==> after.errors == before.errors + 1 && after.processed == before.processed)
  {
    TallySnoc(records, outcomes, r, outcome);
  }

  /** The `for` loop over the fetched records with its `processed` and `errors` counters.
      `modelCalls` counts the calls to the embedding model. */
  method ProcessAssessments(records: seq<AssessmentRecord>, outcomes: seq<EmbedOutcome>)
    returns (processed: nat, errors: nat, modelCalls: nat)
    requires |outcomes| == |records|
    ensures processed == Tally(RecordTexts(records), outcomes).processed
    ensures errors == Tally(RecordTexts(records), outcomes).errors
    ensures modelCalls == Tally(RecordTexts(records), outcomes).modelCalls
    ensures processed + errors <= |records|
  {
    ghost var texts := RecordTexts(records);
    processed, errors, modelCalls := 0, 0, 0;
    ghost var skipped: nat := 0;
    var i := 0;
    while i < |records|
      invariant 0 <= i <= |records|
      invariant Counts(processed, errors, skipped, modelCalls) == Tally(texts[..i], outcomes[..i])
    {
      var step := CountRecord(records[i], outcomes[i]);
      assert step == Step(texts[i], outcomes[i]);
      processed, errors := processed + step.processed, errors + step.errors;
      skipped, modelCalls := skipped + step.skipped, modelCalls + step.modelCalls;
      TallyExtend(texts, outcomes, i);
      i := i + 1;
    }
    assert texts[..i] == texts && outcomes[..i] == outcomes;
    TallyAccountsForEveryRecord(texts, outcomes);
  }

  /** The loop body for one record: compose its text; a blank text is skipped, any other
      text is embedded and stored, which either succeeds or counts as an error. */
  method CountRecord(r: AssessmentRecord, outcome: EmbedOutcome) returns (step: Counts)
    ensures step == Step(RecordText(r), outcome)
  {
    var text := ComposeText(r);
    if text.None? {
      step := Counts(0, 1, 0, 0);
    } else if text.value == "" {
      step := Counts(0, 0, 1, 0);
    } else if outcome == Stored {
      step := Counts(1, 0, 0, 1);
    } else {
      step := Counts(0, 1, 0, 1);
    }
  }

  // ---------------------------------------------------------------------------------------
  // The request handler

  datatype FetchResult = FetchError(message: string) | Fetched(data: Option<seq<AssessmentRecord>>)

  datatype Response =
    | Preflight
    | ConfigurationError
    | FetchFailed(error: string)
    | NothingToDo(processed: nat)
    | Completed(processed: nat, errors: nat, total: nat)
    | InternalError

  /** Both settings are truthy. */
  predicate Configured(url: Option<string>, serviceKey: Option<string>)
  {
    Truthy(OptStr(url)) && Truthy(OptStr(serviceKey))
  }

  /** The fetch returned at least one record. */
  predicate HasRecords(fetch: FetchResult)
  {
    fetch.Fetched? && fetch.data.Some? && |fetch.data.value| > 0
  }

  /** The whole request: CORS preflight, configuration check, creation of the database
      client, fetch of the records lacking an embedding, creation of the embedding session,
      then the batch loop. `clientOk` and `sessionOk` say whether creating the client and
      the session succeed; when either throws, the outer `catch` answers with an internal
      error. */
  method Serve(requestMethod: string, url: Option<string>, serviceKey: Option<string>,
               clientOk: bool, fetch: FetchResult, sessionOk: bool, outcomes: seq<EmbedOutcome>)
    returns (response: Response, modelCalls: nat)
    requires HasRecords(fetch) ==> |outcomes| == |fetch.data.value|
    ensures response == Preflight <==> requestMethod == "OPTIONS"
    ensures response == ConfigurationError <==> requestMethod != "OPTIONS" && !Configured(url, serviceKey)
    ensures response == InternalError <==>
              requestMethod != "OPTIONS" && Configured(url, serviceKey)
              && (!clientOk || (HasRecords(fetch) && !sessionOk))
    ensures response.FetchFailed? <==>
              requestMethod != "OPTIONS" && Configured(url, serviceKey) && clientOk && fetch.FetchError?
    ensures response.FetchFailed? ==> response.error == "Failed to fetch assessments: " + fetch.message
    ensures response.NothingToDo? <==>
              requestMethod != "OPTIONS" && Configured(url, serviceKey) && clientOk
              && fetch.Fetched? && !HasRecords(fetch)
    ensures response.NothingToDo? ==> response.processed == 0
    ensures response.Completed? <==>
              requestMethod != "OPTIONS" && Configured(url, serviceKey) && clientOk
              && HasRecords(fetch) && sessionOk
    ensures response.Completed? ==>
              response.total == |fetch.data.value|
              && response.processed == Tally(RecordTexts(fetch.data.value), outcomes).processed
              && response.errors == Tally(RecordTexts(fetch.data.value), outcomes).errors
              && modelCalls == Tally(RecordTexts(fetch.data.value), outcomes).modelCalls
              && response.processed + response.errors <= response.total
    ensures !response.Completed? ==> modelCalls == 0
  {
    modelCalls := 0;
    if requestMethod == "OPTIONS" {
      return Preflight, 0;
    }
    if !Truthy(OptStr(url)) || !Truthy(OptStr(serviceKey)) {
      return ConfigurationError, 0;
    }
    if !clientOk {
      return InternalError, 0;
    }
    match fetch
    case FetchError(message) =>
      response := FetchFailed("Failed to fetch assessments: " + message);
    case Fetched(data) =>
      if data.None? || |data.value| == 0 {
        response := NothingToDo(0);
      } else if !sessionOk {
        response := InternalError;
      } else {
        var processed, errors;
        processed, errors, modelCalls := ProcessAssessments(data.value, outcomes);
        response := Completed(processed, errors, |data.value|);
      }
  }

  /** An environment variable as a JavaScript value. */
  function OptStr(v: Option<string>): Option<Value>
  {
    if v.Some? then Some(Str(v.value)) else None
  }
}
