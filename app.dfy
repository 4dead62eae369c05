/** The patient application's top level: a landing page, the questionnaire and the results
    screen, chosen by a screen state and the id of the current assessment. An id saved in
    the browser's storage under `currentAssessmentId` resumes the questionnaire; the storage
    is the field `savedId`. */
module App {
  import opened Values

  datatype AppState = Landing | Assessment | Results

  /** What the application renders: the loading screen, one of the three screens, or
      nothing (results without an id). */
  datatype View = LoadingView | LandingView | AssessmentView | ResultsView(id: string) | NothingShown

  /** JavaScript truthiness of a string that may be `null`. */
  predicate Present(id: Option<string>) { id.Some? && id.value != "" }

  class Application {
    var appState: AppState
    var assessmentId: Option<string>
    var loading: bool
    /** The browser storage entry `currentAssessmentId`. */
    var savedId: Option<string>

    constructor(stored: Option<string>)
      ensures appState == Landing && assessmentId == None && loading && savedId == stored
    {
      appState := Landing;
      assessmentId := None;
      loading := true;
      savedId := stored;
    }

    /** The screen the state selects. */
    function Rendered(): (v: View)
      reads this
      ensures v == LoadingView <==> loading
      ensures v == LandingView <==> !loading && appState == Landing
      ensures v == AssessmentView <==> !loading && appState == Assessment
      ensures v.ResultsView? <==> !loading && appState == Results && Present(assessmentId)
      ensures v.ResultsView? ==> assessmentId == Some(v.id)
    {
      if loading then LoadingView
      else match appState
        case Landing => LandingView
        case Assessment => AssessmentView
        case Results => if Present(assessmentId) then ResultsView(assessmentId.value) else NothingShown
    }

    /** The start-up effect: a saved id resumes the questionnaire for that assessment. */
    method Restore()
      modifies this`appState, this`assessmentId, this`loading
      ensures !loading
      ensures Present(savedId) ==> appState == Assessment && assessmentId == savedId
      ensures !Present(savedId) ==> appState == old(appState) && assessmentId == old(assessmentId)
    {
      if Present(savedId) {
        assessmentId := savedId;
        appState := Assessment;
      }
      loading := false;
    }

    /** `handleStartAssessment`: only the screen changes. */
    method HandleStartAssessment()
      modifies this`appState
      ensures appState == Assessment
    {
      appState := Assessment;
    }

    /** `handleAssessmentComplete`: the results of exactly that assessment, and the saved id
        is forgotten. */
    method HandleAssessmentComplete(id: string)
      modifies this`appState, this`assessmentId, this`savedId
      ensures appState == Results && assessmentId == Some(id) && savedId == None
      ensures !loading ==> Rendered() == if id != "" then ResultsView(id) else NothingShown
    {
      assessmentId := Some(id);
      appState := Results;
      savedId := None;
    }

    /** `handleBackToStart`: back to the landing page with no assessment. */
    method HandleBackToStart()
      modifies this`appState, this`assessmentId, this`savedId
      ensures appState == Landing && assessmentId == None && savedId == None
      ensures !loading ==> Rendered() == LandingView
    {
      assessmentId := None;
      appState := Landing;
      savedId := None;
    }
  }

  /** Start-up: the landing page, or the questionnaire when an id was saved. */
  method Launch(stored: Option<string>) returns (app: Application)
    ensures fresh(app) && app.savedId == stored && !app.loading
    ensures app.Rendered() == if Present(stored) then AssessmentView else LandingView
    ensures app.assessmentId == if Present(stored) then stored else None
  {
    app := new Application(stored);
    app.Restore();
  }
}
