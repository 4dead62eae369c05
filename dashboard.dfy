/** The clinician's dashboard: two tabs listing the assessments awaiting review and those
    already reviewed, newest first, each with its formatted id and a badge in the colours of
    its risk category. The list is reloaded when the tab changes, on a timer and on request;
    the query's answer is a parameter. */
module Dashboard {
  import Text
  import opened Values
  import Categories
  import RecommendationWorkbench
  import ReviewAssessment

  datatype Tab = Pending | Reviewed

  /** The status the tab's query selects. */
  function StatusFilter(tab: Tab): string
  {
    match tab
    case Pending => "pending_review"
    case Reviewed => "reviewed"
  }

  /** The columns of a listed assessment the dashboard shows. */
  datatype ListedAssessment = ListedAssessment(id: string, status: string, riskCategory: Option<Value>,
                                               riskScore: Option<Value>, timestamp: int)

  /** The rows of a table whose status is `status`, in table order: what the query's `eq`
      filter keeps. */
  function WithStatus(table: seq<ListedAssessment>, status: string): (r: seq<ListedAssessment>)
    ensures |r| <= |table|
    ensures forall i :: 0 <= i < |r| ==> r[i].status == status && r[i] in table
  {
    if table == [] then []
    else if table[0].status == status then [table[0]] + WithStatus(table[1..], status)
    else WithStatus(table[1..], status)
  }

  /** The filter keeps every row of that status. */
  lemma {:induction false} WithStatusComplete(table: seq<ListedAssessment>, status: string, k: nat)
    requires k < |table| && table[k].status == status
    ensures table[k] in WithStatus(table, status)
  {
    if k > 0 {
      WithStatusComplete(table[1..], status, k - 1);
    }
  }

  /** The two tabs list disjoint sets of rows, neither of them a row awaiting the final
      status (`review_complete`) or a rejected one. */
  lemma TabsAreDisjoint(table: seq<ListedAssessment>, row: ListedAssessment)
    ensures !(row in WithStatus(table, StatusFilter(Pending)) && row in WithStatus(table, StatusFilter(Reviewed)))
    ensures row.status == "review_complete" || row.status == "rejected" ==>
              forall tab :: row !in WithStatus(table, StatusFilter(tab))
  {
  }

  /** The reviewed tab lists rows the review screen shows read-only, the pending tab rows
      it lets the clinician edit. */
  lemma TabMatchesReadOnly(tab: Tab)
    ensures ReviewAssessment.IsReadOnly(Some(StatusFilter(tab))) <==> tab == Reviewed
  {
  }

  /** An approval whose webhook or final update failed leaves its record on neither tab: it
      is no longer `pending_review` and never became `reviewed`. */
  lemma InterruptedApprovalDisappears(row: RecommendationWorkbench.Row, recs: seq<RecommendationWorkbench.Recommendation>,
                                      overall: string, comments: string,
                                      replies: RecommendationWorkbench.Replies, tab: Tab)
    requires replies.updateOk
    requires !(RecommendationWorkbench.WebhookSent(replies) && replies.webhookOk && replies.statusOk)
    ensures RecommendationWorkbench.ApplyAll(row, RecommendationWorkbench.ApprovalUpdates(recs, overall, comments, replies)).status
            != StatusFilter(tab)
  {
    RecommendationWorkbench.ApprovalFinalStatus(row, recs, overall, comments, replies);
  }

  /** Every row a tab lists is read-only on the review screen exactly when the tab is the
      reviewed one. */
  lemma ListedRowsMatchTab(table: seq<ListedAssessment>, tab: Tab)
    ensures forall r :: r in WithStatus(table, StatusFilter(tab)) ==>
              (ReviewAssessment.IsReadOnly(Some(r.status)) <==> tab == Reviewed)
  {
    forall r | r in WithStatus(table, StatusFilter(tab))
      ensures ReviewAssessment.IsReadOnly(Some(r.status)) <==> tab == Reviewed
    {
      var rows := WithStatus(table, StatusFilter(tab));
      var i :| 0 <= i < |rows| && rows[i] == r;
      TabMatchesReadOnly(tab);
    }
  }

  // ---------------------------------------------------------------------------------------
  // Badge colours

  const BlankColor := "text-gray-600 bg-gray-100"
  const UnknownColor := BlankColor + " border-gray-200"

  /** The `text-` class of a level's badge. */
  function LevelTextColor(l: Categories.Level): string
  {
    match l
    case VeryHigh | High => "text-red-600"
    case Intermediate => "text-orange-600"
    case Borderline => "text-yellow-600"
    case Low => "text-green-600"
  }

  /** The background and border classes of a level's badge. */
  function LevelFrame(l: Categories.Level): string
  {
    match l
    case VeryHigh | High => "bg-red-100 border-red-200"
    case Intermediate => "bg-orange-100 border-orange-200"
    case Borderline => "bg-yellow-100 border-yellow-200"
    case Low => "bg-green-100 border-green-200"
  }

  function LevelColor(l: Categories.Level): string
  {
    LevelTextColor(l) + " " + LevelFrame(l)
  }

  /** `getRiskColor(assessment.risk_category)`: a falsy or non-string category gets no
      border class, an unrecognised string the gray one. */
  function RiskColor(category: Option<Value>): string
  {
    if Categories.Blank(category) then BlankColor
    else match Categories.CategoryOf(category)
      case Some(l) => LevelColor(l)
      case None => UnknownColor
  }

  /** The hue's initial and the character two places after it, which tell the badges
      apart. */
  function Key(l: Categories.Level): (char, char)
  {
    match l
    case VeryHigh | High => ('r', 'd')
    case Intermediate => ('o', 'a')
    case Borderline => ('y', 'l')
    case Low => ('g', 'e')
  }

  lemma KeyOfLevelColor(l: Categories.Level)
    ensures |LevelColor(l)| > 7 && (LevelColor(l)[5], LevelColor(l)[7]) == Key(l)
  {
    var a := LevelTextColor(l);
    assert LevelColor(l)[5] == a[5] && LevelColor(l)[7] == a[7];
  }

  /** Very high and high share one badge; every other pair of levels is told apart, and no
      level looks blank or unrecognised. */
  lemma LevelColorIff(l1: Categories.Level, l2: Categories.Level)
    ensures LevelColor(l1) == LevelColor(l2)
            <==> l1 == l2 || (Categories.Rank(l1) >= 3 && Categories.Rank(l2) >= 3)
    ensures LevelColor(l1) != BlankColor && LevelColor(l1) != UnknownColor
  {
    KeyOfLevelColor(l1);
    KeyOfLevelColor(l2);
    assert BlankColor[5] == 'g' && BlankColor[7] == 'a';
    assert UnknownColor[5] == 'g' && UnknownColor[7] == 'a';
  }

  /** A blank category and an unrecognised one differ only in the border class. */
  lemma BlankAndUnknownDiffer(c1: Option<Value>, c2: Option<Value>)
    requires Categories.Blank(c1) && !Categories.Blank(c2) && Categories.CategoryOf(c2).None?
    ensures RiskColor(c1) != RiskColor(c2)
    ensures RiskColor(c2) == RiskColor(c1) + " border-gray-200"
  {
    assert |RiskColor(c1)| < |RiskColor(c2)|;
  }

  /** The badge does not depend on the letter case of the category. */
  lemma RiskColorIgnoresCase(s: string)
    ensures RiskColor(Some(Str(Text.Upper(s)))) == RiskColor(Some(Str(s)))
  {
    Categories.CategoryOfIgnoresCase(s);
    assert |Text.Upper(s)| == |s|;
  }

  /** Stored category names get their level's badge. */
  lemma RiskColorOfStoredName(l: Categories.Level)
    ensures RiskColor(Some(Str(Categories.DisplayName(l)))) == LevelColor(l)
  {
    Categories.CategoryOfDisplayName(l);
  }

  // ---------------------------------------------------------------------------------------
  // The screen

  /** What the database answers to the list query: an error, or the assessments table it
      ran against (`None` when the client hands back no data). The query's `eq` filter is
      applied by `Shown`. */
  datatype QueryReply = QueryFailed | QueryRows(table: Option<seq<ListedAssessment>>)

  /** The list on screen after a query for `tab`: a failed query keeps the previous rows,
      missing data (`data || []`) empties the list, and otherwise the tab's rows are shown. */
  function Shown(previous: seq<ListedAssessment>, reply: QueryReply, tab: Tab): seq<ListedAssessment>
  {
    match reply
    case QueryFailed => previous
    case QueryRows(None) => []
    case QueryRows(Some(table)) => WithStatus(table, StatusFilter(tab))
  }

  /** An answered query shows exactly the table's rows of the tab's status. */
  lemma ShownExactly(previous: seq<ListedAssessment>, table: seq<ListedAssessment>, tab: Tab)
    ensures forall x :: x in Shown(previous, QueryRows(Some(table)), tab) <==>
              x in table && x.status == StatusFilter(tab)
  {
    forall x | x in table && x.status == StatusFilter(tab)
      ensures x in Shown(previous, QueryRows(Some(table)), tab)
    {
      var k :| 0 <= k < |table| && table[k] == x;
      WithStatusComplete(table, StatusFilter(tab), k);
    }
    forall x | x in Shown(previous, QueryRows(Some(table)), tab)
      ensures x in table && x.status == StatusFilter(tab)
    {
      var rows := WithStatus(table, StatusFilter(tab));
      var k :| 0 <= k < |rows| && rows[k] == x;
    }
  }

  /** After an answered query every row on screen opens read-only exactly when the tab is
      the reviewed one. */
  lemma ShownRowsMatchTab(previous: seq<ListedAssessment>, reply: QueryReply, tab: Tab)
    requires reply.QueryRows?
    ensures forall x :: x in Shown(previous, reply, tab) ==>
              (ReviewAssessment.IsReadOnly(Some(x.status)) <==> tab == Reviewed)
  {
    if reply.table.Some? {
      ListedRowsMatchTab(reply.table.value, tab);
    }
  }

  class DashboardScreen {
    var activeTab: Tab
    var assessments: seq<ListedAssessment>
    var loading: bool
    var refreshing: bool

    constructor()
      ensures activeTab == Pending && assessments == [] && loading && !refreshing
    {
      activeTab := Pending;
      assessments := [];
      loading := true;
      refreshing := false;
    }

    /** The part of `fetchAssessments` before its `await`. `seenRefreshing` is `refreshing`
        as the render that created this copy of the function saw it. */
    method StartFetch(seenRefreshing: bool)
      modifies this`loading
      ensures loading == (!seenRefreshing || old(loading))
    {
      if !seenRefreshing { loading := true; }
    }

    /** The part of `fetchAssessments` after the query has answered. */
    method FinishFetch(reply: QueryReply, seenRefreshing: bool)
      modifies this`assessments, this`loading, this`refreshing
      ensures assessments == Shown(old(assessments), reply, activeTab)
      ensures loading == (seenRefreshing && old(loading))
      ensures !refreshing
    {
      match reply {
        case QueryFailed =>
        case QueryRows(table) =>
          assessments := match table case None => [] case Some(rows) => WithStatus(rows, StatusFilter(activeTab));
      }
      if !seenRefreshing { loading := false; }
      refreshing := false;
    }

    /** `fetchAssessments`: the loading view is shown while the query runs unless the
        render it belongs to saw a refresh in progress. */
    method FetchAssessments(reply: QueryReply, seenRefreshing: bool)
      modifies this`assessments, this`loading, this`refreshing
      ensures assessments == Shown(old(assessments), reply, activeTab)
      ensures loading == (seenRefreshing && old(loading))
      ensures !refreshing
    {
      StartFetch(seenRefreshing);
      FinishFetch(reply, seenRefreshing);
    }

    /** The refresh button's `setRefreshing(true)`. */
    method PressRefresh()
      modifies this`refreshing
      ensures refreshing
    {
      refreshing := true;
    }

    /** `handleRefresh` as written. The button is enabled only while `refreshing` is false,
        and the `fetchAssessments` it awaits belongs to that render, so its guard sees
        false: the loading view replaces the list during the refresh and is gone at its
        end. */
    method HandleRefreshAsWritten(reply: QueryReply)
      requires !refreshing
      modifies this`assessments, this`loading, this`refreshing
      ensures assessments == Shown(old(assessments), reply, activeTab)
      ensures !loading && !refreshing
    {
      var seen := refreshing;
      PressRefresh();
      FetchAssessments(reply, seen);
    }

    /** `handleRefresh` as its guard intends: the fetch sees the refresh in progress, so the
        list stays in view and `loading` is left as it was. */
    method HandleRefresh(reply: QueryReply)
      requires !refreshing
      modifies this`assessments, this`loading, this`refreshing
      ensures assessments == Shown(old(assessments), reply, activeTab)
      ensures loading == old(loading) && !refreshing
    {
      PressRefresh();
      FetchAssessments(reply, refreshing);
    }

    /** A tab button's `setActiveTab(tab)`. A new tab re-renders, and the effect of that
        render reloads the list for it, with the `refreshing` that render sees. The tab
        already shown is the state React holds, so nothing re-renders and the effect does
        not run. */
    method SelectTab(tab: Tab, reply: QueryReply)
      modifies this`activeTab, this`assessments, this`loading, this`refreshing
      ensures activeTab == tab
      ensures old(activeTab) == tab ==>
                assessments == old(assessments) && loading == old(loading) && refreshing == old(refreshing)
      ensures old(activeTab) != tab ==>
                assessments == Shown(old(assessments), reply, tab)
                && loading == (old(refreshing) && old(loading)) && !refreshing
      ensures old(activeTab) != tab && reply.QueryRows? ==>
                forall x :: x in assessments ==> (ReviewAssessment.IsReadOnly(Some(x.status)) <==> tab == Reviewed)
    {
      if tab != activeTab {
        activeTab := tab;
        FetchAssessments(reply, refreshing);
        if reply.QueryRows? {
          ShownRowsMatchTab(old(assessments), reply, tab);
        }
      }
    }
  }

  /** The discrepancy: once the first load is over, pressing Refresh brings back the loading
      view as written, and would not if the guard saw the refresh in progress. */
  method RefreshShowsLoadingView(reply: QueryReply) returns (asWritten: bool, intended: bool)
    ensures asWritten && !intended
  {
    var a := new DashboardScreen();
    a.FetchAssessments(reply, a.refreshing);
    var seen := a.refreshing;
    a.PressRefresh();
    a.StartFetch(seen);
    asWritten := a.loading;
    var b := new DashboardScreen();
    b.FetchAssessments(reply, b.refreshing);
    b.PressRefresh();
    b.StartFetch(b.refreshing);
    intended := b.loading;
  }
}
