/** The trainer's assignment-detail page (src/Pages/Trainer/AssignmentDetailPage.jsx): its
    render precedence, its submission panel and its state, which `fetchAssignmentReport`
    updates around one `GET` of the report. */
module TrainerAssignmentDetail {
  import opened Reports
  import opened ReportView

  /** The render chain: `if (error)` returns the error panel first; inside the main
      container `loading` shows the spinner, and `error || !report` picks between an
      error panel (never reached, the outer test already returned) and "not found". */
  function Resolve(error: Option<string>, loading: bool, report: Option<AssignmentReport>): (s: Screen)
    ensures s.ErrorPanel? <==> Truthy(error)
    ensures s.ErrorPanel? ==> s.description == error.value
    ensures s == Loading <==> !Truthy(error) && loading
    ensures s == NotFound <==> !Truthy(error) && !loading && report.None?
    ensures s.Loaded? ==> report == Some(s.report)
  {
    if Truthy(error) then ErrorPanel(TextOf(error))
    else if loading then Loading
    else if Truthy(error) || report.None? then
      (if Truthy(error) then ErrorPanel(TextOf(error)) else NotFound)
    else Loaded(report.value)
  }

  /** `/trainer/class/{classId}/{assignmentId}/submissions`. */
  function SubmissionsLink(classId: string, assignmentId: string): (l: string)
    ensures |l| == 28 + |classId| + |assignmentId|
    ensures l[..15] == "/trainer/class/" && l[15..15 + |classId|] == classId
    ensures l[15 + |classId|] == '/'
    ensures l[16 + |classId|..16 + |classId| + |assignmentId|] == assignmentId
    ensures l[|l| - 12..] == "/submissions"
  {
    "/trainer/class/" + classId + "/" + assignmentId + "/submissions"
  }

  /** The "Your Submission" panel of a loaded report: the submission when
      `submissionDate` is truthy, otherwise only the link to the submissions list. */
  function PanelOf(classId: string, assignmentId: string, report: AssignmentReport): (p: Panel)
    ensures p.ViewSubmissionsLink? <==> SubmissionStateOf(report) == Unsubmitted
    ensures p.ViewSubmissionsLink? ==> p.to == SubmissionsLink(classId, assignmentId)
    ensures !p.ViewSubmissionsLink? ==> ShowsSubmission(report, p)
    ensures !p.AddOrCreateButton?
  {
    if Truthy(report.submissionDate) then SubmittedPanel(DetailsOf(report))
    else ViewSubmissionsLink(SubmissionsLink(classId, assignmentId))
  }

  class TrainerPage {
    const classId: string
    const assignmentId: string
    var report: Option<AssignmentReport>
    var error: Option<string>
    /** The application-wide loader flag of the loader context. */
    var loader: bool
    var loading: bool

    /** The only error this page ever stores is the load failure message. */
    ghost predicate Valid()
      reads this
    {
      error == None || error == Some(FailedToLoad)
    }

    function CurrentScreen(): Screen
      reads this
    {
      Resolve(error, loading, report)
    }

    /** The page as first rendered: no report, no error, `loading` true. */
    constructor (classId: string, assignmentId: string, loader: bool)
      ensures this.classId == classId && this.assignmentId == assignmentId
      ensures report == None && error == None && this.loader == loader && loading
      ensures Valid() && CurrentScreen() == Loading
    {
      this.classId := classId;
      this.assignmentId := assignmentId;
      this.report := None;
      this.error := None;
      this.loader := loader;
      this.loading := true;
    }

    /** `fetchAssignmentReport` up to its `await`: both flags raised, the error cleared,
        the report request issued. */
    method StartFetch(userId: Option<string>) returns (request: Request)
      modifies this
      ensures request == Get(ReportPath(assignmentId, userId))
      ensures loader && loading && error == None && report == old(report)
      ensures Valid() && CurrentScreen() == Loading
    {
      loader := true;
      loading := true;
      error := None;
      request := Get(ReportPath(assignmentId, userId));
    }

    /** `fetchAssignmentReport` after its `await`: both flags lowered on every path; a
        body becomes the report; a 404 clears the report and sets no error; any other
        failure, with or without a response, sets the load failure message and keeps the
        report. */
    method FinishFetch(outcome: FetchOutcome)
      requires Valid()
      modifies this
      ensures Valid()
      ensures !loader && !loading
      ensures outcome.Found? ==> report == Some(outcome.body) && error == old(error)
      ensures IsNotFound(outcome) ==> report == None && error == old(error)
      ensures !outcome.Found? && !IsNotFound(outcome) ==>
        report == old(report) && error == Some(FailedToLoad)
    {
      if outcome.Found? {
        loading := false;
        loader := false;
        report := Some(outcome.body);
      } else {
        loading := false;
        loader := false;
        if IsNotFound(outcome) {
          report := None;
          return;
        }
        error := Some(FailedToLoad);
      }
    }

    /** A whole fetch: a body is shown, a 404 shows "not found" and never the error
        panel, and every other failure shows the error panel. */
    method Fetch(userId: Option<string>, outcome: FetchOutcome) returns (request: Request)
      modifies this
      ensures request == Get(ReportPath(assignmentId, userId))
      ensures Valid() && !loader && !loading
      ensures outcome.Found? ==> report == Some(outcome.body) && CurrentScreen() == Loaded(outcome.body)
      ensures IsNotFound(outcome) ==> report == None && error == None && CurrentScreen() == NotFound
      ensures !outcome.Found? && !IsNotFound(outcome) ==>
        report == old(report) && CurrentScreen() == ErrorPanel(FailedToLoad)
    {
      request := StartFetch(userId);
      FinishFetch(outcome);
    }

    /** `handleUnSubmit`: its body is commented out, so it sends nothing and changes
        nothing. */
    method UnSubmit()
      ensures report == old(report) && error == old(error)
      ensures loader == old(loader) && loading == old(loading)
    {
    }
  }
}
