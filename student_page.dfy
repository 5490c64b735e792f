/** The student's assignment-detail page (src/Pages/Students/StudentAssignmentDetailPage.jsx):
    its render precedence, its submission panel, and its state, which the report fetch,
    the submit and unsubmit actions and the submit modal update. */
module StudentAssignmentDetail {
  import opened Reports
  import opened ReportView

  /** The render chain: the shared `loader` flag first (an empty container), then
      `error`, then a missing report ("not found"), then the report. */
  function Resolve(loader: bool, error: Option<string>, report: Option<AssignmentReport>): (s: Screen)
    ensures s == Loading <==> loader
    ensures s.ErrorPanel? <==> !loader && Truthy(error)
    ensures s.ErrorPanel? ==> s.description == error.value
    ensures s == NotFound <==> !loader && !Truthy(error) && report.None?
    ensures s.Loaded? ==> report == Some(s.report)
  {
    if loader then Loading
    else if Truthy(error) then ErrorPanel(TextOf(error))
    else if report.None? then NotFound
    else Loaded(report.value)
  }

  /** The "Your Submission" panel of a loaded report: the submission (with its Unsubmit
      button) when `submissionDate` is truthy, otherwise only "Add or create". */
  function PanelOf(report: AssignmentReport): (p: Panel)
    ensures p == AddOrCreateButton <==> SubmissionStateOf(report) == Unsubmitted
    ensures p != AddOrCreateButton ==> ShowsSubmission(report, p)
    ensures !p.ViewSubmissionsLink?
  {
    if Truthy(report.submissionDate) then SubmittedPanel(DetailsOf(report))
    else AddOrCreateButton
  }

  /** The screen shows the "Add or create" button that opens the submit modal. The
      button and the modal are both rendered only on the loaded page, so this is the only
      way a student can reach `Submit`. */
  function OffersAddOrCreate(s: Screen): (b: bool)
    ensures b <==> s.Loaded? && SubmissionStateOf(s.report) == Unsubmitted
  {
    s.Loaded? && PanelOf(s.report) == AddOrCreateButton
  }

  /** Without a report the page never offers a submit action: the "not found" screen
      returns before the panel and the modal are rendered. */
  lemma NoReportNoSubmitAction(loader: bool, error: Option<string>)
    ensures !OffersAddOrCreate(Resolve(loader, error, None))
  {
  }

  /** The messages this page can store in `error`. */
  predicate KnownError(error: Option<string>)
  {
    error == None || error == Some(FailedToLoad)
    || error == Some(FailedToSubmit) || error == Some(FailedToUnsubmit)
  }

  class StudentPage {
    const assignmentId: string
    var report: Option<AssignmentReport>
    var error: Option<string>
    /** The application-wide loader flag of the loader context. */
    var loader: bool
    var isModalOpen: bool

    ghost predicate Valid()
      reads this
    {
      KnownError(error)
    }

    function CurrentScreen(): Screen
      reads this
    {
      Resolve(loader, error, report)
    }

    /** The page as first rendered: no report, no error, the modal closed. */
    constructor (assignmentId: string, loader: bool)
      ensures this.assignmentId == assignmentId
      ensures report == None && error == None && this.loader == loader && !isModalOpen
      ensures Valid()
    {
      this.assignmentId := assignmentId;
      this.report := None;
      this.error := None;
      this.loader := loader;
      this.isModalOpen := false;
    }

    /** `fetchAssignmentReport` up to its `await`: the loader raised, the error cleared,
        the report request issued. */
    method StartFetch(userId: Option<string>) returns (request: Request)
      modifies this
      ensures request == Get(ReportPath(assignmentId, userId))
      ensures loader && error == None
      ensures report == old(report) && isModalOpen == old(isModalOpen)
      ensures Valid() && CurrentScreen() == Loading
    {
      loader := true;
      error := None;
      request := Get(ReportPath(assignmentId, userId));
    }

    /** `fetchAssignmentReport` after its `await`. The `finally` lowers the loader on
        every path. A body becomes the report; a 404 clears the report; any other status
        sets the load failure message. A failure without a response makes
        `err.response.status` throw inside the `catch`: nothing but the `finally` runs,
        and `thrown` reports the escaping exception. */
    method FinishFetch(outcome: FetchOutcome) returns (thrown: bool)
      requires Valid()
      modifies this
      ensures Valid() && !loader && isModalOpen == old(isModalOpen)
      ensures thrown <==> outcome.NoResponse?
      ensures outcome.Found? ==> report == Some(outcome.body) && error == old(error)
      ensures IsNotFound(outcome) ==> report == None && error == old(error)
      ensures outcome.HttpError? && !IsNotFound(outcome) ==>
        report == old(report) && error == Some(FailedToLoad)
      ensures outcome.NoResponse? ==> report == old(report) && error == old(error)
    {
      thrown := false;
      if outcome.Found? {
        report := Some(outcome.body);
      } else if outcome.NoResponse? {
        thrown := true;
      } else if outcome.status == 404 {
        report := None;
      } else {
        error := Some(FailedToLoad);
      }
      loader := false;
    }

    /** A whole fetch. A body is shown; a 404 shows "not found"; another status shows
        the error panel; a failure without a response shows whatever report the page
        already held (or "not found"), never the error panel. */
    method Fetch(userId: Option<string>, outcome: FetchOutcome) returns (request: Request, thrown: bool)
      modifies this
      ensures request == Get(ReportPath(assignmentId, userId))
      ensures Valid() && !loader && isModalOpen == old(isModalOpen)
      ensures thrown <==> outcome.NoResponse?
      ensures outcome.Found? ==> report == Some(outcome.body) && CurrentScreen() == Loaded(outcome.body)
      ensures IsNotFound(outcome) ==> report == None && error == None && CurrentScreen() == NotFound
      ensures outcome.HttpError? && !IsNotFound(outcome) ==>
        report == old(report) && CurrentScreen() == ErrorPanel(FailedToLoad)
      ensures outcome.NoResponse? ==>
        report == old(report) && error == None
        && CurrentScreen() == (if old(report).None? then NotFound else Loaded(old(report).value))
    {
      request := StartFetch(userId);
      thrown := FinishFetch(outcome);
    }

    /** `showModal`. */
    method ShowModal()
      requires Valid()
      modifies this
      ensures Valid() && isModalOpen
      ensures report == old(report) && error == old(error) && loader == old(loader)
    {
      isModalOpen := true;
    }

    /** `handleCancel`. */
    method Cancel()
      requires Valid()
      modifies this
      ensures Valid() && !isModalOpen
      ensures report == old(report) && error == old(error) && loader == old(loader)
    {
      isModalOpen := false;
    }

    /** `handleSubmit(fileLink)`: posts `{fileLink}`; `ok` is whether the post succeeded.
        On success the refresh is started but not awaited, so its synchronous start
        (loader raised, error cleared, report requested) runs before the `finally`, which
        lowers the loader and closes the modal on both paths. On failure the submit
        failure message is set. */
    method Submit(fileLink: string, ok: bool, userId: Option<string>)
      returns (post: Request, refresh: Option<Request>)
      requires Valid()
      modifies this
      ensures post == Post(SubmitPath(assignmentId), Some(fileLink))
      ensures refresh.Some? <==> ok
      ensures ok ==> refresh.value == Get(ReportPath(assignmentId, userId)) && error == None
      ensures !ok ==> error == Some(FailedToSubmit)
      ensures Valid() && report == old(report) && !loader && !isModalOpen
    {
      loader := true;
      post := Post(SubmitPath(assignmentId), Some(fileLink));
      if ok {
        var request := StartFetch(userId);
        refresh := Some(request);
      } else {
        refresh := None;
        error := Some(FailedToSubmit);
      }
      loader := false;
      isModalOpen := false;
    }

    /** `handleUnSubmit`: posts to the unsubmit endpoint; like `Submit`, but with its own
        failure message, and it leaves the modal as it was. */
    method Unsubmit(ok: bool, userId: Option<string>) returns (post: Request, refresh: Option<Request>)
      requires Valid()
      modifies this
      ensures post == Post(UnsubmitPath(assignmentId), None)
      ensures refresh.Some? <==> ok
      ensures ok ==> refresh.value == Get(ReportPath(assignmentId, userId)) && error == None
      ensures !ok ==> error == Some(FailedToUnsubmit)
      ensures Valid() && report == old(report) && !loader && isModalOpen == old(isModalOpen)
    {
      loader := true;
      post := Post(UnsubmitPath(assignmentId), None);
      if ok {
        var request := StartFetch(userId);
        refresh := Some(request);
      } else {
        refresh := None;
        error := Some(FailedToUnsubmit);
      }
      loader := false;
    }
  }
}
