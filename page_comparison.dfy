/** How the two pages differ where they look alike, and what a user sees after the
    sequences of actions the pages support. */
module PageComparison {
  import opened Reports
  import opened ReportView
  import Trainer = TrainerAssignmentDetail
  import Student = StudentAssignmentDetail

  /** With an error and a busy flag both set, the trainer page shows the error panel
      while the student page shows its empty loading container. */
  lemma PrecedenceDiffersWhenBusy(error: Option<string>, report: Option<AssignmentReport>)
    requires Truthy(error)
    ensures Trainer.Resolve(error, true, report) == ErrorPanel(error.value)
    ensures Student.Resolve(true, error, report) == Loading
  {
  }

  /** With the busy flag down, the two render chains agree on every state. */
  lemma PrecedenceAgreesWhenIdle(error: Option<string>, report: Option<AssignmentReport>)
    ensures Trainer.Resolve(error, false, report) == Student.Resolve(false, error, report)
  {
  }

  /** A failure without a response: the trainer page shows the load failure message,
      while on the student page the exception escapes and the report it already held
      stays on screen. */
  method NoResponseAfterLoad(assignmentId: string, userId: Option<string>, r: AssignmentReport)
    returns (trainerScreen: Screen, studentScreen: Screen, studentThrew: bool)
    ensures trainerScreen == ErrorPanel(FailedToLoad)
    ensures studentScreen == Loaded(r) && studentThrew
  {
    var t := new Trainer.TrainerPage("class", assignmentId, false);
    var _ := t.Fetch(userId, Found(r));
    var _ := t.Fetch(userId, NoResponse);
    trainerScreen := t.CurrentScreen();

    var s := new Student.StudentPage(assignmentId, false);
    var _, _ := s.Fetch(userId, Found(r));
    var _, threw := s.Fetch(userId, NoResponse);
    studentScreen := s.CurrentScreen();
    studentThrew := threw;
  }

  /** A student whose report has no submission yet sees "Add or create", opens the
      modal and submits; once the refresh returns the submitted report, the page shows it
      with its submission panel and the modal is closed. */
  method SubmitThenRefresh(assignmentId: string, userId: Option<string>, fileLink: string,
                           r: AssignmentReport, submitted: AssignmentReport)
    returns (before: Screen, after: Screen, panel: Panel, modalOpen: bool)
    requires SubmissionStateOf(r) == Unsubmitted
    requires SubmissionStateOf(submitted) != Unsubmitted
    ensures before == Loaded(r) && Student.OffersAddOrCreate(before)
    ensures after == Loaded(submitted) && ShowsSubmission(submitted, panel)
    ensures !modalOpen
  {
    var s := new Student.StudentPage(assignmentId, false);
    var _, _ := s.Fetch(userId, Found(r));
    before := s.CurrentScreen();
    s.ShowModal();
    var _, _ := s.Submit(fileLink, true, userId);
    var _ := s.FinishFetch(Found(submitted));
    after := s.CurrentScreen();
    panel := Student.PanelOf(submitted);
    modalOpen := s.isModalOpen;
  }

  /** A student with no report at all gets "not found" and no way to submit. */
  method NoReportCannotSubmit(assignmentId: string, userId: Option<string>)
    returns (screen: Screen)
    ensures screen == NotFound && !Student.OffersAddOrCreate(screen)
  {
    var s := new Student.StudentPage(assignmentId, false);
    var _, _ := s.Fetch(userId, HttpError(404));
    screen := s.CurrentScreen();
  }

  /** A failed submit replaces the page with the submit failure message and closes the
      modal all the same. */
  method FailedSubmit(assignmentId: string, userId: Option<string>, fileLink: string,
                      r: AssignmentReport)
    returns (after: Screen, modalOpen: bool)
    ensures after == ErrorPanel(FailedToSubmit) && !modalOpen
  {
    var s := new Student.StudentPage(assignmentId, false);
    var _, _ := s.Fetch(userId, Found(r));
    s.ShowModal();
    var _, _ := s.Submit(fileLink, false, userId);
    after := s.CurrentScreen();
    modalOpen := s.isModalOpen;
  }

  /** Unsubmitting with the modal open leaves it open; once the refresh returns a report
      without a submission, only "Add or create" is offered. */
  method UnsubmitThenRefresh(assignmentId: string, userId: Option<string>,
                             r: AssignmentReport, unsubmitted: AssignmentReport)
    returns (after: Screen, panel: Panel, modalOpen: bool)
    requires SubmissionStateOf(unsubmitted) == Unsubmitted
    ensures after == Loaded(unsubmitted) && panel == AddOrCreateButton
    ensures modalOpen
  {
    var s := new Student.StudentPage(assignmentId, false);
    var _, _ := s.Fetch(userId, Found(r));
    s.ShowModal();
    var _, _ := s.Unsubmit(true, userId);
    var _ := s.FinishFetch(Found(unsubmitted));
    after := s.CurrentScreen();
    panel := Student.PanelOf(unsubmitted);
    modalOpen := s.isModalOpen;
  }

  /** The trainer's Unsubmit button leaves a loaded page exactly as it was. */
  method TrainerUnsubmitKeepsScreen(classId: string, assignmentId: string,
                                    userId: Option<string>, r: AssignmentReport)
    returns (before: Screen, after: Screen)
    ensures before == Loaded(r) && after == before
  {
    var t := new Trainer.TrainerPage(classId, assignmentId, false);
    var _ := t.Fetch(userId, Found(r));
    before := t.CurrentScreen();
    t.UnSubmit();
    after := t.CurrentScreen();
  }
}
