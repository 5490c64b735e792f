/** What both pages render for a loaded report: the assignment-file section and the
    "Your Submission" panel. The submitted side of the panel is the same on both pages;
    only the side shown before any submission differs (see the page modules). */
module ReportView {
  import opened Reports
  import opened FilePreview
  import opened Progress

  datatype FileSection = DownloadButton(href: string) | NoFileAttached

  /** The "Assignment File" block: a download button for a truthy `assignmentFile`. */
  function FileSectionOf(report: AssignmentReport): (f: FileSection)
    ensures f.DownloadButton? <==> Truthy(report.assignmentFile)
    ensures f.DownloadButton? ==> f.href == report.assignmentFile.value && f.href != ""
  {
    if Truthy(report.assignmentFile) then DownloadButton(report.assignmentFile.value)
    else NoFileAttached
  }

  datatype StatusTag = Evaluated | Submitted
  datatype TagColor = Green | Orange

  /** "Obtained Marks" and the progress bar, shown for a graded submission only. */
  datatype Grade = Grade(obtained: int, progress: Percent)

  datatype SubmittedDetails = SubmittedDetails(
    submittedOn: string,
    tag: StatusTag,
    color: TagColor,
    totalMarks: int,
    grade: Option<Grade>,
    preview: Preview,
    rating: Option<string>,
    remark: Option<string>)

  /** The "Your Submission" panel: the submission with its Unsubmit button, or, with
      nothing submitted, the trainer's link to the submissions list or the student's
      "Add or create" button. */
  datatype Panel =
    | SubmittedPanel(details: SubmittedDetails)
    | ViewSubmissionsLink(to: string)
    | AddOrCreateButton

  /** Shows `s` when it is truthy, as `{s && <block/>}` does. */
  function ShownWhenTruthy(s: Option<string>): (r: Option<string>)
    ensures r.Some? <==> Truthy(s)
    ensures r.Some? ==> r == s
  {
    if Truthy(s) then s else None
  }

  /** The submitted side of the panel. */
  function DetailsOf(report: AssignmentReport): (d: SubmittedDetails)
    ensures d.submittedOn == TextOf(report.submissionDate)
    ensures d.tag == Evaluated <==> report.marks.Some?
    ensures d.color == Green <==> d.tag == Evaluated
    ensures d.grade.Some? <==> d.tag == Evaluated
    ensures d.grade.Some? ==>
      d.grade.value.obtained == report.marks.value
      && d.grade.value.progress == ProgressPercent(report.marks.value, report.totalMarks)
    ensures d.totalMarks == report.totalMarks
    ensures d.preview == PreviewOf(report.submittedFileLink)
    ensures d.rating == ShownWhenTruthy(report.rating) && d.remark == ShownWhenTruthy(report.remark)
  {
    var evaluated := report.marks.Some?;
    SubmittedDetails(
      TextOf(report.submissionDate),
      if evaluated then Evaluated else Submitted,
      if evaluated then Green else Orange,
      report.totalMarks,
      if evaluated then Some(Grade(report.marks.value, ProgressPercent(report.marks.value, report.totalMarks)))
      else None,
      PreviewOf(report.submittedFileLink),
      ShownWhenTruthy(report.rating),
      ShownWhenTruthy(report.remark))
  }

  /** The three submission sub-states of a loaded report. */
  datatype SubmissionState = Unsubmitted | SubmittedUngraded | SubmittedGraded

  function SubmissionStateOf(report: AssignmentReport): (st: SubmissionState)
    ensures st == Unsubmitted <==> !Truthy(report.submissionDate)
    ensures st == SubmittedGraded <==> Truthy(report.submissionDate) && report.marks.Some?
  {
    if !Truthy(report.submissionDate) then Unsubmitted
    else if report.marks.None? then SubmittedUngraded
    else SubmittedGraded
  }

  /** Whatever panel a page shows for a report that has a submission date. */
  predicate ShowsSubmission(report: AssignmentReport, p: Panel)
  {
    p == SubmittedPanel(DetailsOf(report))
  }

  /** A graded submission is tagged "Evaluated" in green and carries the rounded
      percentage; an ungraded one is tagged "Submitted" in orange, without marks or
      progress. */
  lemma DetailsFollowSubmissionState(report: AssignmentReport)
    requires SubmissionStateOf(report) != Unsubmitted
    ensures var d := DetailsOf(report);
      (SubmissionStateOf(report) == SubmittedGraded <==> d.tag == Evaluated && d.color == Green)
      && (SubmissionStateOf(report) == SubmittedUngraded <==> d.tag == Submitted && d.color == Orange && d.grade.None?)
      && (SubmissionStateOf(report) == SubmittedGraded && report.totalMarks > 0 ==>
            d.grade.Some? && RoundsTo(d.grade.value.progress.value, 100 * report.marks.value, report.totalMarks))
  {
  }
}
