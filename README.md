# Assignment detail pages: view state and submission logic

A Dafny model of the decision and state-transition logic inside the two
assignment-detail pages of the Assignment Submission Portal front end:

- the trainer's page, `src/Pages/Trainer/AssignmentDetailPage.jsx`;
- the student's page, `src/Pages/Students/StudentAssignmentDetailPage.jsx`.

Each page fetches one report for an (assignment, user) pair, shows one of four
mutually exclusive screens (Loading, Error, NotFound, Loaded), and inside a loaded
report shows a "Your Submission" panel. The student page can also submit and
unsubmit a file link through a modal.

Modules:

- `Reports` (`reports.dfy`) holds the shared data model. It has the report record,
  JavaScript truthiness of optional strings (`None` and `""` are falsy), the fetch
  outcome (`Found(body)`, `HttpError(status)`, `NoResponse`), the requests sent, the
  fixed error messages and the `Screen` type.
- `FilePreview` (`file_preview.dfy`) is `renderFilePreview`. Both files define it
  identically: lines 73-89 of the trainer page and lines 75-91 of the student page.
  It is modelled once. The two regular expressions are given a reference meaning, an
  end-anchored match with ECMAScript non-Unicode `/i` folding. That meaning is proved
  equal to the case-folded suffix test the classifier uses.
- `Progress` (`progress.dfy`) is `Math.round((marks / totalMarks) * 100)` over integer
  marks. It is computed exactly with integer division and proved to be the unique
  round-half-up value.
- `ReportView` (`report_view.dfy`) holds what both pages render for a loaded report:
  the assignment-file section and the submitted side of the panel.
- `TrainerAssignmentDetail` (`trainer_page.dfy`) has the trainer's render chain, its
  panel, and the class `TrainerPage`. The class has the fields `report`, `error`,
  `loader` and `loading`, and the methods `StartFetch`/`FinishFetch`/`Fetch` and
  `UnSubmit`.
- `StudentAssignmentDetail` (`student_page.dfy`) has the student's render chain, its
  panel, and the class `StudentPage`. The class has the fields `report`, `error`,
  `loader` and `isModalOpen`, and the methods `StartFetch`/`FinishFetch`/`Fetch`,
  `ShowModal`, `Cancel`, `Submit` and `Unsubmit`.
- `PageComparison` (`page_comparison.dfy`) compares the two render chains and runs
  user-visible action sequences against the page classes.

Each asynchronous handler is split at its `await`. `StartFetch` is the part before
the request completes. `FinishFetch(outcome)` is the `try`/`catch`/`finally` after it,
and `Fetch` runs both in turn. The HTTP result, the `userId` read from `localStorage`
and the route parameters are method parameters. Requests are returned as values.

## Behaviour of the code worth knowing

- The two pages do not share one view-state resolver. The trainer page tests `error`
  before `loading`. The student page tests the shared `loader` flag before `error`.
  The model keeps two resolvers: `TrainerAssignmentDetail.Resolve` and
  `StudentAssignmentDetail.Resolve`.
- A fetch failure without a response is handled differently by the two pages. The trainer
  page guards `err.response` and shows the load-failure message. The student page reads
  `err.response.status` unguarded, so the `catch` itself throws. There, only the
  `finally` runs: `error` stays cleared and the report the page already held stays on
  screen.
- The `percent` value handed to the progress component (trainer page line 174, student
  page line 175) is not clamped to 0..100. Marks above the total give more than 100,
  and a zero total gives NaN or an infinity. What the component then draws is outside
  the two pages.
- A student whose report request answers 404 sees only "Assignment not found". That
  screen returns before the "Add or create" button and the submit modal are rendered,
  so there is no way to submit from it; a student can submit only from a loaded report
  without a submission.
- The refresh that follows a successful submit or unsubmit is not awaited. Its
  synchronous start raises `loader`, clears `error` and issues the `GET` before the
  action's `finally` runs. The `finally` then lowers `loader` while the `GET` is still
  in flight. `Submit`/`Unsubmit` model this start. The later completion is a separate
  `FinishFetch` call.

## Model

| member | source | states |
|---|---|---|
| `Reports.Truthy` | src/Pages/Trainer/AssignmentDetailPage.jsx:74 | an optional string is truthy iff it is present and non-empty |
| `Reports.ReportPath` | src/Pages/Trainer/AssignmentDetailPage.jsx:43 | the report request path is `/api/assignments/{assignmentId}/report/` followed by the user id, or by "null" when none is stored |
| `Reports.SubmitPath` | src/Pages/Students/StudentAssignmentDetailPage.jsx:51 | the submit path is `/api/assignments/{assignmentId}/submit` |
| `Reports.UnsubmitPath` | src/Pages/Students/StudentAssignmentDetailPage.jsx:65 | the unsubmit path is `/api/assignments/{assignmentId}/unsubmit` |
| `Reports.EndpointsDistinct` | src/Pages/Students/StudentAssignmentDetailPage.jsx:31-65 | for one assignment, the report, submit and unsubmit paths are pairwise different |
| `FilePreview.PreviewOf` | src/Pages/Trainer/AssignmentDetailPage.jsx:73-89 | no preview iff the link is falsy; an image only for a link ending in an image extension; a PDF frame only for a ".pdf" link that is no image; the image-plus-link fallback only for a link that is neither |
| `FilePreview.PreviewOfMeaning` | src/Pages/Trainer/AssignmentDetailPage.jsx:73-89 | there is no preview exactly when the link is falsy; image exactly when the image-extension expression (jpeg, jpg, gif or png after a dot, at the end, any case) matches; PDF frame exactly when `/\.pdf$/i` matches; image plus link exactly when neither matches |
| `FilePreview.ImageLinkIsRegexMatch` | src/Pages/Trainer/AssignmentDetailPage.jsx:75 | the case-folded suffix test against the four image extensions holds iff some literal '.' is followed, to the end of the input, by a case-insensitive image extension |
| `FilePreview.PdfLinkIsRegexMatch` | src/Pages/Trainer/AssignmentDetailPage.jsx:77 | the suffix test against ".pdf" holds iff the end-anchored, case-insensitive `\.pdf` matches |
| `FilePreview.DotBeforeFoldedSuffix` | src/Pages/Trainer/AssignmentDetailPage.jsx:75 | a link ending, case-folded, in "." + e has a literal '.' where e starts, followed by exactly a folded e up to the end |
| `FilePreview.FoldedSuffixFromDot` | src/Pages/Trainer/AssignmentDetailPage.jsx:75 | a literal '.' at any position makes the link end, case-folded, in "." followed by the folded rest |
| `FilePreview.EndsWithSomeDotExt` | src/Pages/Trainer/AssignmentDetailPage.jsx:75-77 | for any set of alternatives, some suffix test "." + e passing is the same as the end-anchored match of the alternation |
| `FilePreview.ImageAndPdfDisjoint` | src/Pages/Trainer/AssignmentDetailPage.jsx:75-78 | no link passes both tests, so testing images first never hides a PDF |
| `FilePreview.FalsyLinkExamples` | src/Pages/Students/StudentAssignmentDetailPage.jsx:76 | an absent or empty link gives no preview |
| `FilePreview.ImageExamples` | src/Pages/Students/StudentAssignmentDetailPage.jsx:77-78 | "x.JPG" and ".Png" give an image: the case is ignored, and an empty name before the dot is allowed |
| `FilePreview.PdfExamples` | src/Pages/Students/StudentAssignmentDetailPage.jsx:79-80 | "doc.pdf" and "DOC.PDF" give a PDF frame |
| `FilePreview.FallbackExamples` | src/Pages/Students/StudentAssignmentDetailPage.jsx:81-89 | "file.docx", "x.png?q=1" (a query string after the extension) and "xpng" (no dot) give the image-plus-link fallback |
| `Progress.RoundHalfUp` | src/Pages/Trainer/AssignmentDetailPage.jsx:174 | the integer division result r satisfies r <= num/den + 1/2 < r + 1, which is `Math.round` of num/den |
| `Progress.ProgressPercent` | src/Pages/Trainer/AssignmentDetailPage.jsx:174 | the value is finite iff totalMarks is non-zero, and it is then `Math.round(marks/totalMarks*100)` for either sign of the total; with a zero total it is NaN iff marks is 0 and +Infinity iff marks is positive |
| `Progress.RoundsToUnique` | src/Pages/Trainer/AssignmentDetailPage.jsx:174 | the rounding property fixes the integer, so the model computes `Math.round` and nothing else |
| `Progress.ProgressInRange` | src/Pages/Trainer/AssignmentDetailPage.jsx:173-176 | marks between 0 and a positive total give a progress value between 0 and 100 |
| `Progress.ProgressMonotone` | src/Pages/Students/StudentAssignmentDetailPage.jsx:175 | for a fixed positive total, more marks never give a smaller progress value |
| `Progress.ProgressExamples` | src/Pages/Students/StudentAssignmentDetailPage.jsx:174-177 | 45 of 50 gives 90, 1 of 3 gives 33, 2 of 3 gives 67, 60 of 50 gives 120 (no clamping), 0 of 0 gives NaN |
| `ReportView.FileSectionOf` | src/Pages/Trainer/AssignmentDetailPage.jsx:143-154 | a download button pointing at `assignmentFile` iff that field is truthy, otherwise "No file attached" |
| `ReportView.ShownWhenTruthy` | src/Pages/Trainer/AssignmentDetailPage.jsx:181-192 | a rating or remark block is present iff the field is truthy, and it shows the field's text |
| `ReportView.DetailsOf` | src/Pages/Trainer/AssignmentDetailPage.jsx:162-192 | "Submitted on" shows the `submissionDate` text; the tag is "Evaluated" iff marks is not undefined; green iff "Evaluated"; the obtained marks and progress appear iff "Evaluated", with progress = `ProgressPercent(marks, totalMarks)`; the preview is `renderFilePreview(submittedFileLink)`; the rating and remark blocks appear only when those fields are truthy |
| `ReportView.SubmissionStateOf` | src/Pages/Trainer/AssignmentDetailPage.jsx:162-168 | unsubmitted iff `submissionDate` is not truthy; graded iff it is truthy and marks are defined; ungraded otherwise |
| `ReportView.DetailsFollowSubmissionState` | src/Pages/Students/StudentAssignmentDetailPage.jsx:163-180 | a submitted report is graded iff it shows "Evaluated" in green, and ungraded iff it shows "Submitted" in orange with no marks line and no progress; a graded report with a positive total shows the rounded percentage |
| `TrainerAssignmentDetail.Resolve` | src/Pages/Trainer/AssignmentDetailPage.jsx:91-116 | the error panel is shown iff `error` is truthy, whatever `loading` and `report` are, so the inner error branch adds nothing; otherwise the spinner shows iff `loading`; otherwise "not found" shows iff there is no report; a loaded screen shows the stored report |
| `TrainerAssignmentDetail.PanelOf` | src/Pages/Trainer/AssignmentDetailPage.jsx:162-206 | with no truthy `submissionDate`, the panel is only the link `/trainer/class/{classId}/{assignmentId}/submissions`; otherwise it shows the submission details; it never offers "Add or create" |
| `TrainerAssignmentDetail.SubmissionsLink` | src/Pages/Trainer/AssignmentDetailPage.jsx:200 | the link is `/trainer/class/`, the class id, `/`, the assignment id and `/submissions`, in that order and nothing else |
| `TrainerAssignmentDetail.TrainerPage.constructor` | src/Pages/Trainer/AssignmentDetailPage.jsx:21-27 | the page starts with no report, no error and `loading` true, so the first render is the spinner |
| `TrainerAssignmentDetail.TrainerPage.StartFetch` | src/Pages/Trainer/AssignmentDetailPage.jsx:37-43 | `loader` and `loading` are raised, `error` is cleared, the report is kept, the report `GET` is issued, and the spinner shows |
| `TrainerAssignmentDetail.TrainerPage.FinishFetch` | src/Pages/Trainer/AssignmentDetailPage.jsx:44-55 | both flags are lowered on every path; a body becomes the report; a 404 clears the report and leaves `error` alone; any other failure, with or without a response, sets the load-failure message and keeps the report |
| `TrainerAssignmentDetail.TrainerPage.Fetch` | src/Pages/Trainer/AssignmentDetailPage.jsx:37-56 | after a whole fetch, a body shows the loaded report; a 404 shows "not found" with no error, never the error panel; every other failure shows the load-failure panel with the old report kept |
| `TrainerAssignmentDetail.TrainerPage.UnSubmit` | src/Pages/Trainer/AssignmentDetailPage.jsx:60-71 | sends nothing and changes no state field |
| `StudentAssignmentDetail.Resolve` | src/Pages/Students/StudentAssignmentDetailPage.jsx:93-115 | the loading container is shown iff `loader` is set, even when an error is set; otherwise the error panel shows iff `error` is truthy; otherwise "not found" shows iff there is no report; a loaded screen shows the stored report |
| `StudentAssignmentDetail.PanelOf` | src/Pages/Students/StudentAssignmentDetailPage.jsx:163-205 | "Add or create" is shown iff `submissionDate` is not truthy; otherwise the submission details (with the Unsubmit button) are shown; the trainer's submissions link never appears |
| `StudentAssignmentDetail.StudentPage.constructor` | src/Pages/Students/StudentAssignmentDetailPage.jsx:15-18 | the page starts with no report, no error and the modal closed |
| `StudentAssignmentDetail.StudentPage.StartFetch` | src/Pages/Students/StudentAssignmentDetailPage.jsx:25-31 | `loader` is raised, `error` is cleared, the report and the modal are kept, and the report `GET` is issued |
| `StudentAssignmentDetail.StudentPage.FinishFetch` | src/Pages/Students/StudentAssignmentDetailPage.jsx:32-42 | `loader` is lowered on every path; a body becomes the report; a 404 clears the report; another status sets the load-failure message and keeps the report; no response throws (`thrown`) and leaves `report` and `error` unchanged |
| `StudentAssignmentDetail.StudentPage.Fetch` | src/Pages/Students/StudentAssignmentDetailPage.jsx:25-43 | after a whole fetch, a body is shown; a 404 shows "not found"; another status shows the error panel; no response shows the report already held, or "not found", and never the error panel |
| `StudentAssignmentDetail.StudentPage.ShowModal` | src/Pages/Students/StudentAssignmentDetailPage.jsx:45 | opens the modal and changes nothing else |
| `StudentAssignmentDetail.StudentPage.Cancel` | src/Pages/Students/StudentAssignmentDetailPage.jsx:46 | closes the modal and changes nothing else |
| `StudentAssignmentDetail.StudentPage.Submit` | src/Pages/Students/StudentAssignmentDetailPage.jsx:48-60 | posts `{fileLink}` to the submit endpoint. On success it starts the refresh `GET`, which clears `error`. On failure it sets the submit-failure message. Either way `loader` ends false, the modal ends closed and the report is unchanged |
| `StudentAssignmentDetail.StudentPage.Unsubmit` | src/Pages/Students/StudentAssignmentDetailPage.jsx:62-73 | posts to the unsubmit endpoint with no body. On success it starts the refresh `GET`. On failure it sets the unsubmit-failure message. `loader` ends false, and the modal and the report are unchanged |
| `PageComparison.PrecedenceDiffersWhenBusy` | src/Pages/Students/StudentAssignmentDetailPage.jsx:93-107 | with an error and the busy flag both set, the trainer page shows the error and the student page shows its loading container |
| `PageComparison.PrecedenceAgreesWhenIdle` | src/Pages/Trainer/AssignmentDetailPage.jsx:91-116 | with the busy flag down, both render chains give the same screen for every error and report |
| `PageComparison.NoResponseAfterLoad` | src/Pages/Students/StudentAssignmentDetailPage.jsx:33-42 | after a loaded report, a failure without a response gives the trainer the load-failure panel; on the student page it throws and keeps the old report on screen |
| `PageComparison.SubmitThenRefresh` | src/Pages/Students/StudentAssignmentDetailPage.jsx:48-60 | from a loaded report without a submission, which offers "Add or create", opening the modal, submitting successfully and receiving a submitted report shows that report with its submission panel and the modal closed |
| `PageComparison.NoReportCannotSubmit` | src/Pages/Students/StudentAssignmentDetailPage.jsx:109-115 | a 404 fetch leaves the page on "not found", which offers no "Add or create" button |
| `StudentAssignmentDetail.OffersAddOrCreate` | src/Pages/Students/StudentAssignmentDetailPage.jsx:199-213 | the screen offers the button that opens the submit modal iff it is a loaded report whose `submissionDate` is not truthy |
| `StudentAssignmentDetail.NoReportNoSubmitAction` | src/Pages/Students/StudentAssignmentDetailPage.jsx:109-115 | without a report, no screen the render chain produces offers a submit action |
| `PageComparison.FailedSubmit` | src/Pages/Students/StudentAssignmentDetailPage.jsx:53-59 | a failed submit shows the submit-failure panel and still closes the modal |
| `PageComparison.UnsubmitThenRefresh` | src/Pages/Students/StudentAssignmentDetailPage.jsx:62-73 | a successful unsubmit leaves an open modal open; a refreshed report without a submission offers only "Add or create" |
| `PageComparison.TrainerUnsubmitKeepsScreen` | src/Pages/Trainer/AssignmentDetailPage.jsx:194 | the trainer's Unsubmit button leaves the loaded screen exactly as it was |

## Left out

- Markup, styling, icons and the antd components are not modelled. Only which blocks
  appear, and with what data, is modelled.
- The trainer page's unused state and helpers are not modelled: `submitModalVisible`,
  `showSubmitModal`, `uploadProgress`, `submitting`, `file`, `dropDownItem`,
  `submissionText`, and the unused `uploadFileToFirebase` and `toast` imports. Nothing
  in the page reads them.
- HTTP transport, `localStorage`, `useParams`, `navigate`, `Link` and `console.error`
  are foreign effects. Their results are parameters, and requests are returned as
  values.
- `AssignmentSubmitFormModal` is not part of this model. The file link it hands to
  `Submit` is an opaque string.
- Date formatting (`toLocaleDateString`, `toLocaleString`) depends on the locale. The
  submission date is carried as the raw string, and the due date is not rendered.
- Progress.ProgressPercent: marks and totals are integers and the quotient is exact.
  IEEE arithmetic can round `(marks / totalMarks) * 100` just below a .5 boundary and
  so give one less. Fractional marks are not modelled.
- ReportView.DetailsOf: `marks` is either a number or undefined. A `null` marks, which
  the page would treat as graded since `null !== undefined`, is not modelled. Rating
  and remark are strings, so a numeric rating of 0 is not distinguished.
- A successful response always carries a report. A 2xx with an empty body is not
  modelled.
- Asynchronous interleaving is not modelled. The un-awaited refresh is split into
  its start (inside `Submit`/`Unsubmit`) and a later `FinishFetch`, run in sequence.
  Races between overlapping requests, duplicate clicks and the `useEffect` re-run on
  a new `assignmentId` are concurrency and lifecycle behaviour.
- The exception that escapes the student page's fetch shows up only as the `thrown`
  result. The resulting unhandled promise rejection is not modelled.
- React batching of state updates is not modelled. Fields are set in source order,
  and only the values after each handler step are observable.
