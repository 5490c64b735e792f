/** Shared data model of the two assignment-detail pages: the report the backend returns,
    JavaScript truthiness of its optional fields, the outcome of a report fetch, the
    requests a page issues and the screens a page can show. */
module Reports {

  /** An optional value; `None` stands for JavaScript's `null`/`undefined`. */
  datatype Option<T> = None | Some(value: T)

  /** JavaScript truthiness of an optional string: absent and `""` are falsy, so a
      string is truthy exactly when it has some text. */
  predicate Truthy(s: Option<string>): (b: bool)
    ensures b <==> |TextOf(s)| > 0
    ensures b ==> s == Some(TextOf(s))
  {
    s.Some? && s.value != ""
  }

  /** The text of an optional string, `""` when absent. */
  function TextOf(s: Option<string>): (t: string)
  {
    match s
    case None => ""
    case Some(t) => t
  }

  /** The per-user, per-assignment report as the backend sends it. Dates are kept as the
      strings the backend sends; `marks == None` is `marks === undefined`. */
  datatype AssignmentReport = AssignmentReport(
    assignmentTitle: string,
    description: string,
    dueDate: string,
    assignmentFile: Option<string>,
    submissionDate: Option<string>,
    submittedFileLink: Option<string>,
    totalMarks: int,
    marks: Option<int>,
    rating: Option<string>,
    remark: Option<string>)

  /** How a `GET` of the report ended: a body, a response with a non-2xx status, or a
      failure that carries no response at all (network error). */
  datatype FetchOutcome = Found(body: AssignmentReport) | HttpError(status: int) | NoResponse

  predicate IsNotFound(o: FetchOutcome)
  {
    o.HttpError? && o.status == 404
  }

  /** The requests the pages send to the backend. */
  datatype Request = Get(path: string) | Post(path: string, fileLink: Option<string>)

  /** `localStorage.getItem` gives `null` for a missing key, which a template literal
      renders as the text "null". */
  function UserIdText(userId: Option<string>): (t: string)
  {
    match userId
    case None => "null"
    case Some(u) => u
  }

  /** The part of every endpoint path that names the assignment. */
  function AssignmentBase(assignmentId: string): (b: string)
  {
    "/api/assignments/" + assignmentId
  }

  /** `/api/assignments/{assignmentId}/report/{userId}`. */
  function ReportPath(assignmentId: string, userId: Option<string>): (p: string)
    ensures var b := AssignmentBase(assignmentId) + "/report/";
      |b| <= |p| && p[..|b|] == b && p[|b|..] == UserIdText(userId)
  {
    AssignmentBase(assignmentId) + "/report/" + UserIdText(userId)
  }

  /** `/api/assignments/{assignmentId}/submit`. */
  function SubmitPath(assignmentId: string): (p: string)
    ensures var b := AssignmentBase(assignmentId);
      |b| <= |p| && p[..|b|] == b && p[|b|..] == "/submit"
  {
    AssignmentBase(assignmentId) + "/submit"
  }

  /** `/api/assignments/{assignmentId}/unsubmit`. */
  function UnsubmitPath(assignmentId: string): (p: string)
    ensures var b := AssignmentBase(assignmentId);
      |b| <= |p| && p[..|b|] == b && p[|b|..] == "/unsubmit"
  {
    AssignmentBase(assignmentId) + "/unsubmit"
  }

  /** For one assignment, the report, submit and unsubmit requests go to three different
      endpoints, whatever the user id. */
  lemma EndpointsDistinct(assignmentId: string, userId: Option<string>)
    ensures ReportPath(assignmentId, userId) != SubmitPath(assignmentId)
    ensures ReportPath(assignmentId, userId) != UnsubmitPath(assignmentId)
    ensures SubmitPath(assignmentId) != UnsubmitPath(assignmentId)
  {
    var n := |AssignmentBase(assignmentId)|;
    var r, s, u := ReportPath(assignmentId, userId), SubmitPath(assignmentId), UnsubmitPath(assignmentId);
    assert r[n + 1] == 'r' && s[n + 1] == 's' && u[n + 1] == 'u';
  }

  const FailedToLoad := "Failed to load assignment details. Please try again later."
  const FailedToSubmit := "Failed to submit assignment. Please try again."
  const FailedToUnsubmit := "Failed to unsubmit assignment. Please try again."

  /** The mutually exclusive screens of a page. */
  datatype Screen = Loading | ErrorPanel(description: string) | NotFound | Loaded(report: AssignmentReport)
}
