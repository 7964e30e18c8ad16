/** The status strings the scraper writes into a course's history record. */
module Statuses {

  import opened Wrappers

  /** The seven outcomes `processCourse` and `processUdemyEnrollment` can return. */
  datatype Status =
    | Failed
    | ErrorNoButton
    | ErrorIntermediate
    | ErrorException
    | SkippedNotFree
    | SkippedAlreadyEnrolled
    | Enrolled

  /** Every string the run can write as a status. */
  const StatusTexts: set<string> :=
    {"failed", "error_no_button", "error_intermediate", "error_exception",
     "skipped_not_free", "skipped_already_enrolled", "enrolled"}

  /** The string stored in the history file and the report for a status. */
  function StatusText(s: Status): (t: string)
    ensures t in StatusTexts
  {
    match s
    case Failed => "failed"
    case ErrorNoButton => "error_no_button"
    case ErrorIntermediate => "error_intermediate"
    case ErrorException => "error_exception"
    case SkippedNotFree => "skipped_not_free"
    case SkippedAlreadyEnrolled => "skipped_already_enrolled"
    case Enrolled => "enrolled"
  }

  /** Reading a stored status string back; anything else (a record written by another
      program) has no status. */
  function ParseStatus(t: string): (s: Option<Status>)
    ensures s.Some? <==> t in StatusTexts
  {
    if t == "failed" then Some(Failed)
    else if t == "error_no_button" then Some(ErrorNoButton)
    else if t == "error_intermediate" then Some(ErrorIntermediate)
    else if t == "error_exception" then Some(ErrorException)
    else if t == "skipped_not_free" then Some(SkippedNotFree)
    else if t == "skipped_already_enrolled" then Some(SkippedAlreadyEnrolled)
    else if t == "enrolled" then Some(Enrolled)
    else None
  }

  /** Every status is written as a distinct string, and reading it back gives the status. */
  lemma StatusRoundTrip(s: Status)
    ensures ParseStatus(StatusText(s)) == Some(s)
  {
  }
}
