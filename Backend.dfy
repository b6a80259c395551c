/**
 * What the two HTTP calls of the API client (`uploadDocuments`, `askQuestion`)
 * deliver to the components that await them. The transport itself is not
 * modelled: a call either resolves with the response body, or rejects, and
 * then the component reads `error.response?.data?.detail`, which may be absent.
 */
module Backend {
  import opened Options

  datatype Outcome<+T> =
    | Resolved(payload: T)
    | Rejected(detail: Option<string>)

  /** Body of a successful `POST /upload`: `{ documents_uploaded }`. */
  datatype UploadResult = UploadResult(documentsUploaded: int)

  /** Body of a successful `POST /ask`: `{ answer }`. */
  datatype AskResult = AskResult(answer: string)

  /**
   * `detail || fallback` as JavaScript evaluates it: an absent detail and an
   * empty detail are both falsy, so either one yields the fallback text.
   */
  function DetailOr(detail: Option<string>, fallback: string): (message: string)
    ensures detail.Some? && detail.value != "" ==> message == detail.value
    ensures message == fallback || (detail == Some(message) && message != "")
    ensures fallback != "" ==> message != ""
  {
    match detail
    case Some(d) => if d != "" then d else fallback
    case None => fallback
  }
}
