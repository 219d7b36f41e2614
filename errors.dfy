/** How a failure anywhere in one request becomes the endpoint's HTTP error. */
module Errors {
  import opened Transcripts

  const DisabledDetail := "Transcripts are disabled for this video."
  const NotFoundDetail := "No transcript found for this video."
  const UnavailableDetail := "Video is unavailable."

  /**
   * The three library failures the endpoint names are 404 with a fixed
   * message; every other failure is 400 carrying the failure's own text.
   */
  function ErrorResponse(f: Failure): (r: Reply)
    ensures r.HttpError?
    ensures r.status == 404 <==> !f.OtherError?
    ensures r.status == 400 <==> f.OtherError?
    ensures f == TranscriptsDisabled ==> r.detail == DisabledDetail
    ensures f == NoTranscriptFound ==> r.detail == NotFoundDetail
    ensures f == VideoUnavailable ==> r.detail == UnavailableDetail
    ensures f.OtherError? ==> r.detail == f.description
  {
    match f
    case TranscriptsDisabled => HttpError(404, DisabledDetail)
    case NoTranscriptFound => HttpError(404, NotFoundDetail)
    case VideoUnavailable => HttpError(404, UnavailableDetail)
    case OtherError(description) => HttpError(400, description)
  }

  /** Failures of different named kinds, or other failures with different texts, never produce the same error reply. */
  lemma ErrorResponseInjective(f: Failure, g: Failure)
    requires ErrorResponse(f) == ErrorResponse(g)
    ensures f == g
  {
  }
}
