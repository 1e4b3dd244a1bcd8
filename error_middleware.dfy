/** src/middleware/errorMiddleware.js (the active revision, lines 23-39):
    turns whatever a handler passed to `next` into the error response. */
module ErrorMiddleware {
  import opened Http

  /** The `{ success, message }` error body; there is no `errors` field. */
  datatype ErrorBody = ErrorBody(success: bool, message: string)

  datatype Rendered = Rendered(status: int, body: ErrorBody)

  /** `errorMiddleware(err, req, res, next)`. */
  function Render(err: Failure): (r: Rendered)
    ensures !r.body.success
    ensures err.Api? ==> r.status == err.error.statusCode && r.body.message == err.error.message
    ensures err.Internal? ==> r.status == 500 && r.body.message == "Internal Server Error"
  {
    match err
    case Api(e) => Rendered(e.statusCode, ErrorBody(false, e.message))
    case Internal(_) => Rendered(500, ErrorBody(false, "Internal Server Error"))
  }

  /** Nothing of an unexpected error's detail reaches the client: any two
      such errors render identically. */
  lemma InternalDetailNeverLeaks(detail: string, other: string)
    ensures Render(Internal(detail)) == Render(Internal(other)) == Rendered(500, ErrorBody(false, "Internal Server Error"))
  {
  }
}
