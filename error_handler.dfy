/** The error-handling middleware: every error ends the request with one
    response whose body carries the error's message. */
module ErrorHandler {
  import opened Errors
  import opened Http

  function HandleError(err: Error): (a: Action)
    ensures a.Send? && a.status == 500
    ensures a.body.error == Message(err)
  {
    Send(500, ErrorBody(Message(err)))
  }

  /** The response depends on the message alone: two errors get the same
      response exactly when their messages agree, whatever their codes. */
  lemma ResponseDeterminedByMessage(a: Error, b: Error)
    ensures HandleError(a) == HandleError(b) <==> Message(a) == Message(b)
  {
  }

  /** The error's own code never reaches the client: a not-found or an
      authorization error is still answered with status 500. */
  lemma CodeDiscarded(e: Error)
    requires Code(e).Some? && Code(e).value != 500
    ensures HandleError(e).status != Code(e).value
    ensures e == NotFoundError ==> HandleError(e) == Send(500, ErrorBody("Resource Not Found"))
    ensures e == AuthError ==> HandleError(e) == Send(500, ErrorBody("Not Authorized"))
  {
  }

  /** Error handling ends the middleware chain: `next` is never called. */
  lemma NeverCallsNext(e: Error)
    ensures HandleError(e) != Next
  {
  }
}
