/** What an Express middleware does with a request: hand it on with `next()`,
    redirect it, or answer it. */
module Http {

  /** The JSON body `{ error: message }`. */
  datatype Body = ErrorBody(error: string)

  datatype Action =
    | Next
    | Redirect(location: string)
    | Send(status: int, body: Body)
}
