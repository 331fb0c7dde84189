/** The error values that reach a callback in the pod: the five HTTP errors
    of lib/errors.js, a plain `new Error(text)`, and the failures the document
    store reports when it saves or queries. */
module Errors {
  import opened Wrappers

  datatype Error =
    | NotFoundError
    | InternalError
    | NotImplementedError
    | AuthError
      /** `given` is the constructor's argument; `None` is a missing argument. */
    | BadRequestError(given: Option<string>)
    | PlainError(text: string)
      /** Schema validation refused the document; `paths` are the offending fields. */
    | ValidationError(paths: set<string>)
      /** A unique index refused the insert; the driver's error carries code 11000. */
    | DuplicateKeyError(index: string)
      /** The store could not be reached or answered with a failure. */
    | StoreError(text: string)
      /** Thrown by the JavaScript engine, e.g. for `new` on a non-constructor. */
    | TypeError(text: string)

  /** The errors built by the five constructors of lib/errors.js. */
  predicate IsHttpError(e: Error) {
    e.NotFoundError? || e.InternalError? || e.NotImplementedError? || e.AuthError? || e.BadRequestError?
  }

  /** The `code` field: an HTTP status set by the five constructors, the
      driver's 11000 on a duplicate-key error, absent on every other error. */
  function Code(e: Error): (c: Option<int>)
    ensures IsHttpError(e) ==> c.Some? && 400 <= c.value <= 501
    ensures c.Some? && !IsHttpError(e) <==> e.DuplicateKeyError?
    ensures e.DuplicateKeyError? ==> c.value !in {400, 401, 404, 500, 501}
  {
    match e
    case NotFoundError => Some(404)
    case InternalError => Some(500)
    case NotImplementedError => Some(501)
    case AuthError => Some(401)
    case BadRequestError(_) => Some(400)
    case DuplicateKeyError(_) => Some(11000)
    case _ => None
  }

  /** The `message` field. A bad request keeps its argument unless it is
      missing or empty (JavaScript `message || 'Bad Request'`). */
  function Message(e: Error): (m: string)
    ensures IsHttpError(e) ==> m != ""
    ensures e.PlainError? || e.StoreError? || e.TypeError? ==> m == e.text
  {
    match e
    case NotFoundError => "Resource Not Found"
    case InternalError => "Internal Server Error"
    case NotImplementedError => "Not Implemented"
    case AuthError => "Not Authorized"
    case BadRequestError(given) =>
      if given.Some? && given.value != "" then given.value else "Bad Request"
    case PlainError(text) => text
    case ValidationError(_) => "Validation failed"
    case DuplicateKeyError(index) => "E11000 duplicate key error index: " + index
    case StoreError(text) => text
    case TypeError(text) => text
  }

  /** Two HTTP errors are of the same kind exactly when they carry the same
      code: the five codes are pairwise distinct. */
  lemma CodeIdentifiesKind(a: Error, b: Error)
    requires IsHttpError(a) && IsHttpError(b)
    ensures Code(a) == Code(b) <==> (a == b || (a.BadRequestError? && b.BadRequestError?))
  {
  }

  /** Every HTTP error has a non-empty message, a bad request included. */
  lemma HttpMessageNonEmpty(e: Error)
    requires IsHttpError(e)
    ensures Message(e) != ""
  {
  }

  /** A bad request keeps a non-empty message it is given and falls back to
      'Bad Request' for a missing or empty one. */
  lemma BadRequestMessage(given: Option<string>)
    ensures given.Some? && given.value != "" ==> Message(BadRequestError(given)) == given.value
    ensures given.None? || given.value == "" ==> Message(BadRequestError(given)) == "Bad Request"
    ensures Code(BadRequestError(given)) == Some(400)
  {
  }
}
