/**
 * What the two controllers share: the response error (httpResponseError,
 * whose declaration is not part of this model), a handler's reply, the
 * classification of a service error, and the shape of a route.
 */
module HttpCommon {
  import opened Wrappers
  import opened Errs

  /** ErrorTypeClient is a 4xx reply, ErrorTypeServer a 5xx one. */
  datatype ErrorType = Client | Server

  /** httpResponseError: `code` is "" where the handler sets none; `details` is the error behind it, if any. */
  datatype HttpError = HttpError(kind: ErrorType, message: string, code: string, details: Option<Error>)

  /** A handler's (body, nil) or (nil, error). */
  datatype Reply<+T> = Success(body: T) | Failure(error: HttpError)

  function ClientError(message: string): HttpError {
    HttpError(Client, message, "", None)
  }

  /** The reply to a body that does not bind. */
  function BodyError(e: Error): HttpError {
    HttpError(Client, "invalid request body", "", Some(e))
  }

  /**
   * How createAccount and uploadCourse answer a service result: an expected
   * error goes back as a Client error with its own message and code; any
   * other error goes back as a Server error with only the handler's generic
   * message, the error itself kept as the details.
   */
  function Classify<T>(r: Result<T>, generic: string): (reply: Reply<T>)
    ensures reply.Success? <==> r.Ok?
    ensures reply.Success? ==> reply.body == r.value
    ensures reply.Failure? ==> (reply.error.kind == Client <==> IsExpected(r.error))
    ensures reply.Failure? && reply.error.kind == Client ==>
              reply.error.message == r.error.message && reply.error.code == r.error.code
    ensures reply.Failure? && reply.error.kind == Server ==>
              reply.error.message == generic && reply.error.code == "" && reply.error.details == Some(r.error)
  {
    match r
    case Ok(v) => Success(v)
    case Err(e) =>
      if IsExpected(e) then Failure(HttpError(Client, e.message, e.code, None))
      else Failure(HttpError(Server, generic, "", Some(e)))
  }

  /** A registered route; `protected` routes run behind the authentication middleware. */
  datatype Route = Route(verb: string, path: string, protected: bool)
}
