/** Errors as the catch blocks of the controllers and of the middleware see
    them, and the two ways those catch blocks pick an HTTP status. */
module ServiceErrors {
  import opened Wrappers

  /** A thrown JavaScript error: the two optional numeric properties that the
      catch blocks read (`httpErrorCode`, `httpStatusCode`) and its message. */
  datatype Thrown = Thrown(httpErrorCode: Option<int>, httpStatusCode: Option<int>, message: string)

  /** `new ServiceError(code, message)`: a `ServiceError` carries its status in
      `httpErrorCode` and has no `httpStatusCode` property. */
  function ServiceError(code: int, message: string): Thrown
  {
    Thrown(Some(code), None, message)
  }

  /** `code || 500` for a numeric property that may be missing. */
  function OrInternalError(code: Option<int>): (status: int)
    ensures status != 0
    ensures code.Some? && code.value != 0 ==> status == code.value
    ensures code.None? ==> status == 500
    ensures code == Some(0) ==> status == 500
  {
    if code.Some? && code.value != 0 then code.value else 500
  }

  /** Status chosen by the controllers' catch blocks: `err.httpErrorCode || 500`. */
  function ControllerStatus(e: Thrown): int
  {
    OrInternalError(e.httpErrorCode)
  }

  /** Status chosen by the middleware's catch blocks: `e.httpStatusCode || 500`. */
  function MiddlewareStatus(e: Thrown): int
  {
    OrInternalError(e.httpStatusCode)
  }

  /** A controller reports a `ServiceError` with the status it was built with
      (500 only when that status is 0). */
  lemma ControllerStatusOfServiceError(code: int, message: string)
    ensures ControllerStatus(ServiceError(code, message)) == if code != 0 then code else 500
  {
  }

  /** The middleware never sees the status of a `ServiceError`: whatever code
      it was built with, the middleware answers 500. */
  lemma MiddlewareStatusOfServiceError(code: int, message: string)
    ensures MiddlewareStatus(ServiceError(code, message)) == 500
  {
  }
}
