/** Optional values, results with an error, and the HTTP errors the API routers raise. */
module Wrappers {

  datatype Option<+T> = None | Some(value: T) {
    /** The wrapped value, or `default` when absent (TypeScript's `??`). */
    function GetOr(default: T): T {
      match this
      case Some(v) => v
      case None => default
    }
  }

  datatype Result<+R, +E> = Success(value: R) | Failure(error: E) {
    predicate IsFailure() {
      Failure?
    }
  }

  /** An `HTTPException(status_code, detail)` raised by a router. */
  datatype HttpError = HttpError(status: int, detail: string)

  const NotFound: int := 404
  const BadRequest: int := 400
  const InternalServerError: int := 500
}
