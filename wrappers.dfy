/** Failure-carrying results shared by every module of the model. */
module Wrappers {

  /** Python's `Optional[T]`: `None` or a value. */
  datatype Option<T> = None | Some(value: T) {
    function GetOr(default: T): T {
      if Some? then value else default
    }
  }

  /** The outcome of an HTTP handler: a value, or the status code of the
      `HTTPException` it raises. */
  datatype Outcome<T> = Ok(value: T) | Fail(status: int)

  const NotFound := 404
  const BadRequest := 400
  const ServerError := 500
}
