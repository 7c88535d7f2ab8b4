/** Optional values (SQL NULL, JavaScript `undefined`/`null`) and HTTP-style responses. */
module Wrappers {

  datatype Option<+T> = None | Some(value: T) {
    function GetOr(default: T): T {
      match this
      case Some(v) => v
      case None => default
    }
  }

  /** A route handler's answer: a status with a body, or a status with an error message. */
  datatype Response<+T> = Respond(status: int, body: T) | Fail(status: int, error: string)
}
