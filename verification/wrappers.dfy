/** Optional values and success/failure results shared by every module. */
module Wrappers {

  /** A value that may be absent: `null`/`undefined` in TypeScript, `None` in Python. */
  datatype Option<+T> = None | Some(value: T) {
    function GetOr(default: T): T {
      match this
      case Some(v) => v
      case None => default
    }
  }

  /** The `{ success, data?, error? }` objects the server actions return. */
  datatype Result<+R> = Success(value: R) | Failure(error: string)
}
