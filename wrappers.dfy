/** Optional values and success-or-error results, standing for `undefined`/`null`
    and for thrown errors in the storefront's TypeScript. */
module Wrappers {

  datatype Option<+T> = None | Some(value: T) {
    function GetOr(default: T): T {
      match this
      case Some(v) => v
      case None => default
    }
  }

  datatype Result<+T, +E> = Ok(value: T) | Err(error: E)
}
