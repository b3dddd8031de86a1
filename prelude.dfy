/** Failure-compatible wrappers shared by every module of the model. */
module Prelude {

  /** A value that may be absent: a missing dict key, or Python's `None`. */
  datatype Option<+T> = None | Some(value: T)
  {
    /** `d.get(key, default)` once the lookup has been made. */
    function GetOr(default: T): T {
      match this
      case Some(v) => v
      case None => default
    }
  }

  /** The outcome of a step that either returns a value or raises. */
  datatype Result<+T, +E> = Ok(value: T) | Err(error: E)
}
