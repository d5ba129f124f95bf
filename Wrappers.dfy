/** Option and Result, standing for Java's nullable references and thrown exceptions. */
module Wrappers {

  /** A nullable reference: `None` is Java's `null`. */
  datatype Option<T> = None | Some(value: T) {

    /** The value, or `default` when there is none. */
    function GetOr(default: T): T {
      match this
      case Some(v) => v
      case None => default
    }
  }

  /** The outcome of an operation that either returns a value or throws. */
  datatype Result<T, E> = Ok(value: T) | Err(error: E)
}
