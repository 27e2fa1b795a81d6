/** Option and Result, the two failure-carrying wrappers the rest of the model uses. */
module Wrappers {

  /** An optional value: a nullable column, an absent request field. */
  datatype Option<+T> = None | Some(value: T) {

    /** The value, or `default` when there is none (SQL `COALESCE`, JS `??`). */
    function GetOr(default: T): T {
      match this
      case Some(v) => v
      case None => default
    }
  }

  /** The outcome of a request handler: a value, or the error response it sends. */
  datatype Result<+R, +E> = Ok(value: R) | Err(error: E)
}
