/** Option and Result, the two failure-carrying values the model uses for
    JavaScript's `undefined`/`null` and for an HTTP call's next/error outcome. */
module Wrappers {

  datatype Option<+T> = None | Some(value: T) {
    function GetOr(default: T): T {
      match this
      case Some(v) => v
      case None => default
    }
  }

  /** The outcome of one HTTP call: the `next` payload or the `error` value. */
  datatype Result<+R, +E> = Success(value: R) | Failure(error: E)
}
