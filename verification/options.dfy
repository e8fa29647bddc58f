/** Failure-carrying wrappers shared by the model: Python's `Optional` and the
    HTTP layer's "raise HTTPException or return a response". */
module Options {

  /** `None` / a present value, as Python's `Optional[T]`. */
  datatype Option<+T> = None | Some(value: T) {

    /** The present value, or `default` when absent. */
    function GetOr(default: T): T {
      match this
      case Some(v) => v
      case None => default
    }
  }

  /** An endpoint either answers with a response body or raises an HTTP error. */
  datatype Result<+R, +E> = Success(value: R) | Failure(error: E)
}
