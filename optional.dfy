/** Absent values and error returns, shared by every module of the model.
    `None` stands for JavaScript's `undefined`/`null` and for pandas' NaN,
    as each module says where it uses it. */
module Optional {

  datatype Option<+T> = None | Some(value: T) {
    function GetOr(default: T): T {
      match this
      case Some(v) => v
      case None => default
    }
  }

  /** An HTTP endpoint either answers with a body or raises an error. */
  datatype Result<+T, +E> = Success(value: T) | Failure(error: E)
}
