/** The Option and Result types used for Python's `None`-or-value results and raised errors. */
module Options {

  datatype Option<+T> = None | Some(value: T) {

    /** Python's `x if x is not None else d` */
    function GetOr(d: T): T {
      match this
      case Some(v) => v
      case None => d
    }
  }

  datatype Result<+T, +E> = Ok(value: T) | Err(error: E)
}
