/** Option and Result values used for Python's `None` and for raised exceptions. */
module Results {

  datatype Option<+T> = None | Some(value: T) {
    /** Python's `a or b` for a value that is falsy only when absent. */
    function OrElse(other: Option<T>): Option<T> {
      if Some? then this else other
    }
  }

  /** `Err(msg)` stands for a raised exception whose `str()` is `msg`. */
  datatype Result<+T> = Ok(value: T) | Err(error: string)
}
