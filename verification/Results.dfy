/** Optional values and the outcome of code that returns or raises. */
module Results {
  datatype Option<+T> = None | Some(value: T) {
    function GetOr(default: T): T {
      if Some? then value else default
    }
  }

  /** A returned value, or the code of the exception raised. */
  datatype Result<+T> = Ok(value: T) | Raise(code: string)
}
