/** Option and exception-carrying result types shared by every module.
    A Python exception that the source lets escape is modelled as `Raised`. */
module Wrappers {

  datatype Option<+T> = None | Some(value: T)

  /** The Python exceptions the modelled code can raise. `SystemExit` stands for
      `sys.exit(1)` after the size check of the tracked IMSI. */
  datatype PyError = IndexError | ValueError | SystemExit

  /** Either a normal return value or the exception that escaped. */
  datatype Result<+T> = Ok(value: T) | Raised(error: PyError) {

    predicate IsFailure() {
      Raised?
    }

    function PropagateFailure<U>(): Result<U>
      requires Raised?
    {
      Raised(error)
    }

    function Extract(): T
      requires Ok?
    {
      value
    }
  }
}
