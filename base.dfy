/** The exceptions the pipeline can raise and the result type every fallible
    operation returns. A Python `raise` becomes a `Raise(e)` value; a normal
    return becomes `Ok(v)`. */
module Base {

  datatype Option<+T> = None | Some(value: T)

  /** The Python exception classes the core raises or lets escape. */
  datatype Exc =
    | ValueError(msg: string)
    | KeyError
    | IndexError
    | TypeError
    | RuntimeError(msg: string)
    | CalledProcessError(code: int, stderr: string)
    | TimeoutError(msg: string)
    | FileNotFoundError(path: string)
    | OSError(path: string)
    | SystemExit(msg: string)

  datatype Result<+T> = Ok(value: T) | Raise(exc: Exc) {
    predicate IsFailure() { Raise? }

    function PropagateFailure<U>(): Result<U>
      requires Raise?
    {
      Raise(exc)
    }

    function Extract(): T
      requires Ok?
    {
      value
    }
  }
}
