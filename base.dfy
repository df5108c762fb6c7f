/**
 * Failure-compatible wrappers and the exceptions the analytics engine can raise.
 * Every Python exception the core raises is an `Error` value, so an operation that
 * can fail returns a `Result` instead of requiring that it cannot fail.
 */
module Base {

  /** The Python exceptions raised by the modelled code. */
  datatype Error =
    | ValueError(text: string)   // a name that does not unpack into two tokens
    | KeyError(key: string)      // a dict lookup of a missing participant (by full name)
    | IndexError                 // an empty message list, or a bucket index out of range
    | ZeroDivisionError          // an average over zero messages or zero days

  datatype Option<+T> = None | Some(value: T)

  datatype Result<+T> = Ok(value: T) | Err(error: Error) {
    predicate IsFailure() { Err? }

    function PropagateFailure<U>(): Result<U>
      requires Err?
    {
      Err(error)
    }

    function Extract(): T
      requires Ok?
    {
      value
    }
  }

  function Min(a: int, b: int): int { if a <= b then a else b }

  function Max(a: int, b: int): int { if a <= b then b else a }
}
