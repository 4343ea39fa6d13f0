/** Failure-compatible wrappers used throughout the model: an optional value (Python's
    `None`-or-value) and a result that either holds a value or the exception that escaped. */
module Wrappers {

  datatype Option<+T> = None | Some(value: T) {

    predicate IsFailure() {
      None?
    }

    function PropagateFailure<U>(): Option<U>
      requires None?
    {
      None
    }

    function Extract(): T
      requires Some?
    {
      value
    }

    /** The value held, or `default` when there is none (Python's `x if x is not None else d`). */
    function GetOr(default: T): T {
      match this
      case Some(v) => v
      case None => default
    }
  }

  datatype Result<+T, +E> = Success(value: T) | Failure(error: E) {

    predicate IsFailure() {
      Failure?
    }

    function PropagateFailure<U>(): Result<U, E>
      requires Failure?
    {
      Failure(error)
    }

    function Extract(): T
      requires Success?
    {
      value
    }
  }
}

/** The Python exceptions the core raises, catches or lets escape. A kind stands for the class
    and all of its subclasses (`json.JSONDecodeError` is a `ValueError`). */
module Exceptions {

  datatype Kind =
    | ValueError
    | SyntaxError
    | TypeError
    | AssertionError
    | AttributeError
    | KeyError
    | OtherError(name: string)

  /** An exception: its kind and `str(e)`. */
  datatype Exc = Exc(kind: Kind, message: string)

  /** The tuple `(ValueError, SyntaxError, TypeError)` that every `except` clause of the core names. */
  predicate Caught(e: Exc) {
    e.kind in {ValueError, SyntaxError, TypeError}
  }
}
