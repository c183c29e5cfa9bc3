/** Failure-carrying values used throughout the model.

    The generator stops at the first Python exception it raises; every such
    exception is a `Failure` here, carrying an `Error` that says which one. */
module Results {

  datatype Option<+T> = None | Some(value: T)

  /** The exceptions the generator can raise while it writes a configuration. */
  datatype Error =
      /** `assert system in [...]` failed: the stage's system is not one of its variants */
    | UnsupportedSystem(path: string)
      /** `assert setting` failed: a required setting is absent or falsy */
    | MissingSetting(path: string)
      /** a `str` method (`strip`, `split`) or a path join met a value that is not a string */
    | WrongType(path: string)
      /** `int(...)` could not turn the setting into an integer */
    | NotAnInteger(path: string)
      /** a builder was called with a keyword argument it does not declare */
    | UnexpectedKeyword(name: string)

  datatype Result<+T> = Success(value: T) | Failure(error: Error) {
    predicate IsFailure() {
      Failure?
    }

    function PropagateFailure<U>(): Result<U>
      requires Failure?
    {
      Failure(error)
    }

    function Extract(): T
      requires Success?
    {
      value
    }
  }

  /** How a writing operation ended: normally, or with an exception. */
  datatype Outcome = Ok | Fail(error: Error)

  function OutcomeOf<T>(r: Result<T>): Outcome
  {
    match r
    case Success(_) => Ok
    case Failure(e) => Fail(e)
  }
}
