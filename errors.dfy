/** Failure types of the query DSL: the typed RestDslException and the plain
    Java exceptions that the modelled code lets escape. */
module Errors {

  /** The error categories a RestDslException carries. */
  datatype ErrorType = DuplicateKey | EntityError | GeneralError | ParamsError | QueryError

  /** The default type of a RestDslException built without one. */
  const DefaultType: ErrorType := GeneralError

  /** What a failing operation throws. */
  datatype Failure =
    | RestDsl(kind: ErrorType)
    | IllegalArgument
    | IndexOutOfBounds
    | MappingError
    | NullPointer
    | IllegalState
    | ParseFailure              // java.text.ParseException

  /** The outcome of an operation that yields a value or throws. */
  datatype Result<+T> = Ok(value: T) | Err(failure: Failure)
  {
    predicate IsFailure() { Err? }
    function PropagateFailure<U>(): Result<U>
      requires Err?
    {
      Err(failure)
    }
    function Extract(): T
      requires Ok?
    {
      value
    }
  }

  /** The outcome of an operation that yields nothing or throws. */
  datatype Outcome = Pass | Fail(failure: Failure)
  {
    predicate IsFailure() { Fail? }
    function PropagateFailure(): Outcome
      requires Fail?
    {
      this
    }
  }

  datatype Option<+T> = None | Some(value: T)

  /** A RestDslException of the given type. */
  function Raise<T>(kind: ErrorType): Result<T>
  {
    Err(RestDsl(kind))
  }
}
