/**
 Failure-carrying datatypes shared by the workout model: an optional value,
 a success-or-error result, and the Python exceptions the calculator raises.
 */
module Results {

  /** A value that may be absent, used for an attribute an object may not have yet. */
  datatype Option<+T> = None | Some(value: T)

  /** Either a computed value or the exception the computation raised. */
  datatype Result<+T, +E> = Success(value: T) | Failure(error: E)

  /** The exceptions the calculator raises on numeric input, over exact reals (float overflow is not modelled). */
  datatype Error =
    | KeyError(key: string)                  // unknown workout code in the dispatch table
    | TypeError(expected: nat, given: nat)   // constructor called with the wrong number of fields
    | ZeroDivisionError                      // a zero duration or a zero walking height
}
