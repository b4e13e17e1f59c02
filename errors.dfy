/** Failure outcomes of the pipeline: Python exceptions, and numpy results that are not finite. */
module Errors {

  datatype Error =
    | TypeError          // an isinstance check failed
    | ValueError         // numpy: an FFT of no samples, a reduction or arg-extremum over an empty array,
                         // a negative linspace count; SciPy likewise
    | ZeroDivisionError  // a Python scalar division or floor division by zero
    | IndexError         // a list indexed past its end
    | AssertionError     // a failed `assert` statement
    | NonFinite          // numpy divided an array by zero: the samples would be inf or nan

  datatype Result<+T> = Success(value: T) | Failure(error: Error) {
    predicate IsFailure() { Failure? }

    function PropagateFailure<U>(): Result<U>
      requires Failure?
    {
      Failure(error)
    }

    function Extract(): T
      requires Success?
    {
      value
    }
  }

  datatype Option<+T> = None | Some(value: T)
}
