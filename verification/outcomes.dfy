/** Failure-compatible result types shared by every derived-quantity function.
    Each constructor of `Error` stands for one way the Python code raises. */
module Outcomes {

  datatype Option<+T> = None | Some(value: T)

  datatype Error =
    | KeyError(field: string)  // `data[name]` on a field the record does not hold
    | IndexError               // a Python sequence index outside `-len <= i < len`
    | ShapeMismatch            // `ndarray.reshape` to a shape of a different size
    | NotConvOrRad             // `used`: neither usage field is present
    | NoInverseError           // `sigo`: neither inverse-error field is present
    | ZeroDivision             // `cpen` over zero pairs
    | EmptyIteration           // `np.apply_along_axis` over zero rows

  datatype Result<+T> = Ok(value: T) | Err(error: Error) {

    predicate IsFailure() {
      Err?
    }

    function PropagateFailure<U>(): Result<U>
      requires Err?
    {
      Err(error)
    }

    function Extract(): T
      requires Ok?
    {
      value
    }
  }
}
