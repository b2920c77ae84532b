/**
  Optional values and success-or-failure results shared by every module of
  the model.  `None` stands for Python's `None` wherever an argument or a
  field is optional; `Result` carries either a value or the exception the
  Python code would raise at that point.
 */
module Base {

  datatype Option<+T> = None | Some(value: T) {

    /** Python's `x if x is not None else d`. */
    function GetOr(d: T): T {
      match this
      case Some(v) => v
      case None => d
    }
  }

  datatype Result<+T, +E> = Ok(value: T) | Err(error: E) {

    predicate IsFailure() {
      Err?
    }

    function PropagateFailure<U>(): Result<U, E>
      requires Err?
    {
      Err(error)
    }

    function Extract(): T
      requires Ok?
    {
      value
    }
  }
}
