/** The result datatype standing for the exceptions the Python code raises. */
module Wrappers {
  datatype Result<+T> = Ok(value: T) | Err(message: string) {
    predicate IsFailure() {
      Err?
    }

    function PropagateFailure<U>(): Result<U>
      requires Err?
    {
      Err(message)
    }

    function Extract(): T
      requires Ok?
    {
      value
    }
  }

  datatype Option<+T> = None | Some(value: T)
}
