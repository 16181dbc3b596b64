/** Failure-compatible wrappers shared by every module of the template compiler.
    `Failure` stands for an explicit `throw new Error(message)` of the source;
    `TypeError` stands for a JavaScript runtime error (reading a property of
    null or undefined, calling `push` on something that is not an array). */
module Wrappers {

  datatype Option<+T> = None | Some(value: T)

  datatype Error = Failure(message: string) | TypeError(message: string)

  datatype Result<+T> = Ok(value: T) | Err(error: Error) {
    predicate IsFailure() {
      Err?
    }

    function PropagateFailure<U>(): Result<U>
      requires Err?
    {
      Err(error)
    }

    function Extract(): T
      requires Ok?
    {
      value
    }
  }
}
