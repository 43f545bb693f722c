/** Result shapes shared by the whole model. */
module Wrappers {

  datatype Option<+T> = None | Some(value: T)

  /** A pure computation that may reject its input, such as validation. */
  datatype Result<+T> = Success(value: T) | Failure {
    predicate IsFailure() {
      Failure?
    }

    function PropagateFailure<U>(): Result<U>
      requires Failure?
    {
      Failure
    }

    function Extract(): T
      requires Success?
    {
      value
    }
  }

  /**
   * The result of one step against the outside world: it worked, it returned an error the program
   * can handle, or the process died around it and no further statement of that process runs.
   * `:-` passes both failures on, which is what `?` does for the error and what dying does by itself.
   */
  datatype Io<+T> = Ok(value: T) | Err | Crash {
    predicate IsFailure() {
      !Ok?
    }

    function PropagateFailure<U>(): Io<U>
      requires !Ok?
    {
      if Err? then Err else Crash
    }

    function Extract(): T
      requires Ok?
    {
      value
    }
  }
}
