/** How a Go call ends: it returns normally with a value, or it panics with a
    message. Every panic of the `optional` package is modelled as `Panic`. */
module Outcomes {

  datatype Outcome<+T> = Ok(value: T) | Panic(message: string) {

    /** True if the call panicked */
    predicate IsFailure() {
      Panic?
    }

    /** Passes a panic on to a caller whose own result has another type */
    function PropagateFailure<U>(): Outcome<U>
      requires Panic?
    {
      Panic(message)
    }

    /** The value of a call that returned normally */
    function Extract(): T
      requires Ok?
    {
      value
    }
  }
}
