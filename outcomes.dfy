/** Optional values and the Python exceptions the modelled code can raise. */
module Outcomes {

  /** A value that may be absent: Python's `None` or a missing dictionary key. */
  datatype Option<T> = None | Some(value: T)

  /** The exceptions that escape from the modelled code. */
  datatype PyError =
    | KeyError(key: string)      // a dictionary lookup on a missing key
    | TypeError                  // `ordset.intersection()` called with no argument
    | ValueError                 // unpacking into a fixed number of names failed
    | AttributeError             // assignment to a property that has no setter

  /** The outcome of a computation that may raise. */
  datatype Result<T> = Ok(value: T) | Err(error: PyError) {
    predicate IsFailure() { Err? }
    function PropagateFailure<U>(): Result<U>
      requires Err?
    {
      Err(error)
    }
    function Extract(): T
      requires Ok?
    {
      value
    }
  }
}
