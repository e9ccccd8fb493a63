/** Optional values: the `T | null` and `T | undefined` of the source. */
module Wrappers {

  datatype Option<+T> = None | Some(value: T)
}

/**
 * Faults as values. A call into code that may throw yields an Attempt: either the value it
 * returned or the fact that it threw (with the fault's message).
 */
module ErrorHandling {

  datatype Attempt<+T> = Returned(value: T) | Threw(fault: string)

  /**
   * safeExecute with no rethrow: the value the call returned, or the default value when it
   * threw. The fault never reaches the caller.
   */
  function SafeExecute<T>(call: Attempt<T>, defaultValue: T): (r: T)
    ensures call.Returned? ==> r == call.value
    ensures call.Threw? ==> r == defaultValue
  {
    match call
    case Returned(v) => v
    case Threw(_) => defaultValue
  }
}
