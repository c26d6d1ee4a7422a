/** Small result types shared by the other modules. */
module Wrappers {

  /** A value that may be missing, as `std::optional` is in the source. */
  datatype Option<+T> = None | Some(value: T)

  /** The result of a coroutine that either completes with a value or
      throws (the source's exceptions out of a backing-store call). */
  datatype Outcome<+T> = Done(value: T) | Threw
}
