/** Failure-carrying values shared by the other modules. */
module Wrappers {

  /** A value that may be absent: Python code that raises on a missing key or
      a bad index is modelled as returning None. */
  datatype Option<+T> = None | Some(value: T)
}
