/** Small shared datatypes. */
module Wrappers {

  /** A value that may be absent: a Go map lookup's `v, ok`, or a `(T, error)` pair reduced to presence. */
  datatype Option<+T> = None | Some(value: T)
}
