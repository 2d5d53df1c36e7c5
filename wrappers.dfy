/** A value that may be absent: the model's stand-in for Kotlin's and Java's nullable references. */
module Wrappers {

  datatype Option<+T> = None | Some(value: T)
}
