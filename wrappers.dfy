/** The optional values that stand for Kotlin's nullable types. */
module Wrappers {

  datatype Option<+T> = None | Some(value: T)
}
