/** Kotlin's nullable results (`T?`) as an Option value. */
module Wrappers {

  datatype Option<+T> = None | Some(value: T)

}
