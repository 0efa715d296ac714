/** Option type used for the operations of the library that throw. */
module Wrappers {
  datatype Option<+T> = None | Some(value: T)
}
