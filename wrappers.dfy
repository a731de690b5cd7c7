/** Option type used for operations of the controller that can fail. */
module Wrappers {
  datatype Option<+T> = None | Some(value: T)
}
