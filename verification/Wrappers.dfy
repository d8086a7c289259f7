/** The optional value used where the gateway's Python code stores `None`. */
module Wrappers {
  datatype Option<+T> = None | Some(value: T)
}
