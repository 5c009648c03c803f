/** The optional value used across the model for JavaScript's
    "value or undefined". */
module Wrappers {

  datatype Option<+T> = None | Some(value: T)
}
