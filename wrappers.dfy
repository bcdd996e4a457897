/** The optional value used across the model: a reader that may be null,
    a queue front that may be missing. */
module Wrappers {

  datatype Option<+T> = None | Some(value: T)
}
