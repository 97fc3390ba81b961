/** The optional value used throughout the model for Python's `None`,
    JavaScript's `null`/`undefined` and absent dictionary keys. */
module Wrappers {

  datatype Option<+T> = None | Some(value: T)
}
