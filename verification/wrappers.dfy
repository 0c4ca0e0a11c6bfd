/** The optional value that stands for Python's `None` in this model. */
module Wrappers {

  datatype Option<+T> = None | Some(value: T)
}
