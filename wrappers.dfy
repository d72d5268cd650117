/** The optional value that Python's `dict.get` and `None` stand for. */
module Wrappers {

  datatype Option<+T> = None | Some(value: T)
}
