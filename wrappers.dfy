/** The optional value that stands for Python's `None` sentinels. */
module Wrappers {

  datatype Option<+T> = None | Some(value: T)
}
