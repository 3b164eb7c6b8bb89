/** The optional value the grade functions use in place of Python's `None`. */
module Wrappers {

  datatype Option<+T> = None | Some(value: T)
}
