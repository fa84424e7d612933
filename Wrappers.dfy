/** The optional value used for the program's optional arguments and for
    results that may be undefined. */
module Wrappers {
  datatype Option<+T> = None | Some(value: T)
}
