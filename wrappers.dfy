/** Option: a value that may be missing (a nullable host handle). */
module Wrappers {

  datatype Option<+T> = None | Some(value: T)
}
