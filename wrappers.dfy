/** The optional value that several cache operations return in place of JavaScript's `null`. */
module Wrappers {

  datatype Option<+T> = None | Some(value: T)
}
