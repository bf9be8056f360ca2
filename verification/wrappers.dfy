/** The Some/None datatype used where the JavaScript source returns `null`. */
module Wrappers {

  datatype Option<+T> = None | Some(value: T)
}
