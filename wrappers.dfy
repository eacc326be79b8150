/** The optional value that JavaScript expresses with `null` or `undefined`. */
module Wrappers {

  datatype Option<+T> = None | Some(value: T)
}
