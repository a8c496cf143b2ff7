/** The optional value used wherever the JavaScript has `null` or `undefined`. */
module Wrappers {

  datatype Option<T> = None | Some(value: T)
}
