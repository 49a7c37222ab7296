/** Failure-compatible optional values, used where the JavaScript program yields NaN, Infinity or `false`. */
module Wrappers {

  datatype Option<+T> = None | Some(value: T)

}
