/** The optional values of the JavaScript source: a field that may be absent (`undefined`/`null`). */
module Wrappers {
  datatype Option<+T> = None | Some(value: T)
}
