/** The optional-value type used across the model (a JavaScript value that may be
    `undefined`, `null` or, for files, absent). */
module Wrappers {

  datatype Option<+T> = None | Some(value: T)
}
