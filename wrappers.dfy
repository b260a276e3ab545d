/** The optional-value type used for Go's nil-able results and optional capabilities. */
module Wrappers {

  datatype Option<+T> = None | Some(value: T)
}
