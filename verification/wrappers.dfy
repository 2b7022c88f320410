/** The optional-value datatype used for Go's "value or nil" results. */
module Wrappers {

  datatype Option<+T> = None | Some(value: T)
}
