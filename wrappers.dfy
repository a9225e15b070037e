/** The optional-value datatype used for absent fields, JavaScript `null`/`undefined` and NaN. */
module Wrappers {

  datatype Option<+T> = None | Some(value: T)
}
