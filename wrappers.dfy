/** The optional value used for "nothing emitted", `null` and absent results. */
module Wrappers {

  datatype Option<+T> = None | Some(value: T)
}
