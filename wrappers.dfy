/** The optional value used wherever the source reads a property that may be
    `undefined` (an absent lookup result, a missing selection context). */
module Wrappers {

  datatype Option<+T> = None | Some(value: T)
}
