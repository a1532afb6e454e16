/** The optional-value wrapper shared by the other modules. */
module Wrappers {

  /** `None` plays the part of JavaScript's `undefined` for a lookup that finds nothing. */
  datatype Option<+T> = None | Some(value: T)
}
