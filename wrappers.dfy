/** The optional-value wrapper used throughout the relay model. */
module Wrappers {

  /** `None` stands for JavaScript's `undefined` wherever a value may be missing. */
  datatype Option<+T> = None | Some(value: T)
}
