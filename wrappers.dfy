/** The optional-value datatype used throughout the model for JavaScript's
    `undefined`/`null` versus a present value. */
module Wrappers {

  datatype Option<+T> = None | Some(value: T)
}
