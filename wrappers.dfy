/** Small failure-carrying datatypes shared by the whole model. */
module Wrappers {

  /** A value or JavaScript's `undefined`. */
  datatype Option<+T> = None | Some(value: T)

  /** What a JavaScript call does: it returns a value or it throws. */
  datatype Attempt<+T> = Returned(value: T) | Threw(error: string)
}
