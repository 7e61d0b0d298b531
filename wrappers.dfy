/** The optional value used for the nullable references of the model. */
module Wrappers {

  /** `None` stands for a `null` reference, `Some(v)` for a present value. */
  datatype Option<+T> = None | Some(value: T)
}
