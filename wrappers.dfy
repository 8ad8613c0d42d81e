/** The optional-value datatype shared by the model's modules. */
module Wrappers {

  /** `None` stands for the source's `null` / `undefined`. */
  datatype Option<+T> = None | Some(value: T)
}
