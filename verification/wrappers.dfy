/** The optional value used in place of the nullable handler pointer. */
module Wrappers {

  /** `None` stands for an absent value (a null handle), `Some` for a present one. */
  datatype Option<+T> = None | Some(value: T)
}
