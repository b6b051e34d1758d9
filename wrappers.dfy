/** An optional value shared by the other modules. */
module Wrappers {

  /** `None` stands for a C null pointer or a missing value. */
  datatype Option<+T> = None | Some(value: T)
}
