/** The optional value used for a reducer argument that may be absent. */
module Wrappers {

  /** `None` stands for a state argument the caller did not pass (`undefined`). */
  datatype Option<+T> = None | Some(value: T)
}
