/** The optional-value type used for the component's nullable state slots. */
module Wrappers {

  /** `None` stands for JavaScript's `null` in a state slot. */
  datatype Option<+T> = None | Some(value: T)
}
