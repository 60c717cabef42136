/** The optional-value wrapper used for Java references that may be null. */
module Wrappers {

  /** `None` stands for a Java `null`, `Some(v)` for a present reference. */
  datatype Option<+T> = None | Some(value: T)
}
