/** The one wrapper the model needs: a value that may be absent. */
module Wrappers {

  /** `None` stands for a foreign call that raised instead of returning. */
  datatype Option<+T> = None | Some(value: T)
}
