/** The optional-value datatype shared by the modules of this model. */
module Wrappers {

  /** A value that may be missing: PHP's `null` or an unset property. */
  datatype Option<+T> = None | Some(value: T)
}
