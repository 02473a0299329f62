/** Small datatypes shared by the page models. */
module Wrappers {

  /** A value that may be absent (the pages' `T | null` state cells). */
  datatype Option<+T> = None | Some(value: T)
}
