/** Small failure-carrying datatypes shared by the fan model. */
module Wrappers {

  /** A value that may be absent: Python's `None` or a lookup that found nothing. */
  datatype Option<+T> = None | Some(value: T)
}
