/** The optional-value datatype that stands for the resampler's nullable pointers. */
module Wrappers {

  /** `None` plays the part of a NULL pointer. */
  datatype Option<+T> = None | Some(value: T)
}
