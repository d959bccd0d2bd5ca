/** The optional value that stands for a nullable reference such as
    "the previous smoothed sample, or null before the first emission". */
module Wrappers {
  datatype Option<+T> = None | Some(value: T)
}
