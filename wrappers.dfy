/** The optional value the Java code expresses with a nullable reference. */
module Wrappers {
  datatype Option<+T> = None | Some(value: T)
}
