/** The usual optional value, standing in for JavaScript's null/undefined and Java's null. */
module Wrappers {

  datatype Option<+T> = None | Some(value: T)
}
