/**
 * Small wrappers used throughout the model.
 * `Option` stands for a Java reference that may be `null`;
 * `Outcome` is a check that either passes or names what failed.
 */
module Wrappers {

  datatype Option<+T> = None | Some(value: T)

  datatype Outcome<+E> = Pass | Fail(error: E)
}
