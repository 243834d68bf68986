/** Small value wrappers for Java's `null` and for the one exception the core can throw. */
module Wrappers {

  /** A Java reference that may be `null`: `None` is `null`. */
  datatype Option<+T> = None | Some(value: T)

  /** How a Java expression ends: with a value, or by throwing a NullPointerException. */
  datatype Outcome<+T> = Returned(value: T) | NullPointerException
}
