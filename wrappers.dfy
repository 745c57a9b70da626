/** Option for Java's nullable references, Outcome for a Java call that returns or throws. */
module Wrappers {

  /** None stands for Java's null. */
  datatype Option<+T> = None | Some(value: T)

  /** How a Java call ends: it returns a value or it throws (the exception's class is not modelled). */
  datatype Outcome<+T> = Returned(value: T) | Threw
}
