/** Small failure-carrying datatypes shared by the modules of this project. */
module Wrappers {

  datatype Option<+T> = None | Some(value: T)

  /** How a Java call ends: it returns a value, or it throws an exception
      (modelled by the exception's message). */
  datatype Outcome<+T> = Returned(value: T) | Threw(error: string)
}
