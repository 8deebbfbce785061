/** Option and exception-carrying outcomes shared by the model. */
module Wrappers {

  /** `std::optional`: a value or nothing. */
  datatype Option<+T> = None | Some(value: T)

  /** A computation that either yields a value or throws a C++ exception. */
  datatype Outcome<+T> = Done(value: T) | Throws
}
