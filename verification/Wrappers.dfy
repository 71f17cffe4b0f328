/** The optional value used across the model, for std::optional and for lookups that may fail. */
module Wrappers {
  datatype Option<+T> = None | Some(value: T)
}
