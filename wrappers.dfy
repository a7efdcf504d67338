/** Option type used for "value or nothing" outcomes of lookups and service calls. */
module Wrappers {
  datatype Option<+T> = None | Some(value: T)
}
