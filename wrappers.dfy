/** An optional value, used for JavaScript's `null` selection and for absent view parts. */
module Wrappers {
  datatype Option<+T> = None | Some(value: T)
}
