/** The one shared datatype: an optional value, the model of `null`, `undefined` and SQL NULL. */
module Prelude {
  datatype Option<+T> = None | Some(value: T)
}
