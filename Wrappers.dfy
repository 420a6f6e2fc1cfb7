/** The optional value used where the source holds `null` or an absent result. */
module Wrappers {
  datatype Option<+T> = None | Some(value: T)
}
