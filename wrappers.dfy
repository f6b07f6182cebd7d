/** The optional-value datatype used for the card's optional fields and for lookups. */
module Wrappers {
  datatype Option<+T> = None | Some(value: T)
}
