/** The optional value used where Java returns `null` or throws a checked
    "no such element" exception. */
module Wrappers {

  datatype Option<+T> = None | Some(value: T)
}
