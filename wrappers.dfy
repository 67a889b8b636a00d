/** The optional values of the source (`String?`, `Double?`, an absent index). */
module Wrappers {

  datatype Option<+T> = None | Some(value: T)
}
