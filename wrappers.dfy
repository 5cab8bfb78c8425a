/** The Option datatype, used for values a record or a JSON object may lack. */
module Wrappers {

  datatype Option<+T> = None | Some(value: T)
}
