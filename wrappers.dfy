/** Absent values: Ruby's nil, or a key a hash does not hold. */
module Wrappers {

  datatype Option<+T> = None | Some(value: T)
}
