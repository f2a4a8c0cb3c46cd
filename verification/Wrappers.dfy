/** Results of calls that can fail or find nothing. */
module Wrappers {
  datatype Option<+T> = None | Some(value: T)
  datatype Result<+T> = Ok(value: T) | Err
}
