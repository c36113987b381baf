/** The result types the other modules share. */
module Wrappers {

  datatype Option<+T> = None | Some(value: T)

  /** `Err` stands for a raised exception; the message text is not modelled. */
  datatype Result<+T> = Ok(value: T) | Err
}
