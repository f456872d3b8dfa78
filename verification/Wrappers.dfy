/** The two failure-carrying datatypes every module uses. */
module Wrappers {

  datatype Option<+T> = None | Some(value: T)

  /** `Err` stands for any of the source's error values: their wording is not modelled. */
  datatype Result<+T> = Ok(value: T) | Err
}
