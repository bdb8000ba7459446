/** The Option type used for the fields of an inbound JSON object that may be absent. */
module Wrappers {

  /** `None` stands for a property that is missing (`undefined`) in the parsed request body. */
  datatype Option<+T> = None | Some(value: T)
}
