/** The Option datatype, standing for the source's nullable (`null`/`undefined`) values. */
module Wrappers {

  datatype Option<+T> = None | Some(value: T)
}
