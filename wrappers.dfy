/** The optional value used for every field that the telemetry may leave out. */
module Wrappers {

  datatype Option<+T> = None | Some(value: T)
}
