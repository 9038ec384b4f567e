/** The optional value that the configuration's lookups take (a datacenter id may be absent). */
module Wrappers {

  datatype Option<+T> = None | Some(value: T)
}
