/** Optional values, used wherever the Go code has a value-or-absent pair. */
module Wrappers {
  datatype Option<+T> = None | Some(value: T)
}
