/**
 A value that may be missing: null pointers, failed lookups, thrown exceptions.
 */
module Options {
  datatype Option<+T> = None | Some(value: T)
}
