/** A value that may be missing: no lock holder, no result. */
module Options {
  datatype Option<+T> = None | Some(value: T)
}
