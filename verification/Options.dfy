/** The value that may be missing: null references, absent headers, failed look-ups. */
module Options {
  datatype Option<+T> = None | Some(value: T)
}
