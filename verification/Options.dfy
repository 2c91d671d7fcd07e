/** A value that may be absent, as in src/optional.h. */
module Options {
  datatype Option<+T> = None | Some(value: T)
}
