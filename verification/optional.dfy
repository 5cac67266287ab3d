/** A value that may be missing: an unset setting, a settings read that
    threw, an update that was never issued. */
module Optional {
  datatype Option<+T> = None | Some(value: T)
}
