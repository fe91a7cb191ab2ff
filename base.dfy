/** Small shared vocabulary. */
module Base {

  /** A value that may be absent: a missing JSON member, a null launch string. */
  datatype Option<+T> = None | Some(value: T)
}
