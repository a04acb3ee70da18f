/** The optional value used where the source has `T | null` or an optional prop. */
module Optional {

  datatype Option<+T> = None | Some(value: T)
}
