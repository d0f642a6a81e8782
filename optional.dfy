/** The conventional Some/None datatype, for lookups that may find nothing. */
module Optional {
  datatype Option<+T> = None | Some(value: T)
}
