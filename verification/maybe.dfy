/** An optional value. */
module Maybe {
  datatype Option<+T> = None | Some(value: T)
}
