/** An optional value, for fields a record may lack and look-ups that may find nothing. */
module Options {
  datatype Option<+T> = None | Some(value: T)
}
