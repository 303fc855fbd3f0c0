/** A value or nothing: the C functions' negative return codes carry no more than that. */
module Results {
  datatype Option<+T> = None | Some(value: T)
}
