/** Absent values: a missing document field, a missing balance entry. */
module Options {
  datatype Option<+T> = None | Some(value: T)
}
