/** An optional value: a JSON field that may be absent, a lookup that may find nothing. */
module Options {

  datatype Option<+T> = None | Some(value: T)
}
