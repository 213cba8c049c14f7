/** A value that may be absent: JavaScript's `null` for a state slot, or a parse that fails. */
module Options {

  datatype Option<+T> = None | Some(value: T)
}
