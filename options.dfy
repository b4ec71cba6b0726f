/** An optional value: a reference the inspector may leave unassigned. */
module Options {

  datatype Option<T> = None | Some(value: T)
}
