/** An optional value: a selection not yet made, a route not taken, a
    clock that does not parse. */
module Options {

  datatype Option<T> = None | Some(value: T)
}
