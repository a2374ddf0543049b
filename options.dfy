/** The optional value used for a JavaScript `undefined`, `null` or NaN outcome. */
module Options {

  datatype Option<+T> = None | Some(value: T)
}
