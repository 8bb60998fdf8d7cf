/** An optional value: the model's stand-in for a JavaScript `undefined` or
    `null` argument or result. */
module Options {

  datatype Option<T> = None | Some(value: T)
}
