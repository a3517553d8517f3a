/** The optional value used throughout the model: a JavaScript `null`/`undefined`
    result, a missing storage key, or a regular-expression match that failed. */
module Options {

  datatype Option<+T> = None | Some(value: T)
}
