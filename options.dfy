/** An optional value: a nullable field, a missing parameter, or JavaScript's
    NaN where a number was expected. */
module Options {

  datatype Option<+T> = None | Some(value: T)
}
