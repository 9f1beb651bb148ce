/** An optional value: `None` where the source has `null`, `NaN` or a
    throw that the caller turns into a value of its own. */
module Optional {

  datatype Option<+T> = None | Some(value: T)
}
