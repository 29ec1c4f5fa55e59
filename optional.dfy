/** Python's `None`-or-value, as used for optional flags and optional URLs. */
module Optional {

  datatype Option<+T> = None | Some(value: T)

}
