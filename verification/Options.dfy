/** An optional value, as boost::optional or an error code beside a value supplies one. */
module Options {
  datatype Option<+T> = None | Some(value: T)
}
