/** A value that may be absent: a nullable column, an optional parameter, a lookup that found nothing. */
module Options {
  datatype Option<+T> = None | Some(value: T)
}
