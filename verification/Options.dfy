/** The optional values used throughout: SQL NULL, a missing row, "no token". */
module Options {
  datatype Option<+T> = None | Some(value: T)

  /** SQL's COALESCE(a, b). */
  function Coalesce<T>(a: Option<T>, b: Option<T>): Option<T> {
    if a.Some? then a else b
  }
}
