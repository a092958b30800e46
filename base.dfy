/** Shared vocabulary: optional values and a minimum. */
module Base {
  /** A value that may be absent: a missing dictionary key, an unset header. */
  datatype Option<+T> = None | Some(value: T)

  function Min(a: int, b: int): int
  {
    if a <= b then a else b
  }
}
