/** Small shared vocabulary: an optional value and the minimum of two integers. */
module Common {

  /** A value that may be absent, standing for JavaScript's `null`/`undefined`. */
  datatype Option<+T> = None | Some(value: T)

  function Min(a: int, b: int): (m: int)
    ensures m <= a && m <= b
    ensures m == a || m == b
  {
    if a <= b then a else b
  }
}
