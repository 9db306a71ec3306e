/** Small shared building blocks: an optional value, and JavaScript's `%`. */
module Basics {

  datatype Option<+T> = None | Some(value: T)

  /** JavaScript's `a % n`: the remainder truncates toward zero, so it takes the sign of `a`
      (Dafny's `%` is Euclidean and never negative). */
  function JsRem(a: int, n: int): (r: int)
    requires n > 0
    ensures a >= 0 ==> r == a % n
    ensures a < 0 ==> -n < r <= 0
    ensures a < 0 ==> r == a + n * ((-a) / n)
  {
    if a >= 0 then a % n else -((-a) % n)
  }
}
