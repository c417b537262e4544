/** Small helpers shared by every module of the model. */
module Common {

  datatype Option<+T> = None | Some(value: T)

  /** A computation that either yields a value or fails with an error value. */
  datatype Result<+T, +E> = Success(value: T) | Failure(error: E)

  function Min(a: int, b: int): (m: int)
    ensures m <= a && m <= b && (m == a || m == b)
  {
    if a <= b then a else b
  }

  /**
   * JavaScript truthiness of an optional string: `undefined` and the
   * empty string are falsy, every other string is truthy.
   */
  predicate Truthy(s: Option<string>)
  {
    s.Some? && s.value != ""
  }

  /** `s` is the first `n` elements of `t` when `t` has that many, else all of `t`. */
  function Take<T>(t: seq<T>, n: nat): (s: seq<T>)
    ensures |s| == Min(|t|, n) && s <= t
  {
    if |t| <= n then t else t[..n]
  }
}
