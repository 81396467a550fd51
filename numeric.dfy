/** Small numeric helpers shared by the controller: JavaScript's Math.round,
    Math.min/Math.max clamping and the Option wrapper for a nullable value. */
module Numeric {

  datatype Option<T> = None | Some(value: T)

  /** Math.round: the nearest integer, halves rounded towards +infinity. */
  function RoundHalfUp(x: real): (r: int)
    ensures x - 0.5 < r as real <= x + 0.5
  {
    (x + 0.5).Floor
  }

  /** Math.round is monotone. */
  lemma RoundHalfUpMonotone(x: real, y: real)
    requires x <= y
    ensures RoundHalfUp(x) <= RoundHalfUp(y)
  {
  }

  /** Math.round leaves an integer where it is. */
  lemma RoundHalfUpOfInt(n: int)
    ensures RoundHalfUp(n as real) == n
  {
  }

  /** Math.max(lo, Math.min(hi, x)) on reals. */
  function Clamp(x: real, lo: real, hi: real): (r: real)
    requires lo <= hi
    ensures lo <= r <= hi
    ensures lo <= x <= hi ==> r == x
    ensures x < lo ==> r == lo
    ensures x > hi ==> r == hi
  {
    if x < lo then lo else if x > hi then hi else x
  }

  /** Clamp over integers: Math.max(lo, Math.min(hi, n)). */
  function ClampInt(n: int, lo: int, hi: int): (r: int)
    requires lo <= hi
    ensures lo <= r <= hi
    ensures lo <= n <= hi ==> r == n
    ensures n < lo ==> r == lo
    ensures n > hi ==> r == hi
  {
    if n < lo then lo else if n > hi then hi else n
  }

  /** Math.min on integers. */
  function Min(a: int, b: int): (r: int)
    ensures r <= a && r <= b
    ensures r == a || r == b
  {
    if a <= b then a else b
  }
}
