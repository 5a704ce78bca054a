/** Numeric helpers shared by the Python and JavaScript parts of the system:
    numpy's clip, Python's round (half to even) and JavaScript's Math.round
    (half up), all over exact reals. */
module Arith {

  /** np.clip(x, lo, hi) for a real x. */
  function Clip(x: real, lo: real, hi: real): (r: real)
    requires lo <= hi
    ensures lo <= r <= hi
    ensures lo <= x <= hi ==> r == x
    ensures x < lo ==> r == lo
    ensures hi < x ==> r == hi
  {
    if x < lo then lo else if x > hi then hi else x
  }

  function Max(a: real, b: real): (r: real)
    ensures r >= a && r >= b && (r == a || r == b)
  {
    if a >= b then a else b
  }

  function Min(a: int, b: int): (r: int)
    ensures r <= a && r <= b && (r == a || r == b)
  {
    if a <= b then a else b
  }

  /** Python's built-in round(x) with no digits: the nearest integer, ties
      going to the even neighbour. */
  function PyRound(x: real): (r: int)
    ensures x - 0.5 <= r as real <= x + 0.5
    ensures (r as real - x == 0.5 || x - r as real == 0.5) ==> r % 2 == 0
  {
    var f := x.Floor;
    var frac := x - f as real;
    if frac < 0.5 then f
    else if frac > 0.5 then f + 1
    else if f % 2 == 0 then f
    else f + 1
  }

  /** JavaScript's Math.round(x): the nearest integer, ties going up. */
  function JsRound(x: real): (r: int)
    ensures x - 0.5 < r as real <= x + 0.5
  {
    (x + 0.5).Floor
  }

  /** A value that both rounding rules agree on: the nearest integer is unique
      unless x lies exactly half-way. */
  lemma RoundingsAgreeOffTies(x: real)
    requires x - x.Floor as real != 0.5
    ensures PyRound(x) == JsRound(x)
  {
  }

  /** Math.round of a non-negative value is non-negative. */
  lemma JsRoundNonNegative(x: real)
    ensures x >= 0.0 ==> JsRound(x) >= 0
  {
  }

  /** Math.round never decreases when its argument grows. */
  lemma JsRoundMonotone(x: real, y: real)
    requires x <= y
    ensures JsRound(x) <= JsRound(y)
  {
  }

  /** Clipping is monotone. */
  lemma ClipMonotone(x: real, y: real, lo: real, hi: real)
    requires lo <= hi && x <= y
    ensures Clip(x, lo, hi) <= Clip(y, lo, hi)
  {
  }
}
