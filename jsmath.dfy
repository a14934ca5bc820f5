/**
 * The numeric helpers the engine borrows from JavaScript, over exact reals
 * and unbounded integers.
 */
module JsMath {

  /** Math.round: the nearest integer, halves rounded towards +infinity. */
  function Round(x: real): (n: int)
    ensures n as real - 0.5 <= x < n as real + 0.5
  {
    (x + 0.5).Floor
  }

  /** x clamped into [lo, hi]: the nearer bound when x lies outside. */
  function Clamp(x: real, lo: real, hi: real): (y: real)
    requires lo <= hi
    ensures lo <= y <= hi
    ensures lo <= x <= hi ==> y == x
    ensures x < lo ==> y == lo
    ensures hi < x ==> y == hi
  {
    if x < lo then lo else if hi < x then hi else x
  }

  /** A third of n, rounded up, for an integer n. */
  function CeilThird(n: int): (c: int)
    ensures 3 * (c - 1) < n <= 3 * c
  {
    (n + 2) / 3
  }

  /** The largest of the values and the floor. */
  function MaxWithFloor(xs: seq<real>, floor: real): (m: real)
    ensures floor <= m
    ensures forall i :: 0 <= i < |xs| ==> xs[i] <= m
    ensures m == floor || exists i :: 0 <= i < |xs| && xs[i] == m
  {
    if xs == [] then floor
    else
      var rest := MaxWithFloor(xs[1..], floor);
      if xs[0] > rest then xs[0] else rest
  }

  lemma RoundBounds(x: real, lo: int, hi: int)
    requires lo as real <= x <= hi as real
    ensures lo <= Round(x) <= hi
  {
  }
}
