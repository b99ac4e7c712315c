/** JavaScript numbers as the browser client sees them: a finite value
    (modelled as an exact real) or one of the three non-finite values. */
module Js {

  datatype Number = NaN | PosInf | NegInf | Finite(x: real)

  /** `Math.floor` on a finite number. */
  function Floor(x: real): (n: int)
    ensures n as real <= x < n as real + 1.0
  {
    x.Floor
  }

  /** `Math.round` on a finite number: the nearest integer, with halves
      rounded toward +infinity. */
  function Round(x: real): (n: int)
    ensures n as real - 0.5 <= x < n as real + 0.5
  {
    (x + 0.5).Floor
  }

  /** `x % 60` on a finite number: the remainder takes the sign of the
      dividend (truncating division), unlike Dafny's Euclidean `%`. */
  function Rem60(x: real): (r: real)
    ensures x >= 0.0 ==> 0.0 <= r < 60.0 && (x - r) / 60.0 == ((x - r) / 60.0).Floor as real
    ensures x < 0.0 ==> -60.0 < r <= 0.0 && (x - r) / 60.0 == ((x - r) / 60.0).Floor as real
  {
    var q := if x >= 0.0 then (x / 60.0).Floor else -((-x / 60.0).Floor);
    assert x - (x - 60.0 * q as real) == 60.0 * q as real;
    x - 60.0 * q as real
  }
}
