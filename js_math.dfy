/** JavaScript's `Math.round` and `Math.ceil`, on exact reals. */
module JsMath {

  /** `Math.round(x)`: the nearest integer, halves rounded towards +infinity. */
  function Round(x: real): (r: int)
    ensures x - 1.0 / 2.0 < r as real <= x + 1.0 / 2.0
  {
    (x + 1.0 / 2.0).Floor
  }

  /** `Math.round` is monotone. */
  lemma RoundMonotone(x: real, y: real)
    requires x <= y
    ensures Round(x) <= Round(y)
  {
    assert Round(x) as real <= x + 1.0 / 2.0 <= y + 1.0 / 2.0 < Round(y) as real + 1.0;
  }

  /** `Math.round` leaves an integer unchanged. */
  lemma RoundOfInteger(n: int)
    ensures Round(n as real) == n
  {
  }

  /** `Math.ceil(n / d)` for integers with a positive divisor. */
  function CeilDiv(n: int, d: int): (r: int)
    requires d > 0
    ensures (r - 1) * d < n <= r * d
  {
    (n + d - 1) / d
  }

  /** `Math.floor(n / d)` for a positive divisor: Dafny's `/` floors when the divisor is positive. */
  function FloorDiv(n: int, d: int): (r: int)
    requires d > 0
    ensures r * d <= n < (r + 1) * d
  {
    n / d
  }

  function Abs(n: int): (r: nat)
    ensures r == n || r == -n
  {
    if n < 0 then -n else n
  }

  function Max(a: int, b: int): (r: int)
    ensures r >= a && r >= b && (r == a || r == b)
  {
    if a >= b then a else b
  }
}
