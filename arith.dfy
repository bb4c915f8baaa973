/**
 * Swift's `Int` arithmetic where it differs from Dafny's: `/` truncates
 * toward zero (Dafny's `/` is Euclidean), and `max`/`min` as the standard
 * library defines them.
 */
module Arith {

  /** Swift's `a / b` on `Int` for a positive divisor: the quotient rounded toward zero. */
  function TruncDiv(a: int, b: int): (q: int)
    requires b > 0
    ensures a >= 0 ==> 0 <= q * b <= a < q * b + b
    ensures a < 0 ==> a <= q * b <= 0 && q * b < a + b
  {
    if a >= 0 then
      FloorDivBounds(a, b);
      a / b
    else
      FloorDivBounds(-a, b);
      assert -((-a) / b) * b == -(((-a) / b) * b);
      -((-a) / b)
  }

  lemma FloorDivBounds(n: int, b: int)
    requires n >= 0 && b > 0
    ensures 0 <= (n / b) * b <= n < (n / b) * b + b
  {
    var q, r := n / b, n % b;
    assert n == q * b + r && 0 <= r < b;
    assert q >= 0;
    assert q * b >= 0;
  }

  /** Swift's `max(x, y)`: `y` when `y >= x`, otherwise `x`. */
  function Max(x: int, y: int): (m: int)
    ensures m >= x && m >= y
    ensures m == x || m == y
  {
    if y >= x then y else x
  }

  /** Swift's `min(x, y)` on `Double`, over exact reals: `y` when `y < x`, otherwise `x`. */
  function MinReal(x: real, y: real): (m: real)
    ensures m <= x && m <= y
    ensures m == x || m == y
  {
    if y < x then y else x
  }
}
