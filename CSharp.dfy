/** The few pieces of C# numeric semantics the game logic depends on.
    Single-precision `float` values are modelled as exact reals; what has to be
    written out is where C# does NOT behave like Dafny's mathematical operators:
    integer division and float-to-int casts truncate toward zero. */
module CSharp {

  /** Math.Abs on a float. */
  function Abs(x: real): (r: real)
    ensures 0.0 <= r
    ensures r == x || r == -x
  {
    if x < 0.0 then -x else x
  }

  /** Math.Min on two floats. */
  function Min(a: real, b: real): (r: real)
    ensures r <= a && r <= b
    ensures r == a || r == b
  {
    if a <= b then a else b
  }

  /** Math.Max on two floats. */
  function Max(a: real, b: real): (r: real)
    ensures a <= r && b <= r
    ensures r == a || r == b
  {
    if a <= b then b else a
  }

  /** C#'s `a / d` on ints: the quotient is truncated toward zero, so for a
      negative dividend the remainder is negative or zero (Dafny's own `/`
      would round toward negative infinity here). */
  function TruncDiv(a: int, d: int): (q: int)
    requires 0 < d
    ensures 0 <= a ==> 0 <= q * d <= a < q * d + d
    ensures a < 0 ==> q * d - d < a <= q * d <= 0
  {
    var m := if 0 <= a then a else -a;
    QuotientBounds(m, d);
    NegatedProduct(m / d, d);
    if 0 <= a then m / d else -(m / d)
  }

  lemma QuotientBounds(m: int, d: int)
    requires 0 <= m && 0 < d
    ensures 0 <= (m / d) * d <= m < (m / d) * d + d
  {
  }

  lemma NegatedProduct(k: int, d: int)
    ensures (-k) * d == -(k * d)
  {
  }

  /** C#'s `(int)x` on a float: the fractional part is dropped, toward zero. */
  function TruncReal(x: real): (n: int)
    ensures 0.0 <= x ==> 0 <= n && n as real <= x < n as real + 1.0
    ensures x < 0.0 ==> n <= 0 && n as real - 1.0 < x <= n as real
  {
    if 0.0 <= x then x.Floor else -((-x).Floor)
  }
}
