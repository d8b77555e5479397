/** Ruby's `Float#to_i` truncates toward zero; Dafny's `/` on `int` is Euclidean.
    This module gives the truncating operations the fare engine relies on. */
module Arith {

  /** The integer quotient of `n` by `d`, rounded toward zero (the value of
      `(n / d.to_f).to_i` in exact arithmetic). */
  function TruncDiv(n: int, d: int): (q: int)
    requires d > 0
    ensures 0 <= n ==> 0 <= q && q * d <= n < q * d + d
    ensures n < 0 ==> q <= 0 && q * d - d < n <= q * d
  {
    if n >= 0 then
      DivBounds(n, d);
      n / d
    else
      DivBounds(-n, d);
      -((-n) / d)
  }

  /** Euclidean division of a natural number brackets it between two multiples. */
  lemma DivBounds(n: int, d: int)
    requires n >= 0 && d > 0
    ensures 0 <= n / d && (n / d) * d <= n < (n / d) * d + d
  {
    var q, r := n / d, n % d;
    assert n == d * q + r && 0 <= r < d;
    assert d * q == q * d;
  }

  /** A real number truncated toward zero, as `Float#to_i` does. */
  function TruncReal(x: real): (i: int)
    ensures 0.0 <= x ==> 0 <= i && i as real <= x < i as real + 1.0
    ensures x < 0.0 ==> i <= 0 && i as real - 1.0 < x <= i as real
  {
    if x >= 0.0 then x.Floor else -((-x).Floor)
  }

  /** Truncating the exact quotient `n / 20` as a real gives `TruncDiv(n, 20)`:
      the commission shares are all multiples of one twentieth. */
  lemma TruncRealOfTwentieths(n: int, x: real)
    requires x * 20.0 == n as real
    ensures TruncReal(x) == TruncDiv(n, 20)
  {
    var q := TruncDiv(n, 20);
    if n >= 0 {
      assert q as real <= x < q as real + 1.0;
    } else {
      assert q as real - 1.0 < x <= q as real;
    }
  }
}
