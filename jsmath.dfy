/**
  The integer forms of the `Math` functions that the layout code calls.
  Every quantity they see in the model is an exact integer, so `Math.min`,
  `Math.max` and `Math.floor` of an integer quotient are exact; `Math.round`
  of a quotient is `RoundDiv`.
*/
module JsMath {

  function Min(a: int, b: int): (m: int)
    ensures m <= a && m <= b && (m == a || m == b)
  {
    if a <= b then a else b
  }

  function Max(a: int, b: int): (m: int)
    ensures m >= a && m >= b && (m == a || m == b)
  {
    if a >= b then a else b
  }

  /**
    `Math.round(a / b)` for b > 0: the integer r nearest to a / b, a half
    rounding up (towards +infinity), as JavaScript does. The contract says
    r - 1/2 <= a / b < r + 1/2, multiplied through by 2b.
  */
  function RoundDiv(a: int, b: int): (r: int)
    requires b > 0
    ensures b * (2 * r - 1) <= 2 * a < b * (2 * r + 1)
  {
    var q := (2 * a + b) / (2 * b);
    RoundDivBounds(a, b, q);
    q
  }

  /** The floor quotient q of 2a + b by 2b puts 2a within b of 2bq. */
  lemma RoundDivBounds(a: int, b: int, q: int)
    requires b > 0 && q == (2 * a + b) / (2 * b)
    ensures b * (2 * q - 1) <= 2 * a < b * (2 * q + 1)
  {
    var m := (2 * a + b) % (2 * b);
    assert 2 * a + b == q * (2 * b) + m && 0 <= m < 2 * b;
    assert b * (2 * q - 1) == q * (2 * b) - b;
    assert b * (2 * q + 1) == q * (2 * b) + b;
  }
}
