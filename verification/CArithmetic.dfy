/** Integer division and remainder as C++ defines them: both truncate toward zero. */
module CArithmetic {

  function TruncDiv(a: int, b: int): (q: int)
    requires b > 0
  {
    if a >= 0 then a / b else -((-a) / b)
  }

  function TruncMod(a: int, b: int): (r: int)
    requires b > 0
    ensures -b < r < b
    ensures (0 <= a ==> 0 <= r) && (a <= 0 ==> r <= 0)
  {
    a - TruncDiv(a, b) * b
  }

  /** The quotient is the exact one without its fraction. */
  lemma TruncDivTruncates(a: int, b: int)
    requires b > 0
    ensures a >= 0 ==> TruncDiv(a, b) * b <= a < (TruncDiv(a, b) + 1) * b
    ensures a <= 0 ==> (TruncDiv(a, b) - 1) * b < a <= TruncDiv(a, b) * b
  {
    if a < 0 {
      assert -a == (-a) / b * b + (-a) % b;
    }
  }
}
