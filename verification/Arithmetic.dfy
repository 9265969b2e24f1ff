/** The few facts about whole-number division and products that the money and odds proofs share. */
module Arithmetic {

  function Quotient(a: nat, b: nat): (q: nat)
    requires b > 0
  {
    a / b
  }

  function Remainder(a: nat, b: nat): (r: nat)
    requires b > 0
    ensures r < b
  {
    a % b
  }

  lemma MultipleIsFar(d: int, q: int)
    requires q > 0
    ensures d >= 1 ==> d * q >= q
    ensures d <= -1 ==> d * q <= -q
  {
    if d >= 1 {
      assert (d - 1) * q >= 0;
    } else if d <= -1 {
      assert (-1 - d) * q >= 0;
    }
  }

  lemma DivideExactly(n: nat, q: nat, rest: nat)
    requires rest < q
    ensures (n * q + rest) / q == n && (n * q + rest) % q == rest
  {
    var x := n * q + rest;
    assert x == q * (x / q) + x % q;
    assert (x / q - n) * q == rest - x % q;
    MultipleIsFar(x / q - n, q);
  }

  lemma ProductBelow(a: int, b: int, d: int)
    requires a < b && d > 0
    ensures a * d < b * d
  {
    assert (b - a) * d > 0;
  }

  lemma ProductAtMost(a: int, b: int, d: int)
    requires a <= b && d >= 0
    ensures a * d <= b * d
  {
    assert (b - a) * d >= 0;
  }

  lemma Regroup(whole: int, q: int, rest: int, d: int)
    ensures (q * whole + rest) * d == whole * (d * q) + rest * d
  {
  }

  /** A common factor cancels. */
  lemma CancelFactor(a: nat, d: nat, q: nat)
    requires d > 0 && q > 0
    ensures d * q > 0 && (a * d) / (d * q) == a / q
  {
    assert a == q * (a / q) + a % q;
    Regroup(a / q, q, a % q, d);
    ProductBelow(a % q, q, d);
    DivideExactly(a / q, d * q, (a % q) * d);
  }

  /** Division is the number of whole blocks: both directions. */
  lemma BlocksOf(a: nat, n: nat, q: nat)
    requires q > 0
    ensures a / q == n <==> n * q <= a < n * q + q
  {
    assert a == q * (a / q) + a % q;
    MultipleIsFar(a / q - n, q);
    assert (a / q - n) * q == a - a % q - n * q;
  }

  /** Quotient and remainder are the only way to write a number over a divisor. */
  lemma QuotientAndRemainder(a: nat, p: nat, high: nat, low: nat)
    requires low < p
    ensures Quotient(a, p) == high && Remainder(a, p) == low <==> a == high * p + low
  {
    if a == high * p + low {
      DivideExactly(high, p, low);
    }
  }
}
