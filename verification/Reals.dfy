/** Real arithmetic the other modules share. Products that occur under recursion are written `Times`,
    so that a proof about the recursion can `hide` them. The sum of an integer series is here too. */
module Reals {

  function Times(x: real, y: real): real {
    x * y
  }

  function Power(x: real, i: nat): real {
    if i == 0 then 1.0 else Times(x, Power(x, i - 1))
  }

  lemma PowerOfZero(i: nat)
    requires i > 0
    ensures Power(0.0, i) == 0.0
  {
  }

  lemma SmallPowers(v: real)
    ensures Power(v, 1) == v && Power(v, 2) == Times(v, v)
  {
    assert Power(v, 0) == 1.0;
    assert Power(v, 1) == v;
  }

  lemma SquareNonNegative(x: real)
    ensures Times(x, x) >= 0.0
  {
  }

  lemma SquareZero(x: real)
    requires Times(x, x) <= 0.0
    ensures x == 0.0
  {
    if x > 0.0 { ProductPositive(x, x); }
    if x < 0.0 { ProductPositive(-x, -x); }
  }

  lemma ProductNonNegative(x: real, y: real)
    requires x >= 0.0 && y >= 0.0
    ensures Times(x, y) >= 0.0
  {
  }

  lemma ProductPositive(x: real, y: real)
    requires x > 0.0 && y > 0.0
    ensures Times(x, y) > 0.0
  {
  }

  lemma ProductZero(x: real, y: real)
    ensures Times(x, y) == 0.0 <==> x == 0.0 || y == 0.0
  {
  }

  /** The sign of a product with a positive factor is the sign of the other factor. */
  lemma FactorNonNegative(x: real, y: real)
    requires x > 0.0 && Times(x, y) >= 0.0
    ensures y >= 0.0
  {
    if y < 0.0 { ProductPositive(x, -y); }
  }

  lemma QuotientEqual(x: real, d: real, q: real)
    requires d != 0.0
    ensures x / d == q <==> Times(q, d) == x
  {
    var z := x / d;
    assert Times(z, d) == x;
    if Times(q, d) == x {
      assert Times(q - z, d) == 0.0;
      ProductZero(q - z, d);
    }
  }

  lemma Distributes(x: real, y: real, z: real)
    ensures Times(x, y + z) == Times(x, y) + Times(x, z)
    ensures Times(x + y, z) == Times(x, z) + Times(y, z)
    ensures Times(x, y - z) == Times(x, y) - Times(x, z)
    ensures Times(x, y) == Times(y, x)
  {
  }

  function SumOf(s: seq<int>): int {
    if s == [] then 0 else SumOf(s[..|s| - 1]) + s[|s| - 1]
  }
}
