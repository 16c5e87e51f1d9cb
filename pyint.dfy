/**
  Python's integer operators `//`, `%` and `**` (non-negative exponent),
  written out over Dafny's unbounded `int`. Dafny's own `/` and `%` are
  Euclidean; Python's round the quotient toward minus infinity, so the two
  differ when the divisor is negative.
 */
module PyInt {

  /** Python's `a // b`: the floor of the exact quotient. */
  function FloorDiv(a: int, b: int): (q: int)
    requires b != 0
    ensures q == (a as real / b as real).Floor
  {
    var q := if b > 0 then a / b else (-a) / (-b);
    FloorOfQuotient(a, b, q);
    q
  }

  /** Python's `a % b`: what is left after `a // b`; it takes the sign of the divisor. */
  function Mod(a: int, b: int): (m: int)
    requires b != 0
    ensures b > 0 ==> 0 <= m < b
    ensures b < 0 ==> b < m <= 0
    ensures a == b * FloorDiv(a, b) + m
  {
    var q := FloorDiv(a, b);
    FloorDivBounds(a, b);
    a - b * q
  }

  /** `a ** n` for a non-negative exponent. */
  function Pow(a: int, n: nat): int
  {
    if n == 0 then 1 else a * Pow(a, n - 1)
  }

  /** Powers of one base multiply by adding their exponents. */
  lemma {:induction false} PowAdd(a: int, m: nat, n: nat)
    ensures Pow(a, m + n) == Pow(a, m) * Pow(a, n)
  {
    if m > 0 {
      PowAdd(a, m - 1, n);
      assert Pow(a, m + n) == a * Pow(a, m - 1 + n);
    }
  }

  /** A non-zero base raised to any power is non-zero. */
  lemma {:induction false} PowNonZero(a: int, n: nat)
    requires a != 0
    ensures Pow(a, n) != 0
  {
    if n > 0 {
      PowNonZero(a, n - 1);
    }
  }

  /** The Euclidean quotient used by `FloorDiv` is the floor of the exact quotient. */
  lemma FloorOfQuotient(a: int, b: int, q: int)
    requires b != 0
    requires q == if b > 0 then a / b else (-a) / (-b)
    ensures q == (a as real / b as real).Floor
  {
    if b > 0 {
      FloorOfPositive(a, b);
    } else {
      FloorOfPositive(-a, -b);
      assert (-a) as real / (-b) as real == a as real / b as real;
    }
  }

  lemma FloorOfPositive(n: int, d: int)
    requires d > 0
    ensures n / d == (n as real / d as real).Floor
  {
    var q := n / d;
    var r := n % d;
    assert n == d * q + r && 0 <= r < d;
    var x := n as real / d as real;
    assert n as real == (d * q) as real + r as real;
    assert (d * q) as real == d as real * q as real;
    assert x == q as real + r as real / d as real;
    assert 0.0 <= r as real / d as real < 1.0;
  }

  lemma FloorDivBounds(a: int, b: int)
    requires b != 0
    ensures b > 0 ==> b * FloorDiv(a, b) <= a < b * FloorDiv(a, b) + b
    ensures b < 0 ==> b * FloorDiv(a, b) + b < a <= b * FloorDiv(a, b)
  {
    var q := FloorDiv(a, b);
    if b > 0 {
      assert q == a / b;
    } else {
      assert q == (-a) / (-b);
      assert (-b) * q <= -a < (-b) * q - b;
    }
  }
}
