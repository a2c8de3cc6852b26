/**
 * java.math.BigDecimal as the core uses it: a value is `unscaled * 10^-scale`; division to a
 * fixed scale and `setScale` round with RoundingMode.HALF_UP; multiplication is exact.
 */
module Decimals {

  datatype Decimal = Decimal(unscaled: int, scale: nat)

  /** BigDecimal.ZERO (scale 0). */
  const Zero: Decimal := Decimal(0, 0)

  function Pow10(n: nat): (r: int)
    ensures r >= 1
  {
    if n == 0 then 1 else 10 * Pow10(n - 1)
  }

  lemma {:induction false} Pow10Add(m: nat, n: nat)
    ensures Pow10(m + n) == Pow10(m) * Pow10(n)
  {
    if m > 0 {
      Pow10Add(m - 1, n);
    }
  }

  /** The number a decimal stands for. */
  ghost function Value(d: Decimal): real
  {
    d.unscaled as real / Pow10(d.scale) as real
  }

  /** BigDecimal.valueOf(long): the integer at scale 0. */
  function FromInt(n: int): (r: Decimal)
    ensures Value(r) == n as real
  {
    Decimal(n, 0)
  }

  /**
   * `a / b` rounded to an integer HALF_UP: to the nearest integer, and a tie to the one
   * farther from zero.
   */
  function DivHalfUp(a: int, b: int): (q: int)
    requires b > 0
    ensures a >= 0 ==> 2 * q * b <= 2 * a + b < 2 * q * b + 2 * b
    ensures a < 0 ==> 2 * (-q) * b <= 2 * (-a) + b < 2 * (-q) * b + 2 * b
    ensures a >= 0 ==> q >= 0
  {
    if a >= 0 then (2 * a + b) / (2 * b) else -((2 * -a + b) / (2 * b))
  }

  /** Cancelling a positive factor from both sides of a strict inequality. */
  lemma LessCancel(x: int, y: int, c: int)
    requires c > 0 && x * c < y * c
    ensures x < y
  {
    assert (y - x) * c > 0;
  }

  /** Rounding half up never goes down when the dividend grows. */
  lemma DivHalfUpMonotone(a: int, a': int, b: int)
    requires b > 0 && 0 <= a <= a'
    ensures DivHalfUp(a, b) <= DivHalfUp(a', b)
  {
    var q, q' := DivHalfUp(a, b), DivHalfUp(a', b);
    assert q * (2 * b) < (q' + 1) * (2 * b);
    LessCancel(q, q' + 1, 2 * b);
  }

  /** Rounding half up never goes up when the divisor grows. */
  lemma DivHalfUpAntitone(a: int, b: int, b': int)
    requires 0 <= a && 0 < b <= b'
    ensures DivHalfUp(a, b') <= DivHalfUp(a, b)
  {
    var q, q' := DivHalfUp(a, b), DivHalfUp(a, b');
    assert q >= 0;
    assert (2 * q + 1) * b <= (2 * q + 1) * b';
    assert (2 * q' - 1) * b' < (2 * q + 1) * b';
    LessCancel(2 * q' - 1, 2 * q + 1, b');
  }

  /**
   * `x.divide(BigDecimal.valueOf(divisor), scale, RoundingMode.HALF_UP)`: the quotient at the
   * given scale, within half a unit of that scale of the exact quotient.
   */
  function Divide(x: Decimal, divisor: int, scale: nat): (r: Decimal)
    requires divisor > 0
    ensures r.scale == scale
    ensures x.unscaled >= 0 ==> r.unscaled >= 0
    ensures x.unscaled >= 0 ==>
      var num, den := x.unscaled * Pow10(scale), divisor * Pow10(x.scale);
      2 * r.unscaled * den <= 2 * num + den < 2 * r.unscaled * den + 2 * den
    ensures x.unscaled < 0 ==>
      var num, den := x.unscaled * Pow10(scale), divisor * Pow10(x.scale);
      2 * (-r.unscaled) * den <= 2 * (-num) + den < 2 * (-r.unscaled) * den + 2 * den
  {
    Decimal(DivHalfUp(x.unscaled * Pow10(scale), divisor * Pow10(x.scale)), scale)
  }

  /** `a.multiply(b)`: exact, at the sum of the scales. */
  function Multiply(a: Decimal, b: Decimal): (r: Decimal)
    ensures r.scale == a.scale + b.scale
    ensures Value(r) == Value(a) * Value(b)
    ensures a.unscaled >= 0 && b.unscaled >= 0 ==> r.unscaled >= 0
  {
    MultiplyValue(a, b);
    Decimal(a.unscaled * b.unscaled, a.scale + b.scale)
  }

  /** The quotient of two products is the product of the quotients. */
  lemma QuotientProduct(x: real, y: real, p: real, q: real, n: real, d: real)
    requires p > 0.0 && q > 0.0 && n == x * y && d == p * q
    ensures n / d == (x / p) * (y / q)
  {
    var u, v := x / p, y / q;
    assert x == u * p && y == v * q;
    assert n == (u * v) * d;
  }

  lemma MultiplyValue(a: Decimal, b: Decimal)
    ensures Value(Decimal(a.unscaled * b.unscaled, a.scale + b.scale)) == Value(a) * Value(b)
  {
    var c := Decimal(a.unscaled * b.unscaled, a.scale + b.scale);
    var pa, pb, pc := Pow10(a.scale), Pow10(b.scale), Pow10(c.scale);
    Pow10Add(a.scale, b.scale);
    ProductToReal(a.unscaled, b.unscaled, c.unscaled);
    ProductToReal(pa, pb, pc);
    QuotientProduct(a.unscaled as real, b.unscaled as real, pa as real, pb as real,
                    c.unscaled as real, pc as real);
  }

  /** Converting a product of integers to a real. */
  lemma ProductToReal(x: int, y: int, z: int)
    requires z == x * y
    ensures z as real == x as real * y as real
  {
  }

  lemma RealCancel(a: real, p: real, q: real)
    requires p > 0.0 && q > 0.0
    ensures (a * p) / (p * q) == a / q
  {
    var y := a / q;
    assert y * q == a;
    assert a * p == y * (p * q);
  }

  lemma ScaledQuotient(u: int, p: int, q: int)
    requires p > 0 && q > 0
    ensures (u * p) as real / (p * q) as real == u as real / q as real
  {
    ProductToReal(u, p, u * p);
    ProductToReal(p, q, p * q);
    RealCancel(u as real, p as real, q as real);
  }

  /** Appending `k` zero digits and raising the scale by `k` keeps the value. */
  lemma ValueRescale(u: int, s: nat, k: nat)
    ensures Value(Decimal(u * Pow10(k), s + k)) == Value(Decimal(u, s))
  {
    Pow10Add(k, s);
    ScaledQuotient(u, Pow10(k), Pow10(s));
  }

  /** `x.setScale(scale, RoundingMode.HALF_UP)`: exact when the scale grows, rounded half up when it shrinks. */
  function SetScale(x: Decimal, scale: nat): (r: Decimal)
    ensures r.scale == scale
    ensures scale >= x.scale ==> Value(r) == Value(x)
    ensures x.unscaled >= 0 ==> r.unscaled >= 0
    ensures scale < x.scale && x.unscaled >= 0 ==>
      var den := Pow10(x.scale - scale);
      2 * r.unscaled * den <= 2 * x.unscaled + den < 2 * r.unscaled * den + 2 * den
    ensures scale < x.scale && x.unscaled < 0 ==>
      var den := Pow10(x.scale - scale);
      2 * (-r.unscaled) * den <= 2 * (-x.unscaled) + den < 2 * (-r.unscaled) * den + 2 * den
  {
    if scale >= x.scale then
      ValueRescale(x.unscaled, x.scale, scale - x.scale);
      Decimal(x.unscaled * Pow10(scale - x.scale), scale)
    else
      Decimal(DivHalfUp(x.unscaled, Pow10(x.scale - scale)), scale)
  }
}
