/** Java's 32-bit `int`: its range and its wrap-around addition and subtraction. */
module JavaInt {

  const MIN: int := -0x8000_0000
  const MAX: int := 0x7fff_ffff
  const MODULUS: int := 0x1_0000_0000

  type Int32 = x: int | MIN <= x <= MAX

  /** The two's-complement value of `x` truncated to 32 bits. */
  function Wrap(x: int): (r: Int32)
    ensures MIN <= x <= MAX ==> r == x
    ensures (x - r) % MODULUS == 0
  {
    (x - MIN) % MODULUS + MIN
  }

  /** Java's `a + b` on `int`. */
  function Add(a: Int32, b: Int32): (r: Int32)
    ensures MIN <= a + b <= MAX ==> r == a + b
    ensures (a + b - r) % MODULUS == 0
  {
    Wrap(a + b)
  }

  /** Java's `a - b` on `int`. */
  function Sub(a: Int32, b: Int32): (r: Int32)
    ensures MIN <= a - b <= MAX ==> r == a - b
    ensures (a - b - r) % MODULUS == 0
  {
    Wrap(a - b)
  }

  /** Java's `a + b` is the exact sum less some number of 2^32 carries. */
  lemma AddCarry(a: Int32, b: Int32) returns (c: int)
    ensures Add(a, b) == a + b - c * MODULUS
  {
    c := (a + b - Add(a, b)) / MODULUS;
  }

  /** Numbers that differ by a multiple of 2^32 wrap to the same `int`. */
  lemma WrapShift(x: int, k: int)
    ensures Wrap(x + k * MODULUS) == Wrap(x)
  {
    var n := x - MIN;
    assert (n + k * MODULUS) % MODULUS == n % MODULUS by {
      var q, r := n / MODULUS, n % MODULUS;
      assert n + k * MODULUS == (q + k) * MODULUS + r;
    }
  }

  /** An `int` that differs from `x` by whole carries of 2^32 is `Wrap(x)`. */
  lemma WrapCarries(x: int, r: Int32, carries: int)
    requires r == x + carries * MODULUS
    ensures r == Wrap(x)
  {
    WrapShift(x, carries);
  }

  /** Adding back what was subtracted gives the original `int` whatever wrapped in between. */
  lemma {:induction false} AddSubCancel(base: Int32, v: Int32)
    ensures Add(base, Sub(v, base)) == v
  {
    var d := Sub(v, base);
    var k := (v - base - d) / MODULUS;
    assert v - base - d == k * MODULUS;
    calc {
      Add(base, d);
      Wrap(base + d);
      Wrap(v + (-k) * MODULUS);
      { WrapShift(v, -k); }
      Wrap(v);
    }
  }
}
