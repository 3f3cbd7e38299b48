/** The C integer types the benchmark relies on: 32-bit `int`, 64-bit
    unsigned `size_t`, and the conversion of a `double` to `int`. */
module CTypes {

  const INT_MIN: int := -0x8000_0000
  const INT_MAX: int := 0x7fff_ffff

  /** `size_t` is 64 bits wide; unsigned arithmetic wraps modulo this. */
  const SIZE_MOD: int := 0x1_0000_0000_0000_0000

  predicate IsInt(x: int) {
    INT_MIN <= x <= INT_MAX
  }

  /** A `double` whose conversion to `int` is defined (C leaves the
      conversion undefined when the truncated value does not fit). */
  predicate FitsInt(x: real) {
    INT_MIN as real - 1.0 < x < INT_MAX as real + 1.0
  }

  function Min(a: int, b: int): (m: int)
    ensures m <= a && m <= b
    ensures m == a || m == b
  {
    if a < b then a else b
  }

  /** Conversion of a signed value to `size_t`: reduction modulo 2^64. */
  function ToSizeT(x: int): (r: nat)
    ensures r < SIZE_MOD
    ensures 0 <= x < SIZE_MOD ==> r == x
    ensures -SIZE_MOD <= x < 0 ==> r == x + SIZE_MOD
  {
    x % SIZE_MOD
  }

  /** Conversion of a `double` to `int`: the fractional part is dropped,
      rounding toward zero. */
  function TruncateToInt(x: real): (r: int)
    requires FitsInt(x)
    ensures IsInt(r)
    ensures 0.0 <= x ==> r as real <= x < r as real + 1.0
    ensures x < 0.0 ==> r as real - 1.0 < x <= r as real
  {
    if 0.0 <= x then x.Floor else -((-x).Floor)
  }

  lemma {:induction false} AddMod(a: int, b: int, m: int)
    requires 0 < m
    ensures (a % m + b) % m == (a + b) % m
  {
    var q := a / m;
    assert a == q * m + a % m;
    assert a + b == (a % m + b) + q * m;
    ShiftMod(a % m + b, q, m);
  }

  lemma {:induction false} ShiftMod(x: int, q: int, m: int)
    requires 0 < m
    ensures (x + q * m) % m == x % m
  {
    var p := x / m;
    assert x == p * m + x % m;
    assert x + q * m == (p + q) * m + x % m;
    ModUnique(x + q * m, p + q, x % m, m);
  }

  /** Euclidean division is determined by quotient and remainder. */
  lemma {:induction false} ModUnique(x: int, p: int, r: int, m: int)
    requires 0 < m && 0 <= r < m
    requires x == p * m + r
    ensures x / m == p && x % m == r
  {
    var p', r' := x / m, x % m;
    assert x == p' * m + r';
    assert (p - p') * m == r' - r;
    MulAwayFromZero(p - p', m);
  }

  lemma MulAwayFromZero(a: int, m: int)
    requires 0 < m
    ensures 1 <= a ==> m <= a * m
    ensures a <= -1 ==> a * m <= -m
  {
  }
}
