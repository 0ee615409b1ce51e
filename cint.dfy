/**
 * C integer helpers shared by the engine's modules: the MIN, MAX and CLAMP
 * macros of src/utils.h, `abs`, and C's `/`, which truncates toward zero
 * where Dafny's rounds toward minus infinity for a negative dividend.
 */
module CInt {
  function Min(a: int, b: int): (r: int)
    ensures r <= a && r <= b && (r == a || r == b)
  {
    if a < b then a else b
  }

  function Max(a: int, b: int): (r: int)
    ensures r >= a && r >= b && (r == a || r == b)
  {
    if a > b then a else b
  }

  /** CLAMP(x, lo, hi) = MAX(lo, MIN(x, hi)). */
  function Clamp(x: int, lo: int, hi: int): (r: int)
    requires lo <= hi
    ensures lo <= r <= hi
    ensures lo <= x <= hi ==> r == x
    ensures x < lo ==> r == lo
    ensures x > hi ==> r == hi
  {
    Max(lo, Min(x, hi))
  }

  function Abs(x: int): (r: int)
    ensures r >= 0 && (r == x || r == -x)
  {
    if x < 0 then -x else x
  }

  /** C's `a / d` for a positive divisor: the quotient truncated toward zero. */
  function CDiv(a: int, d: int): (q: int)
    requires d > 0
    ensures Abs(q) * d <= Abs(a) < (Abs(q) + 1) * d
    ensures a >= 0 ==> q >= 0
    ensures a <= 0 ==> q <= 0
  {
    if a >= 0 then a / d else -((-a) / d)
  }

  /** Truncation toward zero is symmetric: negating the dividend negates the quotient. */
  lemma CDivNeg(a: int, d: int)
    requires d > 0
    ensures CDiv(-a, d) == -CDiv(a, d)
  {
  }

  /**
   * Storing x into an int16_t: the value congruent to x modulo 2^16 in
   * [-32768, 32767], as the usual two's-complement conversion gives.
   */
  function Int16(x: int): (r: int)
    ensures -0x8000 <= r < 0x8000
    ensures -0x8000 <= x < 0x8000 ==> r == x
  {
    (x + 0x8000) % 0x1_0000 - 0x8000
  }

  /** The conversion changes a value by a multiple of 2^16. */
  lemma Int16Spec(x: int)
    ensures (x - Int16(x)) % 0x1_0000 == 0
  {
  }

  /** Wrapping after each addition ends where wrapping once at the end does. */
  lemma Int16Add(a: int, b: int)
    ensures Int16(Int16(a) + b) == Int16(a + b)
  {
    var k := (a + 0x8000) / 0x1_0000;
    assert Int16(a) == a - 0x1_0000 * k;
    ShiftMod(a + b + 0x8000, k);
  }

  lemma ShiftMod(x: int, k: int)
    ensures (x - 0x1_0000 * k) % 0x1_0000 == x % 0x1_0000
  {
  }
}
