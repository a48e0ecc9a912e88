/**
 * Fixed-width integer types, the 16-bit mask and the opaque floating-point
 * value used by the DDAS hit record.
 *
 * The widths are those of the setter parameters of DDASHit.cpp: `uint16_t`,
 * `uint32_t`, `uint64_t` and `int` (taken to be 32 bits wide). The mask
 * LOWER_16_BIT_MASK lives in a header that is not part of this model; it is
 * taken to be 0xFFFF, the 16 low bits set.
 */
module DDASTypes {

  newtype u16 = x: int | 0 <= x < 0x1_0000
  newtype u32 = x: int | 0 <= x < 0x1_0000_0000
  newtype u64 = x: int | 0 <= x < 0x1_0000_0000_0000_0000
  newtype i32 = x: int | -0x8000_0000 <= x < 0x8000_0000

  /**
   * A C++ `double`, kept only as its 64-bit pattern: the hit record stores
   * and copies it and never computes with it.
   */
  datatype Float64 = Float64(bits: u64)

  /** The `double` value 0.0 (every bit clear). */
  const PositiveZero: Float64 := Float64(0)

  function Pow2(k: nat): (p: nat)
    ensures p >= 1
  {
    if k == 0 then 1 else 2 * Pow2(k - 1)
  }

  lemma Pow2Sixteen()
    ensures Pow2(16) == 0x1_0000 && LowBits(16) == Lower16BitMask
  {
    assert Pow2(2) == 4;
    assert Pow2(4) == 16;
    assert Pow2(6) == 64;
    assert Pow2(8) == 256;
    assert Pow2(10) == 1024;
    assert Pow2(12) == 4096;
    assert Pow2(14) == 16384;
  }

  /** A mask of the k low bits: 2^k - 1. */
  function LowBits(k: nat): nat {
    Pow2(k) - 1
  }

  /** LOWER_16_BIT_MASK: the 16 low bits set. */
  const Lower16BitMask: nat := 0xFFFF

  /**
   * Bitwise AND of two unsigned numbers, one bit at a time from the least
   * significant end, as C++'s `&` computes it on unsigned operands.
   */
  function BitAnd(a: nat, b: nat): nat
    decreases a
  {
    if a == 0 || b == 0 then 0
    else 2 * BitAnd(a / 2, b / 2) + (if a % 2 == 1 && b % 2 == 1 then 1 else 0)
  }

  /** A positive multiple of a non-negative number is at least that number. */
  lemma {:induction false} MulAtLeast(m: int, x: int)
    requires m >= 0 && x >= 1
    ensures m * x >= m
  {
    if x > 1 {
      MulAtLeast(m, x - 1);
      assert m * x == m * (x - 1) + m;
    }
  }

  /** Quotient and remainder are the only pair that rebuilds the dividend. */
  lemma DivModUnique(a: int, m: int, t: int, r: int)
    requires m > 0 && a == m * t + r && 0 <= r < m
    ensures a % m == r
  {
    var q := a / m;
    assert a == m * q + a % m;
    if t > q {
      MulAtLeast(m, t - q);
    } else if t < q {
      MulAtLeast(m, q - t);
    }
  }

  /** Dividing by two and reducing commute with doubling the modulus. */
  lemma HalveModulo(a: nat, q: nat)
    requires q >= 1
    ensures a % (2 * q) == 2 * ((a / 2) % q) + a % 2
  {
    var t, r := (a / 2) / q, (a / 2) % q;
    assert a / 2 == q * t + r;
    assert a == (2 * q) * t + (2 * r + a % 2);
    DivModUnique(a, 2 * q, t, 2 * r + a % 2);
  }

  /** Masking with the k low bits is reduction modulo 2^k. */
  lemma {:induction false} MaskIsModulo(a: nat, k: nat)
    ensures BitAnd(a, LowBits(k)) == a % Pow2(k)
  {
    if k == 0 || a == 0 {
    } else {
      var p := Pow2(k - 1);
      LowBitsStep(k);
      BitAndOddStep(a, LowBits(k));
      MaskIsModulo(a / 2, k - 1);
      HalveModulo(a, p);
    }
  }

  /** The mask of k bits is odd, and halving it drops one bit. */
  lemma LowBitsStep(k: nat)
    requires k >= 1
    ensures LowBits(k) % 2 == 1 && LowBits(k) / 2 == LowBits(k - 1)
    ensures Pow2(k) == 2 * Pow2(k - 1)
  {
    var p := Pow2(k - 1);
    assert LowBits(k) == 2 * (p - 1) + 1;
  }

  /** AND with an odd number keeps the lowest bit of the other operand. */
  lemma BitAndOddStep(a: nat, b: nat)
    requires a > 0 && b % 2 == 1
    ensures BitAnd(a, b) == 2 * BitAnd(a / 2, b / 2) + a % 2
  {}

  lemma Mask16IsModulo(a: nat)
    ensures BitAnd(a, Lower16BitMask) == a % 0x1_0000
  {
    MaskIsModulo(a, 16);
    Pow2Sixteen();
  }

  /**
   * `d & LOWER_16_BIT_MASK`: the low 16 bits of a word. The result is the
   * word modulo 2^16, so it always fits in 16 bits, and a value that
   * already fits is left as it is.
   */
  function Lower16(d: u32): (r: u32)
    ensures r < 0x1_0000
    ensures r as int == d as int % 0x1_0000
    ensures d < 0x1_0000 ==> r == d
  {
    Mask16IsModulo(d as nat);
    BitAnd(d as nat, Lower16BitMask) as u32
  }
}
