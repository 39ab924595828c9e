// Integer helpers shared by the VP8 reconstruction kernels of LossyUtils.cs.
//
// C# `>>` on `int` is an arithmetic shift, that is floor division by a power of
// two. It is modelled by Shr, which ShrIsDiv shows equal to `x / 2^k` (Dafny's
// `/` on `int` floors for a positive divisor); the predictors, whose shifts are
// of small sums of samples, write that division directly.

module Arith {

  /** An unsigned 8-bit sample (C# `byte`). */
  type byte = x: int | 0 <= x < 256

  /** Row stride of the reconstruction work buffer (`WebPConstants.Bps`), 32 as libwebp's BPS. */
  const Bps: int := 32

  /** 2^n. */
  function Pow2(n: nat): (r: nat)
    ensures r >= 1
  {
    if n == 0 then 1 else 2 * Pow2(n - 1)
  }

  /** The powers of two the kernels shift by. */
  lemma Pow2Values()
    ensures Pow2(3) == 8 && Pow2(6) == 64 && Pow2(8) == 256 && Pow2(14) == 16384 && Pow2(16) == 65536
  {
    assert Pow2(3) == 8;
    assert Pow2(6) == 64;
    assert Pow2(8) == 256;
    assert Pow2(14) == 16384;
  }

  /** Arithmetic right shift `v >> n`: n halvings, each rounding toward minus infinity. */
  function Shr(v: int, n: nat): int {
    if n == 0 then v else Shr(v, n - 1) / 2
  }

  /** A positive multiple d*k, k >= 1, is at least d. */
  lemma {:induction false} MulAtLeast(d: int, k: int)
    requires d > 0 && k >= 1
    ensures d * k >= d
    decreases k
  {
    if k > 1 {
      MulAtLeast(d, k - 1);
      assert d * k == d * (k - 1) + d;
    }
  }

  /** The quotient of v by d > 0 is the q with d*q <= v < d*q + d. */
  lemma DivUnique(v: int, d: int, q: int)
    requires d > 0 && d * q <= v < d * q + d
    ensures v / d == q
  {
    var q0 := v / d;
    var w := v % d;
    assert v == d * q0 + w && 0 <= w < d;
    if q0 < q {
      assert d * q == d * q0 + d * (q - q0);
      MulAtLeast(d, q - q0);
    } else if q0 > q {
      assert d * q0 == d * q + d * (q0 - q);
      MulAtLeast(d, q0 - q);
    }
  }

  /** Halving after dividing by p is dividing by 2p. */
  lemma DivHalf(v: int, p: int)
    requires p >= 1
    ensures (v / p) / 2 == v / (2 * p)
  {
    var q := v / p;
    var h := q / 2;
    var e := q - 2 * h;
    var w := v - p * q;
    assert 0 <= e <= 1 && 0 <= w < p;
    assert p * q == (2 * p) * h + p * e;
    assert 0 <= p * e <= p;
    DivUnique(v, 2 * p, h);
  }

  /** `v >> n` is floor division by 2^n. */
  lemma {:induction false} ShrIsDiv(v: int, n: nat)
    ensures Shr(v, n) == v / Pow2(n)
  {
    if n > 0 {
      ShrIsDiv(v, n - 1);
      DivHalf(v, Pow2(n - 1));
    }
  }
  /** Shifting a non-negative value keeps it non-negative. */
  lemma {:induction false} ShrNonNegative(v: int, n: nat)
    requires 0 <= v
    ensures 0 <= Shr(v, n)
  {
    if n > 0 {
      ShrNonNegative(v, n - 1);
    }
  }

  /** The shifts of the loop filters: by 1, 3 and 7. */
  lemma ShrSmall(v: int)
    ensures Shr(v, 1) == v / 2 && Shr(v, 3) == v / 8 && Shr(v, 7) == v / 128
  {
    ShrIsDiv(v, 1);
    ShrIsDiv(v, 3);
    ShrIsDiv(v, 7);
    assert Pow2(3) == 8;
    assert Pow2(7) == 128;
  }

  /** Clip8B: saturates to [0, 255]. The source tests `(v & ~0xff) == 0`; in two's
      complement `v & ~0xff` is `(v >> 8) << 8`, which is zero exactly when `v >> 8` is. */
  function Clip8B(v: int): (r: byte)
    ensures 0 <= v <= 255 ==> r == v
    ensures v < 0 ==> r == 0
    ensures v > 255 ==> r == 255
  {
    ShrIsDiv(v, 8);
    if Shr(v, 8) == 0 then v else if v < 0 then 0 else 255
  }

  /** Clip8: takes a 14-bit fixed-point value to a sample, saturating; the mask
      `~((256 << 6) - 1)` is tested as `v >> 14 == 0`, as for Clip8B. */
  function Clip8(v: int): (r: byte)
    ensures 0 <= v < 16384 ==> r == v / 64
    ensures v < 0 ==> r == 0
    ensures v >= 16384 ==> r == 255
  {
    ShrIsDiv(v, 14);
    ShrIsDiv(v, 6);
    if Shr(v, 14) == 0 then Shr(v, 6) else if v < 0 then 0 else 255
  }

  /** Clamp255: the TrueMotion clamp. */
  function Clamp255(x: int): byte {
    if x < 0 then 0 else if x > 255 then 255 else x
  }

  function Min3(a: int, b: int, c: int): int {
    if a <= b && a <= c then a else if b <= c then b else c
  }

  function Max3(a: int, b: int, c: int): int {
    if a >= b && a >= c then a else if b >= c then b else c
  }

  /** Avg2: rounded mean of two samples, `(a + b + 1) >> 1`. */
  function Avg2(a: byte, b: byte): byte {
    (a + b + 1) / 2
  }

  /** Avg3: centre-weighted mean `(a + 2b + c + 2) >> 2`. */
  function Avg3(a: byte, b: byte, c: byte): byte {
    (a + 2 * b + c + 2) / 4
  }

  /** Both averages lie between their smallest and largest tap; Avg2 rounds
      half up and Avg3's two outer taps weigh the same. */
  lemma AvgBounds(a: byte, b: byte, c: byte)
    ensures Min3(a, b, b) <= Avg2(a, b) <= Max3(a, b, b)
    ensures 2 * Avg2(a, b) - 1 <= a + b <= 2 * Avg2(a, b)
    ensures Min3(a, b, c) <= Avg3(a, b, c) <= Max3(a, b, c)
    ensures Avg3(a, b, c) == Avg3(c, b, a)
  {
  }

  /** Mul1: `((a * 20091) >> 16) + a`, multiplication by sqrt(2)*cos(pi/8) in Q16. */
  function Mul1(a: int): int {
    Shr(a * 20091, 16) + a
  }

  /** Mul2: `(a * 35468) >> 16`, multiplication by sqrt(2)*sin(pi/8) in Q16. */
  function Mul2(a: int): int {
    Shr(a * 35468, 16)
  }

  /** Mul1 scales by 1 + 20091/65536 and Mul2 by 35468/65536, each rounded down:
      both keep the sign of a, vanish at 0, and Mul1 stays within a third above a. */
  lemma MulRange(a: int)
    ensures a == 0 ==> Mul1(a) == 0 && Mul2(a) == 0
    ensures 65536 * (Mul1(a) - a) <= a * 20091 < 65536 * (Mul1(a) - a) + 65536
    ensures 65536 * Mul2(a) <= a * 35468 < 65536 * Mul2(a) + 65536
    ensures a >= 0 ==> a <= Mul1(a) <= a + a / 3 && 0 <= Mul2(a) <= a
    ensures a < 0 ==> a + a / 3 - 1 <= Mul1(a) <= a && a <= Mul2(a) < 0
  {
    ShrIsDiv(a * 20091, 16);
    ShrIsDiv(a * 35468, 16);
    Pow2Values();
  }

  /** MultHi: `(v * coeff) >> 8`, an 8-bit fixed-point product. */
  function MultHi(v: int, coeff: int): (r: int)
    requires coeff >= 0
    ensures 256 * r <= v * coeff < 256 * r + 256
  {
    ShrIsDiv(v * coeff, 8);
    Shr(v * coeff, 8)
  }

  // The lookup tables of Vp8LookupTables are not part of this model; each is
  // taken with the meaning libwebp gives it.

  /** Abs0: absolute value. */
  function Abs0(x: int): (r: int)
    ensures r >= 0 && (r == x || r == -x)
  {
    if x < 0 then -x else x
  }

  /** Clip1: clamp to [0, 255] (libwebp's abs0/clip1 tables). */
  function Clip1(x: int): byte {
    if x < 0 then 0 else if x > 255 then 255 else x
  }

  /** The three saturations to a sample agree: the mask test of Clip8B, the
      comparisons of Clamp255 and the lookup of Clip1. */
  lemma SaturationsAgree(x: int)
    ensures Clamp255(x) == Clip8B(x) && Clip1(x) == Clip8B(x)
    ensures 0 <= x <= 255 <==> Clip8B(x) == x
  {
  }

  /** Sclip1: clamp to [-128, 127]. */
  function Sclip1(x: int): (r: int)
    ensures -128 <= r <= 127
    ensures -128 <= x <= 127 ==> r == x
    ensures x < -128 ==> r == -128
    ensures x > 127 ==> r == 127
  {
    if x < -128 then -128 else if x > 127 then 127 else x
  }

  /** Sclip2: clamp to [-16, 15]. */
  function Sclip2(x: int): (r: int)
    ensures -16 <= r <= 15
    ensures -16 <= x <= 15 ==> r == x
    ensures x < -16 ==> r == -16
    ensures x > 15 ==> r == 15
  {
    if x < -16 then -16 else if x > 15 then 15 else x
  }
}
