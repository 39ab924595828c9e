// The YUV -> BGR conversion of LossyUtils.cs (YuvToR/G/B, YuvToBgr), the
// packing of a u, v pair into one word (LoadUv) and the fill of a word
// buffer (Memset over uint). The conversion is ITU-R BT.601 on the
// limited range, in fixed point: MultHi scales by a 14-bit coefficient and
// drops 8 bits, Clip8 drops the last 6 and saturates.

module Yuv {
  import opened Arith

  /** An unsigned 32-bit word (C# `uint`). */
  type uint32 = x: int | 0 <= x < 0x1_0000_0000

  /** YuvToR: `Clip8(MultHi(y, 19077) + MultHi(v, 26149) - 14234)`. */
  function YuvToR(y: int, v: int): (r: byte) {
    Clip8(MultHi(y, 19077) + MultHi(v, 26149) - 14234)
  }

  /** YuvToG: `Clip8(MultHi(y, 19077) - MultHi(u, 6419) - MultHi(v, 13320) + 8708)`. */
  function YuvToG(y: int, u: int, v: int): (r: byte) {
    Clip8(MultHi(y, 19077) - MultHi(u, 6419) - MultHi(v, 13320) + 8708)
  }

  /** YuvToB: `Clip8(MultHi(y, 19077) + MultHi(u, 33050) - 17685)`. */
  function YuvToB(y: int, u: int): (r: byte) {
    Clip8(MultHi(y, 19077) + MultHi(u, 33050) - 17685)
  }

  // The BT.601 limited-range conversion, in thousandths of a level:
  //   R = 1.164 (Y - 16) + 1.596 (V - 128)
  //   G = 1.164 (Y - 16) - 0.391 (U - 128) - 0.813 (V - 128)
  //   B = 1.164 (Y - 16) + 2.018 (U - 128)

  function ExactR(y: int, v: int): int {
    1164 * (y - 16) + 1596 * (v - 128)
  }

  function ExactG(y: int, u: int, v: int): int {
    1164 * (y - 16) - 391 * (u - 128) - 813 * (v - 128)
  }

  function ExactB(y: int, u: int): int {
    1164 * (y - 16) + 2018 * (u - 128)
  }

  /** Where BT.601 gives a red level in [0, 255], YuvToR is within 0.75 of it. */
  lemma RedAccuracy(y: byte, v: byte)
    requires 0 <= ExactR(y, v) <= 255000
    ensures -750 < 1000 * YuvToR(y, v) - ExactR(y, v) < 750
  {
    var x := MultHi(y, 19077) + MultHi(v, 26149) - 14234;
    assert 0 <= x < 16384;
    assert YuvToR(y, v) == x / 64;
  }

  /** Where BT.601 gives a green level in [0, 255], YuvToG is within 0.75 of it. */
  lemma GreenAccuracy(y: byte, u: byte, v: byte)
    requires 0 <= ExactG(y, u, v) <= 255000
    ensures -750 < 1000 * YuvToG(y, u, v) - ExactG(y, u, v) < 750
  {
    var my, mu, mv := MultHi(y, 19077), MultHi(u, 6419), MultHi(v, 13320);
    assert 256 * my <= y * 19077 < 256 * my + 256;
    assert 256 * mu <= u * 6419 < 256 * mu + 256;
    assert 256 * mv <= v * 13320 < 256 * mv + 256;
    var x := my - mu - mv + 8708;
    assert 0 <= x < 16384;
    assert YuvToG(y, u, v) == x / 64;
  }

  /** Where BT.601 gives a blue level in [0, 255], YuvToB is within 0.75 of it. */
  lemma BlueAccuracy(y: byte, u: byte)
    requires 0 <= ExactB(y, u) <= 255000
    ensures -750 < 1000 * YuvToB(y, u) - ExactB(y, u) < 750
  {
    var x := MultHi(y, 19077) + MultHi(u, 33050) - 17685;
    assert 0 <= x < 16384;
    assert YuvToB(y, u) == x / 64;
  }

  /** MultHi with a non-negative coefficient does not decrease with v. */
  lemma MultHiMonotone(a: int, b: int, c: int)
    requires a <= b && 0 <= c
    ensures MultHi(a, c) <= MultHi(b, c)
  {
    assert a * c <= b * c by {
      assert b * c - a * c == (b - a) * c;
    }
  }

  /** Clip8 does not decrease with its argument. */
  lemma Clip8Monotone(a: int, b: int)
    requires a <= b
    ensures Clip8(a) <= Clip8(b)
  {
  }

  /** A brighter luma gives no darker red, green or blue. */
  lemma LumaMonotone(y1: int, y2: int, u: int, v: int)
    requires y1 <= y2
    ensures YuvToR(y1, v) <= YuvToR(y2, v)
    ensures YuvToG(y1, u, v) <= YuvToG(y2, u, v)
    ensures YuvToB(y1, u) <= YuvToB(y2, u)
  {
    MultHiMonotone(y1, y2, 19077);
    var m1, m2 := MultHi(y1, 19077), MultHi(y2, 19077);
    Clip8Monotone(m1 + MultHi(v, 26149) - 14234, m2 + MultHi(v, 26149) - 14234);
    Clip8Monotone(m1 - MultHi(u, 6419) - MultHi(v, 13320) + 8708, m2 - MultHi(u, 6419) - MultHi(v, 13320) + 8708);
    Clip8Monotone(m1 + MultHi(u, 33050) - 17685, m2 + MultHi(u, 33050) - 17685);
  }

  /** More red chroma (v) raises red and lowers green; more blue chroma (u)
      raises blue and lowers green. */
  lemma ChromaMonotone(y: int, u1: int, u2: int, v1: int, v2: int)
    requires u1 <= u2 && v1 <= v2
    ensures YuvToR(y, v1) <= YuvToR(y, v2)
    ensures YuvToG(y, u2, v2) <= YuvToG(y, u1, v1)
    ensures YuvToB(y, u1) <= YuvToB(y, u2)
  {
    var my := MultHi(y, 19077);
    MultHiMonotone(v1, v2, 26149);
    MultHiMonotone(u1, u2, 6419);
    MultHiMonotone(v1, v2, 13320);
    MultHiMonotone(u1, u2, 33050);
    Clip8Monotone(my + MultHi(v1, 26149) - 14234, my + MultHi(v2, 26149) - 14234);
    Clip8Monotone(my - MultHi(u2, 6419) - MultHi(v2, 13320) + 8708, my - MultHi(u1, 6419) - MultHi(v1, 13320) + 8708);
    Clip8Monotone(my + MultHi(u1, 33050) - 17685, my + MultHi(u2, 33050) - 17685);
  }

  /** Neutral chroma (u = v = 128) gives a grey: red and blue agree and green
      is at most one level below them. */
  lemma NeutralIsGrey(y: int)
    ensures YuvToR(y, 128) == YuvToB(y, 128)
    ensures YuvToR(y, 128) - 1 <= YuvToG(y, 128, 128) <= YuvToR(y, 128)
  {
    assert MultHi(128, 26149) == 13074 && MultHi(128, 33050) == 16525;
    assert MultHi(128, 6419) == 3209 && MultHi(128, 13320) == 6660;
    var x := MultHi(y, 19077) - 1160;
    Clip8Monotone(x - 1, x);
    if 0 < x < 16384 {
      assert (x - 1) / 64 >= x / 64 - 1;
    }
  }

  /** The limited range maps onto the full range: Y = 16 is black, Y = 235
      white, and mid grey Y = 128 becomes 130. */
  lemma RangeEnds()
    ensures YuvToR(16, 128) == 0 && YuvToG(16, 128, 128) == 0 && YuvToB(16, 128) == 0
    ensures YuvToR(235, 128) == 255 && YuvToG(235, 128, 128) == 255 && YuvToB(235, 128) == 255
    ensures YuvToR(128, 128) == 130 && YuvToG(128, 128, 128) == 130 && YuvToB(128, 128) == 130
  {
    assert MultHi(128, 26149) == 13074 && MultHi(128, 33050) == 16525;
    assert MultHi(128, 6419) == 3209 && MultHi(128, 13320) == 6660;
    assert MultHi(16, 19077) == 1192 && MultHi(235, 19077) == 17512 && MultHi(128, 19077) == 9538;
  }

  /** YuvToBgr: one pixel, blue first. */
  method YuvToBgr(y: int, u: int, v: int, bgr: array<byte>)
    requires 3 <= bgr.Length
    modifies bgr
    ensures bgr[..] == old(bgr[..])[0 := YuvToB(y, u)][1 := YuvToG(y, u, v)][2 := YuvToR(y, v)]
  {
    bgr[0] := YuvToB(y, u);
    bgr[1] := YuvToG(y, u, v);
    bgr[2] := YuvToR(y, v);
  }

  /** LoadUv: `u | (v << 16)`, u in the low half-word and v in the high one. */
  function LoadUv(u: byte, v: byte): (r: bv32)
    ensures r & 0xFFFF == u as bv32 && r >> 16 == v as bv32
  {
    (u as bv32) | ((v as bv32) << 16)
  }

  /** Memset over words: `count` copies of `value` from `startIdx` on. */
  method Memset(dst: array<uint32>, value: uint32, startIdx: int, count: int)
    requires count <= 0 || (0 <= startIdx && startIdx + count <= dst.Length)
    modifies dst
    ensures forall i | 0 <= i < dst.Length :: dst[i] == if startIdx <= i < startIdx + count then value else old(dst[i])
  {
    var i := 0;
    while i < count
      invariant 0 <= i <= if count < 0 then 0 else count
      invariant forall k | 0 <= k < dst.Length :: dst[k] == if startIdx <= k < startIdx + i then value else old(dst[k])
    {
      dst[startIdx + i] := value;
      i := i + 1;
    }
  }
}
