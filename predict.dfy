// Intra prediction (RFC 6386 section 12): the 16x16 luma and 8x8 chroma modes
// (section 12.2) and the ten 4x4 sub-block modes (section 12.3) of
// LossyUtils.cs. Every predictor works on the reconstruction buffer with row
// stride Bps; `off` is the index of the block's top-left sample, the row above
// starts at off - Bps and the column to the left at off - 1. The destination
// span of the source is the same buffer from `off` on, as in libwebp, and every
// kernel reads its neighbours before, or outside of, what it writes.

module Predict {
  import opened Arith
  import opened Block
  import opened Modes4

  /** The neighbours a DC predictor of an n x n block reads are in the buffer. */
  predicate Neighbours(len: int, off: int, n: int, top: bool, left: bool) {
    && (n == 4 || n == 8 || n == 16)
    && 0 <= off && off + (n - 1) * Bps + n <= len
    && (top ==> Bps <= off)
    && (left ==> 1 <= off)
  }

  /** Sum of the n samples of the row above the block. */
  function SumTop(s: seq<byte>, off: int, n: nat): (r: int)
    requires Bps <= off && off - Bps + n <= |s|
    ensures 0 <= r <= 255 * n
  {
    if n == 0 then 0 else SumTop(s, off, n - 1) + s[off - Bps + n - 1]
  }

  /** Sum of the n samples of the column left of the block. */
  function SumLeft(s: seq<byte>, off: int, n: nat): (r: int)
    requires 1 <= off && off - 1 + (n - 1) * Bps < |s|
    ensures 0 <= r <= 255 * n
  {
    if n == 0 then 0 else SumLeft(s, off, n - 1) + s[off - 1 + (n - 1) * Bps]
  }

  /** The DC prediction: the rounded mean of the neighbours that are available,
      128 when none is. Every DC kernel of the source is an instance of it. */
  function DcMean(s: seq<byte>, off: int, n: int, top: bool, left: bool): (r: byte)
    requires Neighbours(|s|, off, n, top, left)
  {
    if !top && !left then 128
    else
      var count := if top && left then 2 * n else n;
      var sum := (if top then SumTop(s, off, n) else 0) + (if left then SumLeft(s, off, n) else 0);
      assert sum <= 255 * count;
      assert count == 4 || count == 8 || count == 16 || count == 32;
      (count / 2 + sum) / count
  }

  /** Put16: fills the 16x16 block with `v`. */
  method Put16(v: byte, buf: array<byte>, off: int)
    requires Fits(buf.Length, off, 16, 16, Flat(v))
    modifies buf
    ensures buf[..] == Painted(old(buf[..]), off, 16, 16, Flat(v))
  {
    ghost var s := buf[..];
    PaintedNone(s, off, 16, Flat(v));
    for j := 0 to 16
      invariant buf[..] == Painted(s, off, 16, j, Flat(v))
    {
      Memset(buf, v, off + j * Bps, 16);
      NextRow(s, off, 16, j, Flat(v), buf[..]);
    }
  }

  /** Put8x8uv: fills the 8x8 block with `v`. */
  method Put8x8uv(v: byte, buf: array<byte>, off: int)
    requires Fits(buf.Length, off, 8, 8, Flat(v))
    modifies buf
    ensures buf[..] == Painted(old(buf[..]), off, 8, 8, Flat(v))
  {
    ghost var s := buf[..];
    PaintedNone(s, off, 8, Flat(v));
    for j := 0 to 8
      invariant buf[..] == Painted(s, off, 8, j, Flat(v))
    {
      Memset(buf, v, off + j * Bps, 8);
      NextRow(s, off, 8, j, Flat(v), buf[..]);
    }
  }

  /** DC16_C: the 16x16 block becomes (16 + sum of 16 above + sum of 16 left) >> 5. */
  method DC16(buf: array<byte>, off: int)
    requires Neighbours(buf.Length, off, 16, true, true)
    modifies buf
    ensures buf[..] == Painted(old(buf[..]), off, 16, 16, Flat(DcMean(old(buf[..]), off, 16, true, true)))
  {
    var dc: int := 16;
    for j := 0 to 16
      invariant dc == 16 + SumLeft(buf[..], off, j) + SumTop(buf[..], off, j)
    {
      dc := dc + buf[off - 1 + j * Bps] + buf[off + j - Bps];
    }
    Put16(dc / 32, buf, off);
  }

  /** DC16NoTop_C: only the left column is available; (8 + its sum) >> 4. */
  method DC16NoTop(buf: array<byte>, off: int)
    requires Neighbours(buf.Length, off, 16, false, true)
    modifies buf
    ensures buf[..] == Painted(old(buf[..]), off, 16, 16, Flat(DcMean(old(buf[..]), off, 16, false, true)))
  {
    var dc: int := 8;
    for j := 0 to 16
      invariant dc == 8 + SumLeft(buf[..], off, j)
    {
      dc := dc + buf[-1 + j * Bps + off];
    }
    Put16(dc / 16, buf, off);
  }

  /** DC16NoLeft_C: only the row above is available; (8 + its sum) >> 4. */
  method DC16NoLeft(buf: array<byte>, off: int)
    requires Neighbours(buf.Length, off, 16, true, false)
    modifies buf
    ensures buf[..] == Painted(old(buf[..]), off, 16, 16, Flat(DcMean(old(buf[..]), off, 16, true, false)))
  {
    var dc: int := 8;
    for i := 0 to 16
      invariant dc == 8 + SumTop(buf[..], off, i)
    {
      dc := dc + buf[i - Bps + off];
    }
    Put16(dc / 16, buf, off);
  }

  /** DC16NoTopLeft_C: no neighbour; the block becomes 0x80. */
  method DC16NoTopLeft(buf: array<byte>, off: int)
    requires Neighbours(buf.Length, off, 16, false, false)
    modifies buf
    ensures buf[..] == Painted(old(buf[..]), off, 16, 16, Flat(DcMean(old(buf[..]), off, 16, false, false)))
  {
    Put16(0x80, buf, off);
  }

  /** DC8uv_C: (8 + sum of 8 above + sum of 8 left) >> 4. */
  method DC8uv(buf: array<byte>, off: int)
    requires Neighbours(buf.Length, off, 8, true, true)
    modifies buf
    ensures buf[..] == Painted(old(buf[..]), off, 8, 8, Flat(DcMean(old(buf[..]), off, 8, true, true)))
  {
    var dc0: int := 8;
    for i := 0 to 8
      invariant dc0 == 8 + SumTop(buf[..], off, i) + SumLeft(buf[..], off, i)
    {
      dc0 := dc0 + buf[off + i - Bps] + buf[off - 1 + i * Bps];
    }
    Put8x8uv(dc0 / 16, buf, off);
  }

  /** DC8uvNoTop_C: (4 + sum of 8 left) >> 3. */
  method DC8uvNoTop(buf: array<byte>, off: int)
    requires Neighbours(buf.Length, off, 8, false, true)
    modifies buf
    ensures buf[..] == Painted(old(buf[..]), off, 8, 8, Flat(DcMean(old(buf[..]), off, 8, false, true)))
  {
    var dc0: int := 4;
    for i := 0 to 8
      invariant dc0 == 4 + SumLeft(buf[..], off, i)
    {
      dc0 := dc0 + buf[off - 1 + i * Bps];
    }
    Put8x8uv(dc0 / 8, buf, off);
  }

  /** DC8uvNoLeft_C: (4 + sum of 8 above) >> 3. */
  method DC8uvNoLeft(buf: array<byte>, off: int)
    requires Neighbours(buf.Length, off, 8, true, false)
    modifies buf
    ensures buf[..] == Painted(old(buf[..]), off, 8, 8, Flat(DcMean(old(buf[..]), off, 8, true, false)))
  {
    var dc0: int := 4;
    for i := 0 to 8
      invariant dc0 == 4 + SumTop(buf[..], off, i)
    {
      dc0 := dc0 + buf[off + i - Bps];
    }
    Put8x8uv(dc0 / 8, buf, off);
  }

  /** DC8uvNoTopLeft_C: the block becomes 0x80. */
  method DC8uvNoTopLeft(buf: array<byte>, off: int)
    requires Neighbours(buf.Length, off, 8, false, false)
    modifies buf
    ensures buf[..] == Painted(old(buf[..]), off, 8, 8, Flat(DcMean(old(buf[..]), off, 8, false, false)))
  {
    Put8x8uv(0x80, buf, off);
  }

  /** VE16_C: every row of the 16x16 block becomes a copy of the row above it. */
  method VE16(buf: array<byte>, off: int)
    requires Neighbours(buf.Length, off, 16, true, false)
    modifies buf
    ensures buf[..] == Painted(old(buf[..]), off, 16, 16, Above)
  {
    ghost var s := buf[..];
    PaintedNone(s, off, 16, Above);
    for j := 0 to 16
      invariant buf[..] == Painted(s, off, 16, j, Above)
    {
      CopyRun(buf, off - Bps, off + j * Bps, 16);
      NextRow(s, off, 16, j, Above, buf[..]);
    }
  }

  /** VE8uv_C: every row of the 8x8 block becomes a copy of the row above it. */
  method VE8uv(buf: array<byte>, off: int)
    requires Neighbours(buf.Length, off, 8, true, false)
    modifies buf
    ensures buf[..] == Painted(old(buf[..]), off, 8, 8, Above)
  {
    ghost var s := buf[..];
    PaintedNone(s, off, 8, Above);
    for j := 0 to 8
      invariant buf[..] == Painted(s, off, 8, j, Above)
    {
      CopyRun(buf, off - Bps, off + j * Bps, 8);
      NextRow(s, off, 8, j, Above, buf[..]);
    }
  }

  /** HE16_C: row y of the 16x16 block is filled with the sample left of it. */
  method HE16(buf: array<byte>, off: int)
    requires Neighbours(buf.Length, off, 16, false, true)
    requires off + 16 * Bps <= buf.Length
    modifies buf
    ensures buf[..] == Painted(old(buf[..]), off, 16, 16, Beside)
  {
    ghost var s := buf[..];
    PaintedNone(s, off, 16, Beside);
    var offset, j := off, 16;
    while j > 0
      invariant 0 <= j <= 16 && offset == off + (16 - j) * Bps
      invariant buf[..] == Painted(s, off, 16, 16 - j, Beside)
    {
      LeftOutside(off, 16, 16 - j, 16 - j);
      var v := buf[offset - 1];
      Memset(buf, v, offset, 16);
      NextRow(s, off, 16, 16 - j, Beside, buf[..]);
      offset := offset + Bps;
      j := j - 1;
    }
  }

  /** HE8uv_C: row y of the 8x8 block is filled with the sample left of it. */
  method HE8uv(buf: array<byte>, off: int)
    requires Neighbours(buf.Length, off, 8, false, true)
    requires off + 8 * Bps <= buf.Length
    modifies buf
    ensures buf[..] == Painted(old(buf[..]), off, 8, 8, Beside)
  {
    ghost var s := buf[..];
    PaintedNone(s, off, 8, Beside);
    var offset := off;
    for j := 0 to 8
      invariant offset == off + j * Bps
      invariant buf[..] == Painted(s, off, 8, j, Beside)
    {
      LeftOutside(off, 8, j, j);
      var v := buf[offset - 1];
      Memset(buf, v, offset, 8);
      NextRow(s, off, 8, j, Beside, buf[..]);
      offset := offset + Bps;
    }
  }

  /** The inner loop of TrueMotion: one row of `size` samples at `dst`, sample x
      becoming Clamp255(left + top[x] - p) for the row `top` that starts at `topOffset`. */
  method TrueMotionRow(buf: array<byte>, dst: int, topOffset: int, left: int, p: int, size: int)
    requires 0 <= topOffset && 0 <= size && topOffset + size <= dst && dst + size <= buf.Length
    modifies buf
    ensures forall i | 0 <= i < buf.Length ::
      buf[i] == if dst <= i < dst + size then Clamp255(left + old(buf[topOffset + i - dst]) - p) else old(buf[i])
  {
    for x := 0 to size
      invariant forall i | 0 <= i < buf.Length ::
        buf[i] == if dst <= i < dst + x then Clamp255(left + old(buf[topOffset + i - dst]) - p) else old(buf[i])
    {
      buf[dst + x] := Clamp255(left + buf[topOffset + x] - p);
    }
  }

  /** One pass of TrueMotion's inner loop, reading the row above from the
      partly written buffer `u`, adds row y of the Gradient block. */
  lemma GradientRow(s: seq<byte>, u: seq<byte>, t: seq<byte>, off: int, size: int, y: int,
                    dst: int, topOffset: int, left: int, p: int)
    requires Neighbours(|s|, off, size, true, true) && Bps + 1 <= off && 0 <= y < size
    requires u == Painted(s, off, size, y, Gradient) && |t| == |s|
    requires dst == off + y * Bps && topOffset == off - Bps
    requires left == s[off - 1 + y * Bps] && p == s[off - Bps - 1]
    requires forall i {:trigger t[i]} | 0 <= i < |s| ::
               t[i] == if dst <= i < dst + size then Clamp255(left + u[topOffset + i - dst] - p) else u[i]
    ensures t == Painted(s, off, size, y + 1, Gradient)
  {
    forall i | 0 <= i < |s|
      ensures t[i] == if off + y * Bps <= i < off + y * Bps + size then At(Gradient, s, off, i - off - y * Bps, y) else u[i]
    {
      if off + y * Bps <= i < off + y * Bps + size {
        var x := i - off - y * Bps;
        assert topOffset + i - dst == off - Bps + x;
        assert u[off - Bps + x] == s[off - Bps + x];
      }
    }
    NextRow(s, off, size, y, Gradient, t);
  }

  /** TrueMotion: sample (x, y) becomes Clamp255(left[y] + top[x] - corner). After
      the last row the source reads the left neighbour one row further down, so
      that sample must exist too. */
  method TrueMotion(buf: array<byte>, off: int, size: int)
    requires Neighbours(buf.Length, off, size, true, true) && Bps + 1 <= off
    requires off + size * Bps <= buf.Length
    modifies buf
    ensures buf[..] == Painted(old(buf[..]), off, size, size, Gradient)
  {
    ghost var s := buf[..];
    PaintedNone(s, off, size, Gradient);
    var topOffset := off - Bps;
    var p: int := buf[topOffset - 1];
    var leftOffset := off - 1;
    var left: int := buf[leftOffset];
    var dst := off;
    for y := 0 to size
      invariant leftOffset == off - 1 + y * Bps && dst == off + y * Bps
      invariant left == s[leftOffset] && p == s[off - Bps - 1]
      invariant buf[..] == Painted(s, off, size, y, Gradient)
    {
      ghost var u := buf[..];
      TrueMotionRow(buf, dst, topOffset, left, p, size);
      GradientRow(s, u, buf[..], off, size, y, dst, topOffset, left, p);
      leftOffset := leftOffset + Bps;
      LeftOutside(off, size, y + 1, y + 1);
      left := buf[leftOffset];
      dst := dst + Bps;
    }
  }

  /** TM16_C. */
  method TM16(buf: array<byte>, off: int)
    requires Neighbours(buf.Length, off, 16, true, true) && Bps + 1 <= off
    requires off + 16 * Bps <= buf.Length
    modifies buf
    ensures buf[..] == Painted(old(buf[..]), off, 16, 16, Gradient)
  {
    TrueMotion(buf, off, 16);
  }

  /** TM8uv_C. */
  method TM8uv(buf: array<byte>, off: int)
    requires Neighbours(buf.Length, off, 8, true, true) && Bps + 1 <= off
    requires off + 8 * Bps <= buf.Length
    modifies buf
    ensures buf[..] == Painted(old(buf[..]), off, 8, 8, Gradient)
  {
    TrueMotion(buf, off, 8);
  }

  /** TM4_C. */
  method TM4(buf: array<byte>, off: int)
    requires Neighbours(buf.Length, off, 4, true, true) && Bps + 1 <= off
    requires off + 4 * Bps <= buf.Length
    modifies buf
    ensures buf[..] == Painted(old(buf[..]), off, 4, 4, Gradient)
  {
    TrueMotion(buf, off, 4);
  }

  /** DC4_C: (4 + sum of 4 above + sum of 4 left) >> 3 over the 4x4 block. */
  method DC4(buf: array<byte>, off: int)
    requires Neighbours(buf.Length, off, 4, true, true)
    modifies buf
    ensures buf[..] == Painted(old(buf[..]), off, 4, 4, Flat(DcMean(old(buf[..]), off, 4, true, true)))
  {
    var dc: int := 4;
    for i := 0 to 4
      invariant dc == 4 + SumTop(buf[..], off, i) + SumLeft(buf[..], off, i)
    {
      dc := dc + buf[off + i - Bps] + buf[off - 1 + i * Bps];
    }
    dc := dc / 8;
    ghost var s := buf[..];
    PaintedNone(s, off, 4, Flat(dc));
    for i := 0 to 4
      invariant buf[..] == Painted(s, off, 4, i, Flat(dc))
    {
      Memset(buf, dc, off + i * Bps, 4);
      NextRow(s, off, 4, i, Flat(dc), buf[..]);
    }
  }

  /** Every neighbour an n x n predictor reads is k: the n samples above, the
      n to the left and the corner. */
  predicate FlatNeighbourhood(s: seq<byte>, off: int, n: int, k: int)
    requires Neighbours(|s|, off, n, true, true) && Bps + 1 <= off
  {
    && s[off - Bps - 1] == k
    && (forall x | 0 <= x < n :: Top(s, off, x) == k)
    && (forall y | 0 <= y < n :: Left(s, off, y) == k)
  }

  /** n samples above the block, all k, sum to n * k. */
  lemma {:induction false} SumTopFlat(s: seq<byte>, off: int, n: nat, k: int)
    requires Bps <= off && off - Bps + n <= |s|
    requires forall x | 0 <= x < n :: Top(s, off, x) == k
    ensures SumTop(s, off, n) == n * k
    decreases n
  {
    if n > 0 {
      SumTopFlat(s, off, n - 1, k);
      assert Top(s, off, n - 1) == k;
    }
  }

  /** n samples left of the block, all k, sum to n * k. */
  lemma {:induction false} SumLeftFlat(s: seq<byte>, off: int, n: nat, k: int)
    requires 1 <= off && off - 1 + (n - 1) * Bps < |s|
    requires forall y | 0 <= y < n :: Left(s, off, y) == k
    ensures SumLeft(s, off, n) == n * k
    decreases n
  {
    if n > 0 {
      SumLeftFlat(s, off, n - 1, k);
      assert Left(s, off, n - 1) == k;
    }
  }

  /** Over a flat neighbourhood every DC variant that has a neighbour predicts k. */
  lemma DcFlat(s: seq<byte>, off: int, n: int, k: byte)
    requires Neighbours(|s|, off, n, true, true) && Bps + 1 <= off && FlatNeighbourhood(s, off, n, k)
    ensures DcMean(s, off, n, true, true) == k
    ensures DcMean(s, off, n, true, false) == k
    ensures DcMean(s, off, n, false, true) == k
  {
    SumTopFlat(s, off, n, k);
    SumLeftFlat(s, off, n, k);
    DivUnique(n / 2 + n * k, n, k);
    DivUnique(n + 2 * n * k, 2 * n, k);
  }

  /** Two rules that define the same value k at every sample of the block paint
      the same buffer. */
  lemma SameBlock(s: seq<byte>, off: int, n: int, rule: Rule, k: byte)
    requires Fits(|s|, off, n, n, rule) && Fits(|s|, off, n, n, Flat(k)) && n <= Bps
    requires forall x, y | 0 <= x < n && 0 <= y < n :: At(rule, s, off, x, y) == k
    ensures Painted(s, off, n, n, rule) == Painted(s, off, n, n, Flat(k))
  {
    var p, q := Painted(s, off, n, n, rule), Painted(s, off, n, n, Flat(k));
    forall i | 0 <= i < |s| ensures p[i] == q[i] {
      if InBlock(off, n, n, i) {
        assert At(rule, s, off, Col(i, off), Row(i, off)) == k;
      }
    }
  }

  /** A flat neighbourhood predicts itself: the vertical, horizontal and
      TrueMotion blocks are all the flat block at k, as is every DC block. */
  lemma FlatPredictions(s: seq<byte>, off: int, n: int, k: byte)
    requires Neighbours(|s|, off, n, true, true) && Bps + 1 <= off && FlatNeighbourhood(s, off, n, k)
    ensures DcMean(s, off, n, true, true) == k && DcMean(s, off, n, true, false) == k && DcMean(s, off, n, false, true) == k
    ensures Painted(s, off, n, n, Above) == Painted(s, off, n, n, Flat(k))
    ensures Painted(s, off, n, n, Beside) == Painted(s, off, n, n, Flat(k))
    ensures Painted(s, off, n, n, Gradient) == Painted(s, off, n, n, Flat(k))
  {
    DcFlat(s, off, n, k);
    forall x, y | 0 <= x < n && 0 <= y < n
      ensures At(Above, s, off, x, y) == k && At(Beside, s, off, x, y) == k && At(Gradient, s, off, x, y) == k
    {
      assert Top(s, off, x) == k && Left(s, off, y) == k;
    }
    SameBlock(s, off, n, Above, k);
    SameBlock(s, off, n, Beside, k);
    SameBlock(s, off, n, Gradient, k);
  }
}
