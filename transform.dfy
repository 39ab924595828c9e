// The inverse transforms of LossyUtils.cs (RFC 6386 sections 14.3 and 14.5):
// the two-pass 4x4 inverse DCT TransformOne, its DC-only and three-coefficient
// fast paths, and the chroma wrappers. Each adds a residual to the predicted
// 4x4 block of the work buffer (row stride Bps) instead of overwriting it:
// the sample at column x, row y becomes Clip8B(old + (v >> 3)), which is the
// Residual rule of module Block. Each kernel is proved to paint its block
// with that rule; the proofs go through AddCells and Added, which follow the
// order in which Store writes the samples. The coefficients (C# `short`) are read only.

module Transform {
  import opened Arith
  import opened Block

  /** The one-dimensional inverse transform both passes apply to four inputs
      in0..in3: even part in0 +- in2, odd part rotated by Mul1/Mul2. */
  function Butterfly(in0: int, in1: int, in2: int, in3: int): (r: seq<int>)
    ensures |r| == 4
  {
    var a := in0 + in2;
    var b := in0 - in2;
    var c := Mul2(in1) - Mul1(in3);
    var d := Mul1(in1) + Mul2(in3);
    [a + d, b + c, b - c, a - d]
  }

  /** Output of the first pass for column i of the coefficient block, that is
      for src[i], src[i + 4], src[i + 8], src[i + 12]. */
  function Column(src: seq<int>, i: int): (r: seq<int>)
    requires |src| >= 16 && 0 <= i < 4
    ensures |r| == 4
  {
    Butterfly(src[i], src[i + 4], src[i + 8], src[i + 12])
  }

  /** The first pass of TransformOne: tmp[4i + k] is output k of column i. */
  function VerticalPass(src: seq<int>): (tmp: seq<int>)
    requires |src| >= 16
    ensures |tmp| == 16
  {
    Column(src, 0) + Column(src, 1) + Column(src, 2) + Column(src, 3)
  }

  /** Row y of the second pass over tmp: the inputs tmp[y], tmp[y + 4],
      tmp[y + 8], tmp[y + 12], with the rounding bias 4 added to the first. */
  function HorizontalRow(tmp: seq<int>, y: int): (r: seq<int>)
    requires |tmp| == 16 && 0 <= y < 4
    ensures |r| == 4
  {
    Butterfly(tmp[y] + 4, tmp[y + 4], tmp[y + 8], tmp[y + 12])
  }

  /** The second (horizontal) pass over a first-pass result tmp, row after row. */
  function HorizontalPass(tmp: seq<int>): (r: seq<int>)
    requires |tmp| == 16
    ensures |r| == 16
  {
    HorizontalRow(tmp, 0) + HorizontalRow(tmp, 1) + HorizontalRow(tmp, 2) + HorizontalRow(tmp, 3)
  }

  /** The residual TransformOne adds, before the final >> 3, at index x + 4y
      for column x, row y. */
  function Idct(src: seq<int>): (r: seq<int>)
    requires |src| >= 16
    ensures |r| == 16
  {
    HorizontalPass(VerticalPass(src))
  }

  /** The residual TransformDc adds: dc + 4 at every sample. */
  function DcResidual(dc: int): (r: seq<int>)
    ensures |r| == 16
  {
    seq(16, _ => dc + 4)
  }

  /** The four values Store2 adds to one row: dc + d, dc + c, dc - c, dc - d. */
  function Row2(dc: int, d: int, c: int): (r: seq<int>)
    ensures |r| == 4
  {
    [dc + d, dc + c, dc - c, dc - d]
  }

  /** The residual TransformAc3 adds, from src[0], src[1] and src[4] only. */
  function Ac3Residual(src: seq<int>): (r: seq<int>)
    requires |src| >= 16
    ensures |r| == 16
  {
    Ac3Block(src[0] + 4, Mul2(src[4]), Mul1(src[4]), Mul2(src[1]), Mul1(src[1]))
  }

  /** The four Store2 rows of TransformAc3, from a = src[0] + 4 and the rotated
      src[4] (c4, d4) and src[1] (c1, d1). */
  function Ac3Block(a: int, c4: int, d4: int, c1: int, d1: int): (r: seq<int>)
    ensures |r| == 16
  {
    Row2(a + d4, d1, c1) + Row2(a + c4, d1, c1) + Row2(a - c4, d1, c1) + Row2(a - d4, d1, c1)
  }

  /** The 4x4 block at `off` lies in a buffer of length `len`. */
  predicate Block4(len: int, off: int) {
    0 <= off && off + 3 * Bps + 4 <= len
  }

  /** Sixteen values laid out column after column form VerticalPass. */
  lemma ColumnsMakePass(src: seq<int>, tmp: seq<int>)
    requires |src| >= 16 && |tmp| == 16
    requires forall j, k | 0 <= j < 4 && 0 <= k < 4 :: tmp[4 * j + k] == Column(src, j)[k]
    ensures tmp == VerticalPass(src)
  {
    var c0, c1, c2, c3 := Column(src, 0), Column(src, 1), Column(src, 2), Column(src, 3);
    assert tmp[0] == c0[0] && tmp[1] == c0[1] && tmp[2] == c0[2] && tmp[3] == c0[3];
    assert tmp[4] == c1[0] && tmp[5] == c1[1] && tmp[6] == c1[2] && tmp[7] == c1[3];
    assert tmp[8] == c2[0] && tmp[9] == c2[1] && tmp[10] == c2[2] && tmp[11] == c2[3];
    assert tmp[12] == c3[0] && tmp[13] == c3[1] && tmp[14] == c3[2] && tmp[15] == c3[3];
    assert tmp == c0 + c1 + c2 + c3;
  }

  /** Row y of the horizontal pass, as its loop computes it from dc = tmp[y] + 4. */
  lemma HorizontalStep(tmp: seq<int>, y: int, a: int, b: int, c: int, d: int)
    requires |tmp| == 16 && 0 <= y < 4
    requires a == tmp[y] + 4 + tmp[y + 8] && b == tmp[y] + 4 - tmp[y + 8]
    requires c == Mul2(tmp[y + 4]) - Mul1(tmp[y + 12]) && d == Mul1(tmp[y + 4]) + Mul2(tmp[y + 12])
    ensures var r := HorizontalPass(tmp);
      r[4 * y] == a + d && r[4 * y + 1] == b + c && r[4 * y + 2] == b - c && r[4 * y + 3] == a - d
  {
    var r0, r1, r2, r3 := HorizontalRow(tmp, 0), HorizontalRow(tmp, 1), HorizontalRow(tmp, 2), HorizontalRow(tmp, 3);
    assert HorizontalPass(tmp) == r0 + r1 + r2 + r3;
  }

  // ---------------------------------------------------------------------
  // Residual addition in the order Store performs it.

  /** `u` after Store has added v >> 3 to the sample at p, saturating. */
  function Plus(u: seq<byte>, p: int, v: int): (t: seq<byte>)
    requires 0 <= p < |u|
    ensures |t| == |u|
  {
    u[p := Clip8B(u[p] + Shr(v, 3))]
  }

  /** `u` after Store has added r[b], ..., r[b + n - 1] (each >> 3) to the n
      consecutive samples from p, one after the other. */
  function AddCells(u: seq<byte>, p: int, r: seq<int>, b: int, n: nat): (t: seq<byte>)
    requires 0 <= p && p + n <= |u| && 0 <= b && b + n <= |r|
    ensures |t| == |u|
    decreases n, |u|
  {
    if n == 0 then u else Plus(AddCells(u, p, r, b, n - 1), p + n - 1, r[b + n - 1])
  }

  /** AddCells leaves every sample outside the run unchanged. */
  lemma {:induction false} AddCellsFrame(u: seq<byte>, p: int, r: seq<int>, b: int, n: nat, k: int)
    requires 0 <= p && p + n <= |u| && 0 <= b && b + n <= |r| && 0 <= k < |u| && !(p <= k < p + n)
    ensures AddCells(u, p, r, b, n)[k] == u[k]
  {
    if n > 0 {
      AddCellsFrame(u, p, r, b, n - 1, k);
    }
  }

  /** `s` after rows 0..h-1 of the block at `off` received rows 0..h-1 of r. */
  function Added(s: seq<byte>, off: int, h: nat, r: seq<int>): (t: seq<byte>)
    requires Block4(|s|, off) && h <= 4 && |r| == 16
    ensures |t| == |s|
  {
    if h == 0 then s else AddCells(Added(s, off, h - 1, r), off + (h - 1) * Bps, r, 4 * (h - 1), 4)
  }

  /** AddCells read back inside the run. */
  lemma {:induction false} AddCellsAt(u: seq<byte>, p: int, r: seq<int>, b: int, n: nat, k: int)
    requires 0 <= p && p + n <= |u| && 0 <= b && b + n <= |r| && p <= k < p + n
    ensures AddCells(u, p, r, b, n)[k] == Clip8B(u[k] + Shr(r[b + k - p], 3))
  {
    if k < p + n - 1 {
      AddCellsAt(u, p, r, b, n - 1, k);
    } else {
      AddCellsFrame(u, p, r, b, n - 1, k);
    }
  }

  /** The samples of row y of a block are untouched by painting rows 0..y-1. */
  lemma RowAhead(s: seq<byte>, off: int, y: int, rule: Rule, x: int)
    requires 0 <= y < 4 && 0 <= x < 4 && Fits(|s|, off, 4, y, rule) && off + y * Bps + 4 <= |s|
    ensures Painted(s, off, 4, y, rule)[Px(off, x, y)] == s[Px(off, x, y)]
  {
    assert !InBlock(off, 4, y, Px(off, x, y)) by {
      Coords(off, x, y);
    }
  }

  /** Adding row y of r to `u`, whose row y still holds `s`, paints row y with Residual(r). */
  lemma ResidualRow(s: seq<byte>, u: seq<byte>, off: int, r: seq<int>, y: int)
    requires Block4(|s|, off) && |r| == 16 && 0 <= y < 4 && |u| == |s|
    requires forall x | 0 <= x < 4 :: u[Px(off, x, y)] == s[Px(off, x, y)]
    ensures RowPainted(s, u, AddCells(u, off + y * Bps, r, 4 * y, 4), off, 4, y, Residual(r))
  {
    var p := off + y * Bps;
    var t := AddCells(u, p, r, 4 * y, 4);
    forall k | 0 <= k < |s| && p <= k < p + 4
      ensures t[k] == At(Residual(r), s, off, k - p, y)
    {
      AddCellsAt(u, p, r, 4 * y, 4, k);
      assert u[Px(off, k - p, y)] == s[Px(off, k - p, y)];
    }
    forall k | 0 <= k < |s| && !(p <= k < p + 4)
      ensures t[k] == u[k]
    {
      AddCellsFrame(u, p, r, 4 * y, 4, k);
    }
  }

  /** One more row: adding row y of r to the block painted down to row y paints row y too. */
  lemma AddedRow(s: seq<byte>, u: seq<byte>, off: int, r: seq<int>, y: int)
    requires Block4(|s|, off) && |r| == 16 && 0 <= y < 4
    requires u == Painted(s, off, 4, y, Residual(r))
    ensures AddCells(u, off + y * Bps, r, 4 * y, 4) == Painted(s, off, 4, y + 1, Residual(r))
  {
    RowAhead(s, off, y, Residual(r), 0);
    RowAhead(s, off, y, Residual(r), 1);
    RowAhead(s, off, y, Residual(r), 2);
    RowAhead(s, off, y, Residual(r), 3);
    ResidualRow(s, u, off, r, y);
    NextRow(s, off, 4, y, Residual(r), AddCells(u, off + y * Bps, r, 4 * y, 4));
  }

  /** Adding the residual row by row is painting the block with Residual(r). */
  lemma {:induction false} AddedIsPainted(s: seq<byte>, off: int, h: nat, r: seq<int>)
    requires Block4(|s|, off) && h <= 4 && |r| == 16
    ensures Added(s, off, h, r) == Painted(s, off, 4, h, Residual(r))
  {
    if h == 0 {
      PaintedNone(s, off, 4, Residual(r));
    } else {
      AddedIsPainted(s, off, h - 1, r);
      AddedRow(s, Added(s, off, h - 1, r), off, r, h - 1);
    }
  }

  /** Four Stores to row y of the block at dst, column after column, are AddCells over four. */
  lemma StoresAdd(u: seq<byte>, t1: seq<byte>, t2: seq<byte>, t3: seq<byte>, t4: seq<byte>,
                  dst: int, y: int, v0: int, v1: int, v2: int, v3: int, r: seq<int>, b: int)
    requires 0 <= dst && 0 <= y && dst + y * Bps + 4 <= |u| && 0 <= b && b + 4 <= |r|
    requires r[b] == v0 && r[b + 1] == v1 && r[b + 2] == v2 && r[b + 3] == v3
    requires t1 == Plus(u, dst + 0 + y * Bps, v0) && t2 == Plus(t1, dst + 1 + y * Bps, v1)
    requires t3 == Plus(t2, dst + 2 + y * Bps, v2) && t4 == Plus(t3, dst + 3 + y * Bps, v3)
    ensures t4 == AddCells(u, dst + y * Bps, r, b, 4)
  {
    var p := dst + y * Bps;
    assert t1 == AddCells(u, p, r, b, 1);
    assert t2 == AddCells(u, p, r, b, 2);
    assert t3 == AddCells(u, p, r, b, 3);
  }

  // ---------------------------------------------------------------------
  // The kernels.

  /** Store: adds v >> 3 to column x, row y of the block at `dst`, saturating. */
  method Store(buf: array<byte>, dst: int, x: int, y: int, v: int)
    requires 0 <= x < Bps && 0 <= y && 0 <= dst && dst + x + y * Bps < buf.Length
    modifies buf
    ensures buf[..] == Plus(old(buf[..]), dst + x + y * Bps, v)
  {
    buf[dst + x + y * Bps] := Clip8B(buf[dst + x + y * Bps] + Shr(v, 3));
  }

  /** Store2: adds dc + d, dc + c, dc - c, dc - d (each >> 3) to row y of the
      block at `dst`. */
  method Store2(buf: array<byte>, dst: int, y: int, dc: int, d: int, c: int)
    requires 0 <= y && 0 <= dst && dst + y * Bps + 4 <= buf.Length
    modifies buf
    ensures buf[..] == AddCells(old(buf[..]), dst + y * Bps, Row2(dc, d, c), 0, 4)
  {
    ghost var u := buf[..];
    Store(buf, dst, 0, y, dc + d);
    ghost var t1 := buf[..];
    Store(buf, dst, 1, y, dc + c);
    ghost var t2 := buf[..];
    Store(buf, dst, 2, y, dc - c);
    ghost var t3 := buf[..];
    Store(buf, dst, 3, y, dc - d);
    StoresAdd(u, t1, t2, t3, buf[..], dst, y, dc + d, dc + c, dc - c, dc - d, Row2(dc, d, c), 0);
  }

  /** TransformOne: the full two-pass inverse transform, added to the block. The
      body of the second loop is HorizontalStore. */
  method TransformOne(src: seq<int>, buf: array<byte>, off: int)
    requires |src| >= 16 && Block4(buf.Length, off) && off + 4 * Bps <= buf.Length
    modifies buf
    ensures buf[..] == Painted(old(buf[..]), off, 4, 4, Residual(Idct(src)))
  {
    var tmp := new int[16];
    var tmpOffset := 0;
    for i := 0 to 4
      modifies tmp
      invariant tmpOffset == 4 * i
      invariant forall j, k | 0 <= j < i && 0 <= k < 4 :: tmp[4 * j + k] == Column(src, j)[k]
    {
      // vertical pass
      VerticalStore(src, i, tmp, tmpOffset);
      tmpOffset := tmpOffset + 4;
    }
    ColumnsMakePass(src, tmp[..]);
    ghost var s, r := old(buf[..]), Idct(src);
    tmpOffset := 0;
    var dst := off;
    for i := 0 to 4
      modifies buf
      invariant tmpOffset == i && dst == off + i * Bps
      invariant tmp[..] == VerticalPass(src)
      invariant buf[..] == Added(s, off, i, r)
    {
      // horizontal pass
      HorizontalStore(tmp[..], tmpOffset, buf, dst);
      tmpOffset := tmpOffset + 1;
      dst := dst + Bps;
    }
    AddedIsPainted(s, off, 4, r);
  }

  /** One step of the first pass of TransformOne: column i of src, through
      the butterfly, into tmp[t], ..., tmp[t + 3]. */
  method VerticalStore(src: seq<int>, i: int, tmp: array<int>, t: int)
    requires |src| >= 16 && 0 <= i < 4 && 0 <= t && t + 4 <= tmp.Length
    modifies tmp
    ensures forall k | 0 <= k < tmp.Length ::
      tmp[k] == if t <= k < t + 4 then Column(src, i)[k - t] else old(tmp[k])
  {
    var a := src[i] + src[i + 8];
    var b := src[i] - src[i + 8];
    var c := Mul2(src[i + 4]) - Mul1(src[i + 12]);
    var d := Mul1(src[i + 4]) + Mul2(src[i + 12]);
    tmp[t] := a + d;
    tmp[t + 1] := b + c;
    tmp[t + 2] := b - c;
    tmp[t + 3] := a - d;
  }

  /** One round of the second loop of TransformOne: row i of the horizontal
      pass over tmp, added to the four samples from dst. */
  method HorizontalStore(tmp: seq<int>, i: int, buf: array<byte>, dst: int)
    requires |tmp| == 16 && 0 <= i < 4 && 0 <= dst && dst + 4 <= buf.Length
    modifies buf
    ensures buf[..] == AddCells(old(buf[..]), dst, HorizontalPass(tmp), 4 * i, 4)
  {
    ghost var u := buf[..];
    var dc := tmp[i] + 4;
    var a := dc + tmp[i + 8];
    var b := dc - tmp[i + 8];
    var c := Mul2(tmp[i + 4]) - Mul1(tmp[i + 12]);
    var d := Mul1(tmp[i + 4]) + Mul2(tmp[i + 12]);
    HorizontalStep(tmp, i, a, b, c, d);
    Store(buf, dst, 0, 0, a + d);
    ghost var t1 := buf[..];
    Store(buf, dst, 1, 0, b + c);
    ghost var t2 := buf[..];
    Store(buf, dst, 2, 0, b - c);
    ghost var t3 := buf[..];
    Store(buf, dst, 3, 0, a - d);
    StoresAdd(u, t1, t2, t3, buf[..], dst, 0, a + d, b + c, b - c, a - d, HorizontalPass(tmp), 4 * i);
  }

  /** Two residual runs that agree on their n values add the same. */
  lemma {:induction false} AddCellsSame(u: seq<byte>, p: int, r1: seq<int>, b1: int, r2: seq<int>, b2: int, n: nat)
    requires 0 <= p && p + n <= |u| && 0 <= b1 && b1 + n <= |r1| && 0 <= b2 && b2 + n <= |r2|
    requires forall k | b1 <= k < b1 + n :: r1[k] == r2[k - b1 + b2]
    ensures AddCells(u, p, r1, b1, n) == AddCells(u, p, r2, b2, n)
  {
    if n > 0 {
      AddCellsSame(u, p, r1, b1, r2, b2, n - 1);
      assert r1[b1 + n - 1] == r2[b1 + n - 1 - b1 + b2];
    }
  }

  /** TransformDc: adds (src[0] + 4) >> 3 to all sixteen samples, row by row. */
  method TransformDc(src: seq<int>, buf: array<byte>, off: int)
    requires |src| >= 1 && Block4(buf.Length, off)
    modifies buf
    ensures buf[..] == Painted(old(buf[..]), off, 4, 4, Residual(DcResidual(src[0])))
  {
    ghost var s, r := old(buf[..]), DcResidual(src[0]);
    var dc := src[0] + 4;
    for j := 0 to 4
      invariant buf[..] == Added(s, off, j, r)
    {
      ghost var u := buf[..];
      for i := 0 to 4
        invariant buf[..] == AddCells(u, off + j * Bps, r, 4 * j, i)
      {
        Store(buf, off, i, j, dc);
      }
    }
    AddedIsPainted(s, off, 4, r);
  }

  /** A row added from `row` is row y of Added when `row` is row y of r. */
  lemma AddedNext(s: seq<byte>, u: seq<byte>, t: seq<byte>, off: int, r: seq<int>, y: int, row: seq<int>)
    requires Block4(|s|, off) && |r| == 16 && 0 <= y < 4 && row == r[4 * y..4 * y + 4]
    requires u == Added(s, off, y, r) && t == AddCells(u, off + y * Bps, row, 0, 4)
    ensures t == Added(s, off, y + 1, r)
  {
    AddCellsSame(u, off + y * Bps, row, 0, r, 4 * y, 4);
  }

  /** Four rows added one after the other, rows 0 to 3 of r, paint the block with Residual(r). */
  lemma RowsAdded(s: seq<byte>, t: seq<byte>, off: int, r: seq<int>, r0: seq<int>, r1: seq<int>, r2: seq<int>, r3: seq<int>)
    requires Block4(|s|, off) && |r| == 16
    requires r[0..4] == r0 && r[4..8] == r1 && r[8..12] == r2 && r[12..16] == r3
    requires t == AddCells(AddCells(AddCells(AddCells(s,
                    off + 0 * Bps, r0, 0, 4), off + 1 * Bps, r1, 0, 4),
                    off + 2 * Bps, r2, 0, 4), off + 3 * Bps, r3, 0, 4)
    ensures t == Painted(s, off, 4, 4, Residual(r))
  {
    var t1 := AddCells(s, off + 0 * Bps, r0, 0, 4);
    AddedNext(s, s, t1, off, r, 0, r0);
    var t2 := AddCells(t1, off + 1 * Bps, r1, 0, 4);
    AddedNext(s, t1, t2, off, r, 1, r1);
    var t3 := AddCells(t2, off + 2 * Bps, r2, 0, 4);
    AddedNext(s, t2, t3, off, r, 2, r2);
    AddedNext(s, t3, t, off, r, 3, r3);
    AddedIsPainted(s, off, 4, r);
  }

  /** The four rows of Ac3Residual, as TransformAc3 computes them. */
  lemma Ac3Rows(src: seq<int>, a: int, c4: int, d4: int, c1: int, d1: int)
    requires |src| >= 16 && a == src[0] + 4
    requires c4 == Mul2(src[4]) && d4 == Mul1(src[4]) && c1 == Mul2(src[1]) && d1 == Mul1(src[1])
    ensures Ac3Residual(src)[0..4] == Row2(a + d4, d1, c1) && Ac3Residual(src)[4..8] == Row2(a + c4, d1, c1)
    ensures Ac3Residual(src)[8..12] == Row2(a - c4, d1, c1) && Ac3Residual(src)[12..16] == Row2(a - d4, d1, c1)
  {
  }

  /** TransformAc3: the transform of a block whose only non-zero coefficients
      are src[0], src[1] and src[4], one Store2 per row. */
  method TransformAc3(src: seq<int>, buf: array<byte>, off: int)
    requires |src| >= 16 && Block4(buf.Length, off)
    modifies buf
    ensures buf[..] == Painted(old(buf[..]), off, 4, 4, Residual(Ac3Residual(src)))
  {
    var a := src[0] + 4;
    var c4 := Mul2(src[4]);
    var d4 := Mul1(src[4]);
    var c1 := Mul2(src[1]);
    var d1 := Mul1(src[1]);
    Store2(buf, off, 0, a + d4, d1, c1);
    Store2(buf, off, 1, a + c4, d1, c1);
    Store2(buf, off, 2, a - c4, d1, c1);
    Store2(buf, off, 3, a - d4, d1, c1);
    Ac3Rows(src, a, c4, d4, c1, d1);
    RowsAdded(old(buf[..]), buf[..], off, Ac3Residual(src), Row2(a + d4, d1, c1), Row2(a + c4, d1, c1), Row2(a - c4, d1, c1), Row2(a - d4, d1, c1));
  }

  /** Transform: TransformOne on the block at off and, when doTwo, TransformOne
      on the next sixteen coefficients and the block four samples to the right. */
  method Transform(src: seq<int>, buf: array<byte>, off: int, doTwo: bool)
    requires |src| >= 16 && Block4(buf.Length, off) && off + 4 * Bps <= buf.Length
    requires doTwo ==> |src| >= 32 && off + 4 * Bps + 4 <= buf.Length
    modifies buf
    ensures !doTwo ==> buf[..] == IdctBlock(old(buf[..]), off, src)
    ensures doTwo ==> buf[..] == IdctBlock(IdctBlock(old(buf[..]), off, src), off + 4, src[16..])
  {
    TransformOne(src, buf, off);
    if doTwo {
      TransformOne(src[16..], buf, off + 4);
    }
  }

  /** TransformUv: the four 4x4 blocks of an 8x8 chroma block, coefficients
      src[0..16], src[16..32], src[32..48] and src[48..64], left to right and
      top to bottom. */
  method TransformUv(src: seq<int>, buf: array<byte>, off: int)
    requires |src| >= 64 && Block4(buf.Length, off) && off + 8 * Bps + 4 <= buf.Length
    modifies buf
    ensures buf[..] == IdctBlock(IdctBlock(IdctBlock(IdctBlock(old(buf[..]),
                         off, src), off + 4, src[16..]),
                         off + 4 * Bps, src[32..]), off + 4 * Bps + 4, src[48..])
  {
    Transform(src, buf, off, true);
    Transform(src[32..], buf, off + 4 * Bps, true);
    assert src[32..][16..] == src[48..];
  }

  /** TransformDcuv: the DC-only transform of the four chroma 4x4 blocks, each
      skipped when its DC coefficient is zero (adding DcResidual(0) changes nothing). */
  method TransformDcuv(src: seq<int>, buf: array<byte>, off: int)
    requires |src| >= 49 && Block4(buf.Length, off) && Block4(buf.Length, off + 4 * Bps + 4)
    modifies buf
    ensures buf[..] == DcBlock(DcBlock(DcBlock(DcBlock(old(buf[..]),
                         off, src[0]), off + 4, src[16]),
                         off + 4 * Bps, src[32]), off + 4 * Bps + 4, src[48])
  {
    DcIfNonZero(src[0 * 16..], buf, off);
    DcIfNonZero(src[1 * 16..], buf, off + 4);
    DcIfNonZero(src[2 * 16..], buf, off + 4 * Bps);
    DcIfNonZero(src[3 * 16..], buf, off + 4 * Bps + 4);
  }

  /** One of the four guarded calls of TransformDcuv: TransformDc on the block
      at off unless the DC coefficient src[0] is zero. */
  method DcIfNonZero(src: seq<int>, buf: array<byte>, off: int)
    requires |src| >= 1 && Block4(buf.Length, off)
    modifies buf
    ensures buf[..] == DcBlock(old(buf[..]), off, src[0])
  {
    if src[0] != 0 {
      TransformDc(src, buf, off);
    } else {
      DcZeroKeeps(buf[..], off);
    }
    DcBlockIsPainted(old(buf[..]), off, src[0]);
  }

  /** The block at off after TransformOne with coefficients src. */
  function IdctBlock(s: seq<byte>, off: int, src: seq<int>): (t: seq<byte>)
    requires Block4(|s|, off) && |src| >= 16
    ensures |t| == |s|
  {
    Painted(s, off, 4, 4, Residual(Idct(src)))
  }

  /** The block at off after TransformDc with DC coefficient dc, row after row
      (DcBlockIsPainted: the Residual(DcResidual(dc)) painting of the block). */
  function DcBlock(s: seq<byte>, off: int, dc: int): (t: seq<byte>)
    requires Block4(|s|, off)
    ensures |t| == |s|
  {
    Added(s, off, 4, DcResidual(dc))
  }

  /** DcBlock paints the block with the DC residual. */
  lemma DcBlockIsPainted(s: seq<byte>, off: int, dc: int)
    requires Block4(|s|, off)
    ensures DcBlock(s, off, dc) == Painted(s, off, 4, 4, Residual(DcResidual(dc)))
  {
    AddedIsPainted(s, off, 4, DcResidual(dc));
  }

  /** A residual whose every value lies in [0, 8) vanishes under >> 3: the block is unchanged. */
  lemma SmallResidualKeeps(s: seq<byte>, off: int, r: seq<int>)
    requires Block4(|s|, off) && |r| == 16 && forall k | 0 <= k < 16 :: 0 <= r[k] < 8
    ensures Painted(s, off, 4, 4, Residual(r)) == s
  {
    Pow2Values();
    var t := Painted(s, off, 4, 4, Residual(r));
    forall i | 0 <= i < |s| && InBlock(off, 4, 4, i)
      ensures t[i] == s[i]
    {
      var x, y := Col(i, off), Row(i, off);
      assert i == off + x + y * Bps;
      ShrIsDiv(r[x + 4 * y], 3);
    }
  }

  /** A zero DC coefficient leaves the block as it was (Shr(0 + 4, 3) == 0). */
  lemma DcZeroKeeps(s: seq<byte>, off: int)
    requires Block4(|s|, off)
    ensures Painted(s, off, 4, 4, Residual(DcResidual(0))) == s
  {
    SmallResidualKeeps(s, off, DcResidual(0));
  }

  /** All sixteen coefficients zero: TransformOne leaves the block as it was. */
  lemma ZeroIdctKeeps(s: seq<byte>, off: int, src: seq<int>)
    requires Block4(|s|, off) && |src| >= 16 && forall k | 0 <= k < 16 :: src[k] == 0
    ensures IdctBlock(s, off, src) == s
  {
    assert DcOnly(src);
    DcOnlyIdct(src);
    DcZeroKeeps(s, off);
  }

  /** With both inputs of the even and odd second halves zero, the butterfly
      is in0 plus and minus the rotated in1. */
  lemma ButterflyHalf(in0: int, in1: int)
    ensures Butterfly(in0, in1, 0, 0) == Row2(in0, Mul1(in1), Mul2(in1))
  {
    MulRange(0);
  }

  /** A column whose last three coefficients are zero passes its first one to all four outputs. */
  lemma ColumnFlat(src: seq<int>, j: int)
    requires |src| >= 16 && 0 <= j < 4 && src[j + 4] == 0 && src[j + 8] == 0 && src[j + 12] == 0
    ensures Column(src, j) == [src[j], src[j], src[j], src[j]]
  {
    MulRange(0);
  }

  /** The second pass over a first pass whose columns 2 and 3 are zero and
      whose column 1 is b throughout: row y is Row2(e_y + 4, Mul1(b), Mul2(b)). */
  lemma HalfPass(e0: int, e1: int, e2: int, e3: int, b: int, m1: int, m2: int)
    requires m1 == Mul1(b) && m2 == Mul2(b)
    ensures HorizontalPass([e0, e1, e2, e3] + [b, b, b, b] + [0, 0, 0, 0] + [0, 0, 0, 0])
         == Row2(e0 + 4, m1, m2) + Row2(e1 + 4, m1, m2) + Row2(e2 + 4, m1, m2) + Row2(e3 + 4, m1, m2)
  {
    var tmp := [e0, e1, e2, e3] + [b, b, b, b] + [0, 0, 0, 0] + [0, 0, 0, 0];
    assert tmp == [e0, e1, e2, e3, b, b, b, b, 0, 0, 0, 0, 0, 0, 0, 0];
    ButterflyHalf(e0 + 4, b);
    ButterflyHalf(e1 + 4, b);
    ButterflyHalf(e2 + 4, b);
    ButterflyHalf(e3 + 4, b);
  }

  /** The rows HalfPass yields for the first pass of Ac3Vertical are Ac3Block's. */
  lemma Ac3Shift(s0: int, c4: int, d4: int, c1: int, d1: int)
    ensures Row2(s0 + d4 + 4, d1, c1) + Row2(s0 + c4 + 4, d1, c1) + Row2(s0 - c4 + 4, d1, c1) + Row2(s0 - d4 + 4, d1, c1)
         == Ac3Block(s0 + 4, c4, d4, c1, d1)
  {
    var a := s0 + 4;
    assert s0 + d4 + 4 == a + d4 && s0 + c4 + 4 == a + c4;
    assert s0 - c4 + 4 == a - c4 && s0 - d4 + 4 == a - d4;
  }

  /** The coefficients TransformDc ignores are zero: all but src[0]. */
  predicate DcOnly(src: seq<int>)
    requires |src| >= 16
  {
    forall k | 1 <= k < 16 :: src[k] == 0
  }

  /** The coefficients TransformAc3 ignores are zero: all but src[0], src[1] and src[4]. */
  predicate Ac3Only(src: seq<int>)
    requires |src| >= 16
  {
    forall k | 0 <= k < 16 && k != 0 && k != 1 && k != 4 :: src[k] == 0
  }

  /** The first pass under Ac3Only: column 0 is Row2(src[0], ...), column 1 is
      src[1] throughout, columns 2 and 3 are zero. */
  lemma Ac3Vertical(src: seq<int>)
    requires |src| >= 16 && Ac3Only(src)
    ensures VerticalPass(src) == Ac3First(src[0], src[1], Mul2(src[4]), Mul1(src[4]))
  {
    assert src[8] == 0 && src[12] == 0;
    assert src[5] == 0 && src[9] == 0 && src[13] == 0;
    assert src[2] == 0 && src[6] == 0 && src[10] == 0 && src[14] == 0;
    assert src[3] == 0 && src[7] == 0 && src[11] == 0 && src[15] == 0;
    ButterflyHalf(src[0], src[4]);
    ColumnFlat(src, 1);
    ColumnFlat(src, 2);
    ColumnFlat(src, 3);
  }

  /** When only src[0] may be non-zero the full transform reduces to the DC
      residual, so TransformDc computes what TransformOne would. */
  lemma DcOnlyIdct(src: seq<int>)
    requires |src| >= 16 && DcOnly(src)
    ensures Idct(src) == DcResidual(src[0])
  {
    assert Ac3Only(src);
    Ac3Idct(src);
    DcFromAc3(src);
  }

  /** With src[1] and src[4] zero the Ac3 residual is flat at src[0] + 4. */
  lemma DcFromAc3(src: seq<int>)
    requires |src| >= 16 && src[1] == 0 && src[4] == 0
    ensures Ac3Residual(src) == DcResidual(src[0])
  {
    Ac3Unfold(src);
    MulRange(0);
    var a := src[0] + 4;
    assert Row2(a, 0, 0) == [a, a, a, a];
  }

  /** The first pass of a block with only src[0], src[1] and src[4] set:
      column 0 rotated by (c4, d4), column 1 flat at b, columns 2 and 3 zero. */
  function Ac3First(s0: int, b: int, c4: int, d4: int): (r: seq<int>)
    ensures |r| == 16
  {
    Row2(s0, d4, c4) + [b, b, b, b] + [0, 0, 0, 0] + [0, 0, 0, 0]
  }

  /** The second pass over Ac3First: the rows of Ac3Block. */
  lemma Ac3Second(s0: int, b: int, c4: int, d4: int)
    ensures HorizontalPass(Ac3First(s0, b, c4, d4)) == Ac3Block(s0 + 4, c4, d4, Mul2(b), Mul1(b))
  {
    var t := Ac3First(s0, b, c4, d4);
    var h := [s0 + d4, s0 + c4, s0 - c4, s0 - d4] + [b, b, b, b] + [0, 0, 0, 0] + [0, 0, 0, 0];
    assert t == h;
    HalfPass(s0 + d4, s0 + c4, s0 - c4, s0 - d4, b, Mul1(b), Mul2(b));
    Ac3Shift(s0, c4, d4, Mul2(b), Mul1(b));
    calc {
      HorizontalPass(t);
      HorizontalPass(h);
      Row2(s0 + d4 + 4, Mul1(b), Mul2(b)) + Row2(s0 + c4 + 4, Mul1(b), Mul2(b))
        + Row2(s0 - c4 + 4, Mul1(b), Mul2(b)) + Row2(s0 - d4 + 4, Mul1(b), Mul2(b));
      Ac3Block(s0 + 4, c4, d4, Mul2(b), Mul1(b));
    }
  }

  /** Ac3Residual is Ac3Block of the three rotated coefficients. */
  lemma Ac3Unfold(src: seq<int>)
    requires |src| >= 16
    ensures Ac3Residual(src) == Ac3Block(src[0] + 4, Mul2(src[4]), Mul1(src[4]), Mul2(src[1]), Mul1(src[1]))
  {
  }

  /** A first pass of the Ac3First shape makes the full transform Ac3Residual. */
  lemma Ac3IdctFrom(src: seq<int>)
    requires |src| >= 16 && VerticalPass(src) == Ac3First(src[0], src[1], Mul2(src[4]), Mul1(src[4]))
    ensures Idct(src) == Ac3Residual(src)
  {
    Ac3Second(src[0], src[1], Mul2(src[4]), Mul1(src[4]));
    Ac3Unfold(src);
  }

  /** When only src[0], src[1] and src[4] may be non-zero the full transform
      reduces to Ac3Residual, so TransformAc3 computes what TransformOne would. */
  lemma Ac3Idct(src: seq<int>)
    requires |src| >= 16 && Ac3Only(src)
    ensures Idct(src) == Ac3Residual(src)
  {
    Ac3Vertical(src);
    Ac3IdctFrom(src);
  }
}
