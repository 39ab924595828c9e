// The reconstruction work buffer seen as a plane with row stride Bps, and the
// single specification of every kernel that writes a w x h block at an offset:
// the predictors (LossyUtils.cs Put16, Put8x8uv, Memset, Dst, TrueMotion, the
// 4x4 modes) and the residual add of the inverse transforms (Store).

module Block {
  import opened Arith
  import opened Modes4

  /** Column, relative to the block origin `off`, of buffer index `i >= off`. */
  function Col(i: int, off: int): int
    requires off <= i
  {
    (i - off) % Bps
  }

  /** Row, relative to the block origin `off`, of buffer index `i >= off`. */
  function Row(i: int, off: int): int
    requires off <= i
  {
    (i - off) / Bps
  }

  /** Index `i` lies in the w x h block whose top-left sample is at `off`. */
  predicate InBlock(off: int, w: int, h: int, i: int) {
    off <= i && (i - off) % Bps < w && (i - off) / Bps < h
  }

  /** The sample at column x, row y of the block at `off` has index off + x + y*Bps. */
  lemma Coords(off: int, x: int, y: int)
    requires 0 <= x < Bps && 0 <= y
    ensures Col(off + x + y * Bps, off) == x && Row(off + x + y * Bps, off) == y
  {
  }

  /** The column left of a block narrower than Bps lies outside it. */
  lemma LeftOutside(off: int, w: int, h: int, y: int)
    requires w < Bps && 0 <= y
    ensures !InBlock(off, w, h, off - 1 + y * Bps)
  {
    if y > 0 {
      Coords(off, Bps - 1, y - 1);
    }
  }

  /** What a kernel writes at column x, row y of its block. */
  datatype Rule =
    | Flat(v: byte)          // one value everywhere (DC modes)
    | Above                  // the sample above the block in the same column (vertical modes)
    | Beside                 // the sample left of the block in the same row (horizontal modes)
    | Gradient               // TrueMotion: left + above - corner, clamped
    | Dir(m: Mode4)          // a 4x4 mode of RFC 6386 section 12.3 (VE4, HE4, directional modes)
    | Residual(r: seq<int>)  // the old sample plus r[x + 4y] >> 3, saturated (Store)

  /** The block fits in a buffer of length `len` and `rule` has what it reads. */
  predicate Fits(len: int, off: int, w: int, h: int, rule: Rule) {
    && 0 < w <= 16 && 0 <= h && 0 <= off && off + (h - 1) * Bps + w <= len
    && (rule.Above? ==> Bps <= off)
    && (rule.Beside? ==> 1 <= off)
    && (rule.Gradient? ==> Bps + 1 <= off)
    && (rule.Dir? ==> w <= 4 && h <= 4 && Reads(rule.m, len, off))
    && (rule.Residual? ==> |rule.r| == 16 && w <= 4 && h <= 4)
  }

  function At(rule: Rule, s: seq<byte>, off: int, x: int, y: int): byte
    requires 0 <= x < 16 && 0 <= y && 0 <= off && off + x + y * Bps < |s|
    requires rule.Above? ==> Bps <= off
    requires rule.Beside? ==> 1 <= off
    requires rule.Gradient? ==> Bps + 1 <= off
    requires rule.Dir? ==> x < 4 && y < 4 && Reads(rule.m, |s|, off)
    requires rule.Residual? ==> |rule.r| == 16 && x < 4 && y < 4
  {
    match rule
    case Flat(v) => v
    case Above => s[off - Bps + x]
    case Beside => s[off - 1 + y * Bps]
    case Gradient =>
      var left: int, top: int, corner: int := s[off - 1 + y * Bps], s[off - Bps + x], s[off - Bps - 1];
      Clamp255(left + top - corner)
    case Dir(m) => ModeAt(m, s, off, x, y)
    case Residual(r) => Clip8B(s[off + x + y * Bps] + Shr(r[x + 4 * y], 3))
  }

  /** The buffer `s` after the first h rows of the w-wide block at `off` are
      written by `rule`, every read being taken from `s` itself. */
  function Painted(s: seq<byte>, off: int, w: int, h: int, rule: Rule): (t: seq<byte>)
    requires Fits(|s|, off, w, h, rule)
    ensures |t| == |s|
    ensures forall i | 0 <= i < |s| && !InBlock(off, w, h, i) :: t[i] == s[i]
  {
    seq(|s|, i requires 0 <= i < |s| =>
      if InBlock(off, w, h, i) then At(rule, s, off, Col(i, off), Row(i, off)) else s[i])
  }

  /** Writing no rows leaves the buffer as it was. */
  lemma PaintedNone(s: seq<byte>, off: int, w: int, rule: Rule)
    requires Fits(|s|, off, w, 0, rule)
    ensures Painted(s, off, w, 0, rule) == s
  {
  }

  /** Painted puts At(rule, ...) at every position of the block. */
  lemma PaintedAt(s: seq<byte>, off: int, w: int, h: int, rule: Rule, x: int, y: int)
    requires Fits(|s|, off, w, h, rule) && 0 <= x < w && 0 <= y < h
    ensures Painted(s, off, w, h, rule)[Px(off, x, y)] == At(rule, s, off, x, y)
  {
    Coords(off, x, y);
  }

  /** `t` is `u` with row y of the block (w samples) written by `rule`, reading `s`. */
  ghost predicate RowPainted(s: seq<byte>, u: seq<byte>, t: seq<byte>, off: int, w: int, y: int, rule: Rule)
    requires 0 <= y && Fits(|s|, off, w, y + 1, rule)
  {
    && |u| == |s| && |t| == |s|
    && forall i | 0 <= i < |s| ::
         t[i] == if off + y * Bps <= i < off + y * Bps + w then At(rule, s, off, i - off - y * Bps, y) else u[i]
  }

  /** Row h of the first h + 1 rows is what `rule` defines there; elsewhere
      they are the first h rows. */
  lemma NextRowAt(s: seq<byte>, off: int, w: int, h: int, rule: Rule, i: int)
    requires 0 <= h && Fits(|s|, off, w, h + 1, rule) && 0 <= i < |s|
    ensures Painted(s, off, w, h + 1, rule)[i] ==
      if off + h * Bps <= i < off + h * Bps + w then At(rule, s, off, i - off - h * Bps, h)
      else Painted(s, off, w, h, rule)[i]
  {
    if off + h * Bps <= i < off + h * Bps + w {
      Coords(off, i - off - h * Bps, h);
    }
  }

  /** Writing row h on top of the first h rows gives the first h + 1 rows. */
  lemma NextRow(s: seq<byte>, off: int, w: int, h: int, rule: Rule, t: seq<byte>)
    requires 0 <= h && Fits(|s|, off, w, h + 1, rule)
    requires RowPainted(s, Painted(s, off, w, h, rule), t, off, w, h, rule)
    ensures t == Painted(s, off, w, h + 1, rule)
  {
    var p := Painted(s, off, w, h + 1, rule);
    forall i | 0 <= i < |s| ensures t[i] == p[i] {
      NextRowAt(s, off, w, h, rule, i);
    }
  }

  /** Writing `vals`, which is row y as `rule` defines it, on top of the first
      y rows gives the first y + 1 rows. */
  lemma NextRowOf(s: seq<byte>, off: int, w: int, y: int, rule: Rule, vals: seq<byte>, t: seq<byte>)
    requires 0 <= y && Fits(|s|, off, w, y + 1, rule) && |vals| == w && |t| == |s|
    requires forall x | 0 <= x < w :: vals[x] == At(rule, s, off, x, y)
    requires forall i | 0 <= i < |s| ::
      t[i] == if off + y * Bps <= i < off + y * Bps + w then vals[i - off - y * Bps] else Painted(s, off, w, y, rule)[i]
    ensures t == Painted(s, off, w, y + 1, rule)
  {
    NextRow(s, off, w, y, rule, t);
  }

  /** A kernel whose writes are known position by position produces Painted. */
  lemma PaintedByCells(s: seq<byte>, t: seq<byte>, off: int, w: int, h: int, rule: Rule)
    requires Fits(|s|, off, w, h, rule) && |t| == |s|
    requires forall x, y | 0 <= x < w && 0 <= y < h :: t[off + x + y * Bps] == At(rule, s, off, x, y)
    requires forall i | 0 <= i < |s| && !InBlock(off, w, h, i) :: t[i] == s[i]
    ensures t == Painted(s, off, w, h, rule)
  {
    var p := Painted(s, off, w, h, rule);
    forall i | 0 <= i < |s| ensures t[i] == p[i] {
      if InBlock(off, w, h, i) {
        var x, y := Col(i, off), Row(i, off);
        assert i == off + x + y * Bps;
      }
    }
  }

  /** Memset: writes `v` into `count` consecutive samples from `start`. */
  method Memset(buf: array<byte>, v: byte, start: int, count: int)
    requires count <= 0 || (0 <= start && start + count <= buf.Length)
    modifies buf
    ensures forall i | 0 <= i < buf.Length :: buf[i] == if start <= i < start + count then v else old(buf[i])
  {
    var i := 0;
    while i < count
      invariant 0 <= i <= if count < 0 then 0 else count
      invariant forall k | 0 <= k < buf.Length :: buf[k] == if start <= k < start + i then v else old(buf[k])
    {
      buf[start + i] := v;
      i := i + 1;
    }
  }

  /** CopyTo of `count` samples from `from` to `to` within one buffer, the two runs disjoint. */
  method CopyRun(buf: array<byte>, from: int, to: int, count: int)
    requires 0 <= from && 0 <= count && from + count <= to && to + count <= buf.Length
    modifies buf
    ensures forall i | 0 <= i < buf.Length ::
      buf[i] == if to <= i < to + count then old(buf[from + i - to]) else old(buf[i])
  {
    var i := 0;
    while i < count
      invariant 0 <= i <= count
      invariant forall k | 0 <= k < buf.Length ::
        buf[k] == if to <= k < to + i then old(buf[from + k - to]) else old(buf[k])
    {
      buf[to + i] := buf[from + i];
      i := i + 1;
    }
  }

  /** Index of column x, row y of the block at `off`. */
  function Px(off: int, x: int, y: int): int {
    off + x + y * Bps
  }

  /** The 4x4 block at `off` as it stands in `s`, row by row. */
  ghost function Window4(s: seq<byte>, off: int): (blk: seq<int>)
    requires 0 <= off && off + 3 * Bps + 4 <= |s|
    ensures |blk| == 16
  {
    seq(16, k requires 0 <= k < 16 => s[Px(off, k % 4, k / 4)])
  }

  /** `s` with the 4x4 block at `off` replaced by the row-major `blk`. */
  ghost function Fill(s: seq<byte>, off: int, blk: seq<int>): (t: seq<int>)
    requires |blk| == 16
    ensures |t| == |s|
  {
    seq(|s|, i requires 0 <= i < |s| =>
      if InBlock(off, 4, 4, i) then blk[Col(i, off) + 4 * Row(i, off)] else s[i])
  }

  /** A buffer is its own block put back in place. */
  lemma FillWindow(s: seq<byte>, off: int)
    requires 0 <= off && off + 3 * Bps + 4 <= |s|
    ensures Fill(s, off, Window4(s, off)) == s
  {
    var f := Fill(s, off, Window4(s, off));
    forall i | 0 <= i < |s| ensures f[i] == s[i] {
      if InBlock(off, 4, 4, i) {
        var x, y := Col(i, off), Row(i, off);
        assert (x + 4 * y) % 4 == x && (x + 4 * y) / 4 == y;
      }
    }
  }

  /** A write at column x, row y of the block sets cell x + 4y of the block. */
  lemma FillWrite(s: seq<byte>, off: int, blk: seq<int>, x: int, y: int, v: byte)
    requires |blk| == 16 && 0 <= x < 4 && 0 <= y < 4 && 0 <= off && off + 3 * Bps + 4 <= |s|
    ensures Fill(s, off, blk)[Px(off, x, y) := v] == Fill(s, off, blk[x + 4 * y := v])
  {
    Coords(off, x, y);
    var t, u := Fill(s, off, blk)[Px(off, x, y) := v], Fill(s, off, blk[x + 4 * y := v]);
    forall i | 0 <= i < |s| ensures t[i] == u[i] {
      if InBlock(off, 4, 4, i) && i != Px(off, x, y) {
        assert i == Px(off, Col(i, off), Row(i, off));
      }
    }
  }

  /** `blk` holds what `rule` defines at each of the sixteen cells, spelled out. */
  predicate HoldsBlock(s: seq<byte>, off: int, blk: seq<int>, rule: Rule)
    requires Fits(|s|, off, 4, 4, rule) && |blk| == 16
  {
    && blk[0] == At(rule, s, off, 0, 0) && blk[1] == At(rule, s, off, 1, 0)
    && blk[2] == At(rule, s, off, 2, 0) && blk[3] == At(rule, s, off, 3, 0)
    && blk[4] == At(rule, s, off, 0, 1) && blk[5] == At(rule, s, off, 1, 1)
    && blk[6] == At(rule, s, off, 2, 1) && blk[7] == At(rule, s, off, 3, 1)
    && blk[8] == At(rule, s, off, 0, 2) && blk[9] == At(rule, s, off, 1, 2)
    && blk[10] == At(rule, s, off, 2, 2) && blk[11] == At(rule, s, off, 3, 2)
    && blk[12] == At(rule, s, off, 0, 3) && blk[13] == At(rule, s, off, 1, 3)
    && blk[14] == At(rule, s, off, 2, 3) && blk[15] == At(rule, s, off, 3, 3)
  }

  /** HoldsBlock read back at any column x and row y. */
  lemma HoldsBlockAt(s: seq<byte>, off: int, blk: seq<int>, rule: Rule)
    requires Fits(|s|, off, 4, 4, rule) && |blk| == 16 && HoldsBlock(s, off, blk, rule)
    ensures forall x, y | 0 <= x < 4 && 0 <= y < 4 :: blk[x + 4 * y] == At(rule, s, off, x, y)
  {
    forall x, y | 0 <= x < 4 && 0 <= y < 4
      ensures blk[x + 4 * y] == At(rule, s, off, x, y)
    {
      assert x == 0 || x == 1 || x == 2 || x == 3;
      assert y == 0 || y == 1 || y == 2 || y == 3;
    }
  }

  /** The block `rule` defines, put in place, is the painted buffer. */
  lemma FillPainted(s: seq<byte>, off: int, blk: seq<int>, rule: Rule)
    requires |blk| == 16 && Fits(|s|, off, 4, 4, rule) && HoldsBlock(s, off, blk, rule)
    ensures Fill(s, off, blk) == Painted(s, off, 4, 4, rule)
  {
    HoldsBlockAt(s, off, blk, rule);
    var t, p := Fill(s, off, blk), Painted(s, off, 4, 4, rule);
    forall i | 0 <= i < |s| ensures t[i] == p[i] {
      if InBlock(off, 4, 4, i) {
        var x, y := Col(i, off), Row(i, off);
        assert i == off + x + y * Bps;
      }
    }
  }

  /** Dst: sets column x, row y of the 4x4 block at `off`. */
  method Dst(buf: array<byte>, off: int, x: int, y: int, v: byte)
    requires 0 <= x < 4 && 0 <= y < 4 && 0 <= off && off + 3 * Bps + 4 <= buf.Length
    modifies buf
    ensures buf[..] == old(buf[..])[Px(off, x, y) := v]
  {
    buf[off + x + y * Bps] := v;
  }
}
