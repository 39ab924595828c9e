// The 4x4 sub-block predictors VE4, HE4 and the six directional modes of
// LossyUtils.cs. DC4 and TM4 are instances of the DC and TrueMotion kernels of
// module Predict. Each kernel here is proved to paint exactly the block that
// the closed form of RFC 6386 section 12.3 (module Modes4) defines, from the
// writes the source makes in the order it makes them.

module Predict4 {
  import opened Arith
  import opened Modes4
  import opened Block

  /** The row VE4_C builds: each sample above the block averaged with its
      two neighbours (X A B C D, and E). It is every row of the vertical
      prediction. */
  function VE4Row(s: seq<byte>, off: int): (v: seq<byte>)
    requires Reads(Ve, |s|, off)
    ensures |v| == 4
    ensures forall x, y | 0 <= x < 4 && 0 <= y < 4 :: v[x] == At(Dir(Ve), s, off, x, y)
  {
    [VeAt(s, off, 0), VeAt(s, off, 1), VeAt(s, off, 2), VeAt(s, off, 3)]
  }

  /** Copies the 4-sample row `vals` to `start` (the CopyTo of VE4_C). */
  method CopyRow(vals: seq<byte>, buf: array<byte>, start: int)
    requires |vals| == 4 && 0 <= start && start + 4 <= buf.Length
    modifies buf
    ensures forall i | 0 <= i < buf.Length :: buf[i] == if start <= i < start + 4 then vals[i - start] else old(buf[i])
  {
    for k := 0 to 4
      invariant forall i | 0 <= i < buf.Length :: buf[i] == if start <= i < start + k then vals[i - start] else old(buf[i])
    {
      buf[start + k] := vals[k];
    }
  }

  /** VE4_C. */
  method VE4(buf: array<byte>, off: int)
    requires Reads(Ve, buf.Length, off)
    modifies buf
    ensures buf[..] == Painted(old(buf[..]), off, 4, 4, Dir(Ve))
  {
    ghost var s := buf[..];
    var vals := VE4Row(buf[..], off);
    PaintedNone(s, off, 4, Dir(Ve));
    for i := 0 to 4
      invariant buf[..] == Painted(s, off, 4, i, Dir(Ve))
    {
      CopyRow(vals, buf, off + i * Bps);
      assert forall x | 0 <= x < 4 :: vals[x] == At(Dir(Ve), s, off, x, i);
      NextRowOf(s, off, 4, i, Dir(Ve), vals, buf[..]);
    }
  }

  /** Sets row y of a 4-wide block whose samples in that row are all `v`
      (one big-endian 32-bit store of v * 0x01010101). */
  method FillRow4(buf: array<byte>, ghost s: seq<byte>, off: int, y: int, ghost rule: Rule, v: byte)
    requires 0 <= y && |s| == buf.Length && Fits(|s|, off, 4, y + 1, rule)
    requires forall x | 0 <= x < 4 :: At(rule, s, off, x, y) == v
    requires buf[..] == Painted(s, off, 4, y, rule)
    modifies buf
    ensures buf[..] == Painted(s, off, 4, y + 1, rule)
  {
    Memset(buf, v, off + y * Bps, 4);
    NextRowOf(s, off, 4, y, rule, [v, v, v, v], buf[..]);
  }

  /** HE4_C. */
  method HE4(buf: array<byte>, off: int)
    requires Reads(He, buf.Length, off)
    modifies buf
    ensures buf[..] == Painted(old(buf[..]), off, 4, 4, Dir(He))
  {
    ghost var s := buf[..];
    var A := buf[off - 1 - Bps];
    var B := buf[off - 1];
    var C := buf[off - 1 + Bps];
    var D := buf[off - 1 + 2 * Bps];
    var E := buf[off - 1 + 3 * Bps];
    PaintedNone(s, off, 4, Dir(He));
    FillRow4(buf, s, off, 0, Dir(He), Avg3(A, B, C));
    FillRow4(buf, s, off, 1, Dir(He), Avg3(B, C, D));
    FillRow4(buf, s, off, 2, Dir(He), Avg3(C, D, E));
    FillRow4(buf, s, off, 3, Dir(He), Avg3(D, E, E));
  }

  /** The writes RD4_C makes, in its order, set the sixteen cells of the
      block and nothing else. */
  lemma RD4Writes(s: seq<byte>, off: int,
    jkl: byte, ijk: byte, xij: byte, axi: byte, bax: byte, cba: byte, dcb: byte)
    requires 0 <= off && off + 3 * Bps + 4 <= |s|
    ensures s[Px(off, 0, 3) := jkl][Px(off, 1, 3) := ijk][Px(off, 0, 2) := ijk][Px(off, 2, 3) := xij]
        [Px(off, 1, 2) := xij][Px(off, 0, 1) := xij][Px(off, 3, 3) := axi][Px(off, 2, 2) := axi]
        [Px(off, 1, 1) := axi][Px(off, 0, 0) := axi][Px(off, 3, 2) := bax][Px(off, 2, 1) := bax]
        [Px(off, 1, 0) := bax][Px(off, 3, 1) := cba][Px(off, 2, 0) := cba][Px(off, 3, 0) := dcb]
      == Fill(s, off, Window4(s, off)[12 := jkl][13 := ijk][8 := ijk][14 := xij][9 := xij][4 := xij]
        [15 := axi][10 := axi][5 := axi][0 := axi][11 := bax][6 := bax]
        [1 := bax][7 := cba][2 := cba][3 := dcb])
  {
    var blk := Window4(s, off);
    FillWindow(s, off);
    FillWrite(s, off, blk, 0, 3, jkl);
    blk := blk[12 := jkl];
    FillWrite(s, off, blk, 1, 3, ijk);
    blk := blk[13 := ijk];
    FillWrite(s, off, blk, 0, 2, ijk);
    blk := blk[8 := ijk];
    FillWrite(s, off, blk, 2, 3, xij);
    blk := blk[14 := xij];
    FillWrite(s, off, blk, 1, 2, xij);
    blk := blk[9 := xij];
    FillWrite(s, off, blk, 0, 1, xij);
    blk := blk[4 := xij];
    FillWrite(s, off, blk, 3, 3, axi);
    blk := blk[15 := axi];
    FillWrite(s, off, blk, 2, 2, axi);
    blk := blk[10 := axi];
    FillWrite(s, off, blk, 1, 1, axi);
    blk := blk[5 := axi];
    FillWrite(s, off, blk, 0, 0, axi);
    blk := blk[0 := axi];
    FillWrite(s, off, blk, 3, 2, bax);
    blk := blk[11 := bax];
    FillWrite(s, off, blk, 2, 1, bax);
    blk := blk[6 := bax];
    FillWrite(s, off, blk, 1, 0, bax);
    blk := blk[1 := bax];
    FillWrite(s, off, blk, 3, 1, cba);
    blk := blk[7 := cba];
    FillWrite(s, off, blk, 2, 0, cba);
    blk := blk[2 := cba];
    FillWrite(s, off, blk, 3, 0, dcb);
    blk := blk[3 := dcb];
  }

  /** The values RD4_C computes from the samples around the block, written
      in its order over any 4x4 block w, give the down-right prediction. */
  lemma RD4Holds(s: seq<byte>, off: int, w: seq<int>,
    jkl: byte, ijk: byte, xij: byte, axi: byte, bax: byte, cba: byte, dcb: byte)
    requires Reads(Rd, |s|, off) && |w| == 16
    requires var I, J, K, L := s[off - 1], s[off - 1 + Bps], s[off - 1 + 2 * Bps], s[off - 1 + 3 * Bps];
      var X, A, B, C := s[off - 1 - Bps], s[off - Bps], s[off + 1 - Bps], s[off + 2 - Bps];
      var D := s[off + 3 - Bps];
      jkl == Avg3(J, K, L) && ijk == Avg3(I, J, K) && xij == Avg3(X, I, J) &&
      axi == Avg3(A, X, I) && bax == Avg3(B, A, X) && cba == Avg3(C, B, A) &&
      dcb == Avg3(D, C, B)
    ensures Fill(s, off, w[12 := jkl][13 := ijk][8 := ijk][14 := xij][9 := xij]
        [4 := xij][15 := axi][10 := axi][5 := axi][0 := axi][11 := bax][6 := bax]
        [1 := bax][7 := cba][2 := cba][3 := dcb]) == Painted(s, off, 4, 4, Dir(Rd))
  {
    EdgeSamples(s, off);
    var b := w[12 := jkl][13 := ijk][8 := ijk][14 := xij][9 := xij]
        [4 := xij][15 := axi][10 := axi][5 := axi][0 := axi][11 := bax][6 := bax]
        [1 := bax][7 := cba][2 := cba][3 := dcb];
    assert b[0] == axi && b[1] == bax && b[2] == cba && b[3] == dcb;
    assert b[4] == xij && b[5] == axi && b[6] == bax && b[7] == cba;
    assert b[8] == ijk && b[9] == xij && b[10] == axi && b[11] == bax;
    assert b[12] == jkl && b[13] == ijk && b[14] == xij && b[15] == axi;
    FillPainted(s, off, b, Dir(Rd));
  }

  /** RD4_C. */
  method RD4(buf: array<byte>, off: int)
    requires Reads(Rd, buf.Length, off)
    modifies buf
    ensures buf[..] == Painted(old(buf[..]), off, 4, 4, Dir(Rd))
  {
    ghost var s := buf[..];
    var I := buf[off - 1];
    var J := buf[off - 1 + Bps];
    var K := buf[off - 1 + 2 * Bps];
    var L := buf[off - 1 + 3 * Bps];
    var X := buf[off - 1 - Bps];
    var A := buf[off - Bps];
    var B := buf[off + 1 - Bps];
    var C := buf[off + 2 - Bps];
    var D := buf[off + 3 - Bps];
    RD4Writes(s, off, Avg3(J, K, L), Avg3(I, J, K), Avg3(X, I, J), Avg3(A, X, I), Avg3(B, A, X), Avg3(C, B, A), Avg3(D, C, B));
    RD4Holds(s, off, Window4(s, off), Avg3(J, K, L), Avg3(I, J, K), Avg3(X, I, J), Avg3(A, X, I), Avg3(B, A, X), Avg3(C, B, A), Avg3(D, C, B));
    Dst(buf, off, 0, 3, Avg3(J, K, L));
    var ijk := Avg3(I, J, K);
    Dst(buf, off, 1, 3, ijk);
    Dst(buf, off, 0, 2, ijk);
    var xij := Avg3(X, I, J);
    Dst(buf, off, 2, 3, xij);
    Dst(buf, off, 1, 2, xij);
    Dst(buf, off, 0, 1, xij);
    var axi := Avg3(A, X, I);
    Dst(buf, off, 3, 3, axi);
    Dst(buf, off, 2, 2, axi);
    Dst(buf, off, 1, 1, axi);
    Dst(buf, off, 0, 0, axi);
    var bax := Avg3(B, A, X);
    Dst(buf, off, 3, 2, bax);
    Dst(buf, off, 2, 1, bax);
    Dst(buf, off, 1, 0, bax);
    var cba := Avg3(C, B, A);
    Dst(buf, off, 3, 1, cba);
    Dst(buf, off, 2, 0, cba);
    Dst(buf, off, 3, 0, Avg3(D, C, B));
  }

  /** The writes VR4_C makes, in its order, set the sixteen cells of the
      block and nothing else. */
  lemma VR4Writes(s: seq<byte>, off: int,
    xa: byte, ab: byte, bc: byte, cd: byte, kji: byte, jix: byte, ixa: byte, xab: byte, abc: byte, bcd: byte)
    requires 0 <= off && off + 3 * Bps + 4 <= |s|
    ensures s[Px(off, 0, 0) := xa][Px(off, 1, 2) := xa][Px(off, 1, 0) := ab][Px(off, 2, 2) := ab]
        [Px(off, 2, 0) := bc][Px(off, 3, 2) := bc][Px(off, 3, 0) := cd][Px(off, 0, 3) := kji]
        [Px(off, 0, 2) := jix][Px(off, 0, 1) := ixa][Px(off, 1, 3) := ixa][Px(off, 1, 1) := xab]
        [Px(off, 2, 3) := xab][Px(off, 2, 1) := abc][Px(off, 3, 3) := abc][Px(off, 3, 1) := bcd]
      == Fill(s, off, Window4(s, off)[0 := xa][9 := xa][1 := ab][10 := ab][2 := bc][11 := bc]
        [3 := cd][12 := kji][8 := jix][4 := ixa][13 := ixa][5 := xab]
        [14 := xab][6 := abc][15 := abc][7 := bcd])
  {
    var blk := Window4(s, off);
    FillWindow(s, off);
    FillWrite(s, off, blk, 0, 0, xa);
    blk := blk[0 := xa];
    FillWrite(s, off, blk, 1, 2, xa);
    blk := blk[9 := xa];
    FillWrite(s, off, blk, 1, 0, ab);
    blk := blk[1 := ab];
    FillWrite(s, off, blk, 2, 2, ab);
    blk := blk[10 := ab];
    FillWrite(s, off, blk, 2, 0, bc);
    blk := blk[2 := bc];
    FillWrite(s, off, blk, 3, 2, bc);
    blk := blk[11 := bc];
    FillWrite(s, off, blk, 3, 0, cd);
    blk := blk[3 := cd];
    FillWrite(s, off, blk, 0, 3, kji);
    blk := blk[12 := kji];
    FillWrite(s, off, blk, 0, 2, jix);
    blk := blk[8 := jix];
    FillWrite(s, off, blk, 0, 1, ixa);
    blk := blk[4 := ixa];
    FillWrite(s, off, blk, 1, 3, ixa);
    blk := blk[13 := ixa];
    FillWrite(s, off, blk, 1, 1, xab);
    blk := blk[5 := xab];
    FillWrite(s, off, blk, 2, 3, xab);
    blk := blk[14 := xab];
    FillWrite(s, off, blk, 2, 1, abc);
    blk := blk[6 := abc];
    FillWrite(s, off, blk, 3, 3, abc);
    blk := blk[15 := abc];
    FillWrite(s, off, blk, 3, 1, bcd);
    blk := blk[7 := bcd];
  }

  /** The values VR4_C computes from the samples around the block, written
      in its order over any 4x4 block w, give the vertical-right prediction. */
  lemma VR4Holds(s: seq<byte>, off: int, w: seq<int>,
    xa: byte, ab: byte, bc: byte, cd: byte, kji: byte, jix: byte, ixa: byte, xab: byte, abc: byte, bcd: byte)
    requires Reads(Vr, |s|, off) && |w| == 16
    requires var I, J, K, X := s[off - 1], s[off - 1 + Bps], s[off - 1 + 2 * Bps], s[off - 1 - Bps];
      var A, B, C, D := s[off - Bps], s[off + 1 - Bps], s[off + 2 - Bps], s[off + 3 - Bps];
      xa == Avg2(X, A) && ab == Avg2(A, B) && bc == Avg2(B, C) && cd == Avg2(C, D) &&
      kji == Avg3(K, J, I) && jix == Avg3(J, I, X) && ixa == Avg3(I, X, A) &&
      xab == Avg3(X, A, B) && abc == Avg3(A, B, C) && bcd == Avg3(B, C, D)
    ensures Fill(s, off, w[0 := xa][9 := xa][1 := ab][10 := ab][2 := bc][11 := bc]
        [3 := cd][12 := kji][8 := jix][4 := ixa][13 := ixa][5 := xab][14 := xab]
        [6 := abc][15 := abc][7 := bcd]) == Painted(s, off, 4, 4, Dir(Vr))
  {
    EdgeSamples(s, off);
    var b := w[0 := xa][9 := xa][1 := ab][10 := ab][2 := bc][11 := bc]
        [3 := cd][12 := kji][8 := jix][4 := ixa][13 := ixa][5 := xab][14 := xab]
        [6 := abc][15 := abc][7 := bcd];
    assert b[0] == xa && b[1] == ab && b[2] == bc && b[3] == cd;
    assert b[4] == ixa && b[5] == xab && b[6] == abc && b[7] == bcd;
    assert b[8] == jix && b[9] == xa && b[10] == ab && b[11] == bc;
    assert b[12] == kji && b[13] == ixa && b[14] == xab && b[15] == abc;
    FillPainted(s, off, b, Dir(Vr));
  }

  /** VR4_C. */
  method VR4(buf: array<byte>, off: int)
    requires Reads(Vr, buf.Length, off)
    modifies buf
    ensures buf[..] == Painted(old(buf[..]), off, 4, 4, Dir(Vr))
  {
    ghost var s := buf[..];
    var I := buf[off - 1];
    var J := buf[off - 1 + Bps];
    var K := buf[off - 1 + 2 * Bps];
    var X := buf[off - 1 - Bps];
    var A := buf[off - Bps];
    var B := buf[off + 1 - Bps];
    var C := buf[off + 2 - Bps];
    var D := buf[off + 3 - Bps];
    VR4Writes(s, off, Avg2(X, A), Avg2(A, B), Avg2(B, C), Avg2(C, D), Avg3(K, J, I), Avg3(J, I, X), Avg3(I, X, A), Avg3(X, A, B), Avg3(A, B, C), Avg3(B, C, D));
    VR4Holds(s, off, Window4(s, off), Avg2(X, A), Avg2(A, B), Avg2(B, C), Avg2(C, D), Avg3(K, J, I), Avg3(J, I, X), Avg3(I, X, A), Avg3(X, A, B), Avg3(A, B, C), Avg3(B, C, D));
    var xa := Avg2(X, A);
    Dst(buf, off, 0, 0, xa);
    Dst(buf, off, 1, 2, xa);
    var ab := Avg2(A, B);
    Dst(buf, off, 1, 0, ab);
    Dst(buf, off, 2, 2, ab);
    var bc := Avg2(B, C);
    Dst(buf, off, 2, 0, bc);
    Dst(buf, off, 3, 2, bc);
    Dst(buf, off, 3, 0, Avg2(C, D));
    Dst(buf, off, 0, 3, Avg3(K, J, I));
    Dst(buf, off, 0, 2, Avg3(J, I, X));
    var ixa := Avg3(I, X, A);
    Dst(buf, off, 0, 1, ixa);
    Dst(buf, off, 1, 3, ixa);
    var xab := Avg3(X, A, B);
    Dst(buf, off, 1, 1, xab);
    Dst(buf, off, 2, 3, xab);
    var abc := Avg3(A, B, C);
    Dst(buf, off, 2, 1, abc);
    Dst(buf, off, 3, 3, abc);
    Dst(buf, off, 3, 1, Avg3(B, C, D));
  }

  /** The writes LD4_C makes, in its order, set the sixteen cells of the
      block and nothing else. */
  lemma LD4Writes(s: seq<byte>, off: int,
    abc: byte, bcd: byte, cde: byte, def: byte, efg: byte, fgh: byte, ghh: byte)
    requires 0 <= off && off + 3 * Bps + 4 <= |s|
    ensures s[Px(off, 0, 0) := abc][Px(off, 1, 0) := bcd][Px(off, 0, 1) := bcd][Px(off, 2, 0) := cde]
        [Px(off, 1, 1) := cde][Px(off, 0, 2) := cde][Px(off, 3, 0) := def][Px(off, 2, 1) := def]
        [Px(off, 1, 2) := def][Px(off, 0, 3) := def][Px(off, 3, 1) := efg][Px(off, 2, 2) := efg]
        [Px(off, 1, 3) := efg][Px(off, 3, 2) := fgh][Px(off, 2, 3) := fgh][Px(off, 3, 3) := ghh]
      == Fill(s, off, Window4(s, off)[0 := abc][1 := bcd][4 := bcd][2 := cde][5 := cde][8 := cde]
        [3 := def][6 := def][9 := def][12 := def][7 := efg][10 := efg]
        [13 := efg][11 := fgh][14 := fgh][15 := ghh])
  {
    var blk := Window4(s, off);
    FillWindow(s, off);
    FillWrite(s, off, blk, 0, 0, abc);
    blk := blk[0 := abc];
    FillWrite(s, off, blk, 1, 0, bcd);
    blk := blk[1 := bcd];
    FillWrite(s, off, blk, 0, 1, bcd);
    blk := blk[4 := bcd];
    FillWrite(s, off, blk, 2, 0, cde);
    blk := blk[2 := cde];
    FillWrite(s, off, blk, 1, 1, cde);
    blk := blk[5 := cde];
    FillWrite(s, off, blk, 0, 2, cde);
    blk := blk[8 := cde];
    FillWrite(s, off, blk, 3, 0, def);
    blk := blk[3 := def];
    FillWrite(s, off, blk, 2, 1, def);
    blk := blk[6 := def];
    FillWrite(s, off, blk, 1, 2, def);
    blk := blk[9 := def];
    FillWrite(s, off, blk, 0, 3, def);
    blk := blk[12 := def];
    FillWrite(s, off, blk, 3, 1, efg);
    blk := blk[7 := efg];
    FillWrite(s, off, blk, 2, 2, efg);
    blk := blk[10 := efg];
    FillWrite(s, off, blk, 1, 3, efg);
    blk := blk[13 := efg];
    FillWrite(s, off, blk, 3, 2, fgh);
    blk := blk[11 := fgh];
    FillWrite(s, off, blk, 2, 3, fgh);
    blk := blk[14 := fgh];
    FillWrite(s, off, blk, 3, 3, ghh);
    blk := blk[15 := ghh];
  }

  /** The values LD4_C computes from the samples around the block, written
      in its order over any 4x4 block w, give the down-left prediction. */
  lemma LD4Holds(s: seq<byte>, off: int, w: seq<int>,
    abc: byte, bcd: byte, cde: byte, def: byte, efg: byte, fgh: byte, ghh: byte)
    requires Reads(Ld, |s|, off) && |w| == 16
    requires var A, B, C, D := s[off - Bps], s[off + 1 - Bps], s[off + 2 - Bps], s[off + 3 - Bps];
      var E, F, G, H := s[off + 4 - Bps], s[off + 5 - Bps], s[off + 6 - Bps], s[off + 7 - Bps];
      abc == Avg3(A, B, C) && bcd == Avg3(B, C, D) && cde == Avg3(C, D, E) &&
      def == Avg3(D, E, F) && efg == Avg3(E, F, G) && fgh == Avg3(F, G, H) &&
      ghh == Avg3(G, H, H)
    ensures Fill(s, off, w[0 := abc][1 := bcd][4 := bcd][2 := cde][5 := cde]
        [8 := cde][3 := def][6 := def][9 := def][12 := def][7 := efg][10 := efg]
        [13 := efg][11 := fgh][14 := fgh][15 := ghh]) == Painted(s, off, 4, 4, Dir(Ld))
  {
    TopSamples(s, off);
    var b := w[0 := abc][1 := bcd][4 := bcd][2 := cde][5 := cde]
        [8 := cde][3 := def][6 := def][9 := def][12 := def][7 := efg][10 := efg]
        [13 := efg][11 := fgh][14 := fgh][15 := ghh];
    assert b[0] == abc && b[1] == bcd && b[2] == cde && b[3] == def;
    assert b[4] == bcd && b[5] == cde && b[6] == def && b[7] == efg;
    assert b[8] == cde && b[9] == def && b[10] == efg && b[11] == fgh;
    assert b[12] == def && b[13] == efg && b[14] == fgh && b[15] == ghh;
    FillPainted(s, off, b, Dir(Ld));
  }

  /** LD4_C. */
  method LD4(buf: array<byte>, off: int)
    requires Reads(Ld, buf.Length, off)
    modifies buf
    ensures buf[..] == Painted(old(buf[..]), off, 4, 4, Dir(Ld))
  {
    ghost var s := buf[..];
    var A := buf[off - Bps];
    var B := buf[off + 1 - Bps];
    var C := buf[off + 2 - Bps];
    var D := buf[off + 3 - Bps];
    var E := buf[off + 4 - Bps];
    var F := buf[off + 5 - Bps];
    var G := buf[off + 6 - Bps];
    var H := buf[off + 7 - Bps];
    LD4Writes(s, off, Avg3(A, B, C), Avg3(B, C, D), Avg3(C, D, E), Avg3(D, E, F), Avg3(E, F, G), Avg3(F, G, H), Avg3(G, H, H));
    LD4Holds(s, off, Window4(s, off), Avg3(A, B, C), Avg3(B, C, D), Avg3(C, D, E), Avg3(D, E, F), Avg3(E, F, G), Avg3(F, G, H), Avg3(G, H, H));
    Dst(buf, off, 0, 0, Avg3(A, B, C));
    var bcd := Avg3(B, C, D);
    Dst(buf, off, 1, 0, bcd);
    Dst(buf, off, 0, 1, bcd);
    var cde := Avg3(C, D, E);
    Dst(buf, off, 2, 0, cde);
    Dst(buf, off, 1, 1, cde);
    Dst(buf, off, 0, 2, cde);
    var def := Avg3(D, E, F);
    Dst(buf, off, 3, 0, def);
    Dst(buf, off, 2, 1, def);
    Dst(buf, off, 1, 2, def);
    Dst(buf, off, 0, 3, def);
    var efg := Avg3(E, F, G);
    Dst(buf, off, 3, 1, efg);
    Dst(buf, off, 2, 2, efg);
    Dst(buf, off, 1, 3, efg);
    var fgh := Avg3(F, G, H);
    Dst(buf, off, 3, 2, fgh);
    Dst(buf, off, 2, 3, fgh);
    Dst(buf, off, 3, 3, Avg3(G, H, H));
  }

  /** The writes VL4_C makes, in its order, set the sixteen cells of the
      block and nothing else. */
  lemma VL4Writes(s: seq<byte>, off: int,
    ab: byte, bc: byte, cd: byte, de: byte, abc: byte, bcd: byte, cde: byte, def: byte, efg: byte, fgh: byte)
    requires 0 <= off && off + 3 * Bps + 4 <= |s|
    ensures s[Px(off, 0, 0) := ab][Px(off, 1, 0) := bc][Px(off, 0, 2) := bc][Px(off, 2, 0) := cd]
        [Px(off, 1, 2) := cd][Px(off, 3, 0) := de][Px(off, 2, 2) := de][Px(off, 0, 1) := abc]
        [Px(off, 1, 1) := bcd][Px(off, 0, 3) := bcd][Px(off, 2, 1) := cde][Px(off, 1, 3) := cde]
        [Px(off, 3, 1) := def][Px(off, 2, 3) := def][Px(off, 3, 2) := efg][Px(off, 3, 3) := fgh]
      == Fill(s, off, Window4(s, off)[0 := ab][1 := bc][8 := bc][2 := cd][9 := cd][3 := de]
        [10 := de][4 := abc][5 := bcd][12 := bcd][6 := cde][13 := cde]
        [7 := def][14 := def][11 := efg][15 := fgh])
  {
    var blk := Window4(s, off);
    FillWindow(s, off);
    FillWrite(s, off, blk, 0, 0, ab);
    blk := blk[0 := ab];
    FillWrite(s, off, blk, 1, 0, bc);
    blk := blk[1 := bc];
    FillWrite(s, off, blk, 0, 2, bc);
    blk := blk[8 := bc];
    FillWrite(s, off, blk, 2, 0, cd);
    blk := blk[2 := cd];
    FillWrite(s, off, blk, 1, 2, cd);
    blk := blk[9 := cd];
    FillWrite(s, off, blk, 3, 0, de);
    blk := blk[3 := de];
    FillWrite(s, off, blk, 2, 2, de);
    blk := blk[10 := de];
    FillWrite(s, off, blk, 0, 1, abc);
    blk := blk[4 := abc];
    FillWrite(s, off, blk, 1, 1, bcd);
    blk := blk[5 := bcd];
    FillWrite(s, off, blk, 0, 3, bcd);
    blk := blk[12 := bcd];
    FillWrite(s, off, blk, 2, 1, cde);
    blk := blk[6 := cde];
    FillWrite(s, off, blk, 1, 3, cde);
    blk := blk[13 := cde];
    FillWrite(s, off, blk, 3, 1, def);
    blk := blk[7 := def];
    FillWrite(s, off, blk, 2, 3, def);
    blk := blk[14 := def];
    FillWrite(s, off, blk, 3, 2, efg);
    blk := blk[11 := efg];
    FillWrite(s, off, blk, 3, 3, fgh);
    blk := blk[15 := fgh];
  }

  /** The values VL4_C computes from the samples around the block, written
      in its order over any 4x4 block w, give the vertical-left prediction. */
  lemma VL4Holds(s: seq<byte>, off: int, w: seq<int>,
    ab: byte, bc: byte, cd: byte, de: byte, abc: byte, bcd: byte, cde: byte, def: byte, efg: byte, fgh: byte)
    requires Reads(Vl, |s|, off) && |w| == 16
    requires var A, B, C, D := s[off - Bps], s[off + 1 - Bps], s[off + 2 - Bps], s[off + 3 - Bps];
      var E, F, G, H := s[off + 4 - Bps], s[off + 5 - Bps], s[off + 6 - Bps], s[off + 7 - Bps];
      ab == Avg2(A, B) && bc == Avg2(B, C) && cd == Avg2(C, D) && de == Avg2(D, E) &&
      abc == Avg3(A, B, C) && bcd == Avg3(B, C, D) && cde == Avg3(C, D, E) &&
      def == Avg3(D, E, F) && efg == Avg3(E, F, G) && fgh == Avg3(F, G, H)
    ensures Fill(s, off, w[0 := ab][1 := bc][8 := bc][2 := cd][9 := cd][3 := de]
        [10 := de][4 := abc][5 := bcd][12 := bcd][6 := cde][13 := cde][7 := def]
        [14 := def][11 := efg][15 := fgh]) == Painted(s, off, 4, 4, Dir(Vl))
  {
    TopSamples(s, off);
    var b := w[0 := ab][1 := bc][8 := bc][2 := cd][9 := cd][3 := de]
        [10 := de][4 := abc][5 := bcd][12 := bcd][6 := cde][13 := cde][7 := def]
        [14 := def][11 := efg][15 := fgh];
    assert b[0] == ab && b[1] == bc && b[2] == cd && b[3] == de;
    assert b[4] == abc && b[5] == bcd && b[6] == cde && b[7] == def;
    assert b[8] == bc && b[9] == cd && b[10] == de && b[11] == efg;
    assert b[12] == bcd && b[13] == cde && b[14] == def && b[15] == fgh;
    FillPainted(s, off, b, Dir(Vl));
  }

  /** VL4_C. */
  method VL4(buf: array<byte>, off: int)
    requires Reads(Vl, buf.Length, off)
    modifies buf
    ensures buf[..] == Painted(old(buf[..]), off, 4, 4, Dir(Vl))
  {
    ghost var s := buf[..];
    var A := buf[off - Bps];
    var B := buf[off + 1 - Bps];
    var C := buf[off + 2 - Bps];
    var D := buf[off + 3 - Bps];
    var E := buf[off + 4 - Bps];
    var F := buf[off + 5 - Bps];
    var G := buf[off + 6 - Bps];
    var H := buf[off + 7 - Bps];
    VL4Writes(s, off, Avg2(A, B), Avg2(B, C), Avg2(C, D), Avg2(D, E), Avg3(A, B, C), Avg3(B, C, D), Avg3(C, D, E), Avg3(D, E, F), Avg3(E, F, G), Avg3(F, G, H));
    VL4Holds(s, off, Window4(s, off), Avg2(A, B), Avg2(B, C), Avg2(C, D), Avg2(D, E), Avg3(A, B, C), Avg3(B, C, D), Avg3(C, D, E), Avg3(D, E, F), Avg3(E, F, G), Avg3(F, G, H));
    Dst(buf, off, 0, 0, Avg2(A, B));
    var bc := Avg2(B, C);
    Dst(buf, off, 1, 0, bc);
    Dst(buf, off, 0, 2, bc);
    var cd := Avg2(C, D);
    Dst(buf, off, 2, 0, cd);
    Dst(buf, off, 1, 2, cd);
    var de := Avg2(D, E);
    Dst(buf, off, 3, 0, de);
    Dst(buf, off, 2, 2, de);
    Dst(buf, off, 0, 1, Avg3(A, B, C));
    var bcd := Avg3(B, C, D);
    Dst(buf, off, 1, 1, bcd);
    Dst(buf, off, 0, 3, bcd);
    var cde := Avg3(C, D, E);
    Dst(buf, off, 2, 1, cde);
    Dst(buf, off, 1, 3, cde);
    var def := Avg3(D, E, F);
    Dst(buf, off, 3, 1, def);
    Dst(buf, off, 2, 3, def);
    Dst(buf, off, 3, 2, Avg3(E, F, G));
    Dst(buf, off, 3, 3, Avg3(F, G, H));
  }

  /** The writes HD4_C makes, in its order, set the sixteen cells of the
      block and nothing else. */
  lemma HD4Writes(s: seq<byte>, off: int,
    ix: byte, ji: byte, kj: byte, lk: byte, abc: byte, xab: byte, ixa: byte, jix: byte, kji: byte, lkj: byte)
    requires 0 <= off && off + 3 * Bps + 4 <= |s|
    ensures s[Px(off, 0, 0) := ix][Px(off, 2, 1) := ix][Px(off, 0, 1) := ji][Px(off, 2, 2) := ji]
        [Px(off, 0, 2) := kj][Px(off, 2, 3) := kj][Px(off, 0, 3) := lk][Px(off, 3, 0) := abc]
        [Px(off, 2, 0) := xab][Px(off, 1, 0) := ixa][Px(off, 3, 1) := ixa][Px(off, 1, 1) := jix]
        [Px(off, 3, 2) := jix][Px(off, 1, 2) := kji][Px(off, 3, 3) := kji][Px(off, 1, 3) := lkj]
      == Fill(s, off, Window4(s, off)[0 := ix][6 := ix][4 := ji][10 := ji][8 := kj][14 := kj]
        [12 := lk][3 := abc][2 := xab][1 := ixa][7 := ixa][5 := jix]
        [11 := jix][9 := kji][15 := kji][13 := lkj])
  {
    var blk := Window4(s, off);
    FillWindow(s, off);
    FillWrite(s, off, blk, 0, 0, ix);
    blk := blk[0 := ix];
    FillWrite(s, off, blk, 2, 1, ix);
    blk := blk[6 := ix];
    FillWrite(s, off, blk, 0, 1, ji);
    blk := blk[4 := ji];
    FillWrite(s, off, blk, 2, 2, ji);
    blk := blk[10 := ji];
    FillWrite(s, off, blk, 0, 2, kj);
    blk := blk[8 := kj];
    FillWrite(s, off, blk, 2, 3, kj);
    blk := blk[14 := kj];
    FillWrite(s, off, blk, 0, 3, lk);
    blk := blk[12 := lk];
    FillWrite(s, off, blk, 3, 0, abc);
    blk := blk[3 := abc];
    FillWrite(s, off, blk, 2, 0, xab);
    blk := blk[2 := xab];
    FillWrite(s, off, blk, 1, 0, ixa);
    blk := blk[1 := ixa];
    FillWrite(s, off, blk, 3, 1, ixa);
    blk := blk[7 := ixa];
    FillWrite(s, off, blk, 1, 1, jix);
    blk := blk[5 := jix];
    FillWrite(s, off, blk, 3, 2, jix);
    blk := blk[11 := jix];
    FillWrite(s, off, blk, 1, 2, kji);
    blk := blk[9 := kji];
    FillWrite(s, off, blk, 3, 3, kji);
    blk := blk[15 := kji];
    FillWrite(s, off, blk, 1, 3, lkj);
    blk := blk[13 := lkj];
  }

  /** The values HD4_C computes from the samples around the block, written
      in its order over any 4x4 block w, give the horizontal-down prediction. */
  lemma HD4Holds(s: seq<byte>, off: int, w: seq<int>,
    ix: byte, ji: byte, kj: byte, lk: byte, abc: byte, xab: byte, ixa: byte, jix: byte, kji: byte, lkj: byte)
    requires Reads(Hd, |s|, off) && |w| == 16
    requires var I, J, K, L := s[off - 1], s[off - 1 + Bps], s[off - 1 + 2 * Bps], s[off - 1 + 3 * Bps];
      var X, A, B, C := s[off - 1 - Bps], s[off - Bps], s[off + 1 - Bps], s[off + 2 - Bps];
      ix == Avg2(I, X) && ji == Avg2(J, I) && kj == Avg2(K, J) && lk == Avg2(L, K) &&
      abc == Avg3(A, B, C) && xab == Avg3(X, A, B) && ixa == Avg3(I, X, A) &&
      jix == Avg3(J, I, X) && kji == Avg3(K, J, I) && lkj == Avg3(L, K, J)
    ensures Fill(s, off, w[0 := ix][6 := ix][4 := ji][10 := ji][8 := kj][14 := kj]
        [12 := lk][3 := abc][2 := xab][1 := ixa][7 := ixa][5 := jix][11 := jix]
        [9 := kji][15 := kji][13 := lkj]) == Painted(s, off, 4, 4, Dir(Hd))
  {
    EdgeSamples(s, off);
    var b := w[0 := ix][6 := ix][4 := ji][10 := ji][8 := kj][14 := kj]
        [12 := lk][3 := abc][2 := xab][1 := ixa][7 := ixa][5 := jix][11 := jix]
        [9 := kji][15 := kji][13 := lkj];
    assert b[0] == ix && b[1] == ixa && b[2] == xab && b[3] == abc;
    assert b[4] == ji && b[5] == jix && b[6] == ix && b[7] == ixa;
    assert b[8] == kj && b[9] == kji && b[10] == ji && b[11] == jix;
    assert b[12] == lk && b[13] == lkj && b[14] == kj && b[15] == kji;
    FillPainted(s, off, b, Dir(Hd));
  }

  /** HD4_C. */
  method HD4(buf: array<byte>, off: int)
    requires Reads(Hd, buf.Length, off)
    modifies buf
    ensures buf[..] == Painted(old(buf[..]), off, 4, 4, Dir(Hd))
  {
    ghost var s := buf[..];
    var I := buf[off - 1];
    var J := buf[off - 1 + Bps];
    var K := buf[off - 1 + 2 * Bps];
    var L := buf[off - 1 + 3 * Bps];
    var X := buf[off - 1 - Bps];
    var A := buf[off - Bps];
    var B := buf[off + 1 - Bps];
    var C := buf[off + 2 - Bps];
    HD4Writes(s, off, Avg2(I, X), Avg2(J, I), Avg2(K, J), Avg2(L, K), Avg3(A, B, C), Avg3(X, A, B), Avg3(I, X, A), Avg3(J, I, X), Avg3(K, J, I), Avg3(L, K, J));
    HD4Holds(s, off, Window4(s, off), Avg2(I, X), Avg2(J, I), Avg2(K, J), Avg2(L, K), Avg3(A, B, C), Avg3(X, A, B), Avg3(I, X, A), Avg3(J, I, X), Avg3(K, J, I), Avg3(L, K, J));
    var ix := Avg2(I, X);
    Dst(buf, off, 0, 0, ix);
    Dst(buf, off, 2, 1, ix);
    var ji := Avg2(J, I);
    Dst(buf, off, 0, 1, ji);
    Dst(buf, off, 2, 2, ji);
    var kj := Avg2(K, J);
    Dst(buf, off, 0, 2, kj);
    Dst(buf, off, 2, 3, kj);
    Dst(buf, off, 0, 3, Avg2(L, K));
    Dst(buf, off, 3, 0, Avg3(A, B, C));
    Dst(buf, off, 2, 0, Avg3(X, A, B));
    var ixa := Avg3(I, X, A);
    Dst(buf, off, 1, 0, ixa);
    Dst(buf, off, 3, 1, ixa);
    var jix := Avg3(J, I, X);
    Dst(buf, off, 1, 1, jix);
    Dst(buf, off, 3, 2, jix);
    var kji := Avg3(K, J, I);
    Dst(buf, off, 1, 2, kji);
    Dst(buf, off, 3, 3, kji);
    Dst(buf, off, 1, 3, Avg3(L, K, J));
  }

  /** The writes HU4_C makes, in its order, set the sixteen cells of the
      block and nothing else. */
  lemma HU4Writes(s: seq<byte>, off: int,
    ij: byte, jk: byte, kl: byte, ijk: byte, jkl: byte, kll: byte, l: byte)
    requires 0 <= off && off + 3 * Bps + 4 <= |s|
    ensures s[Px(off, 0, 0) := ij][Px(off, 2, 0) := jk][Px(off, 0, 1) := jk][Px(off, 2, 1) := kl]
        [Px(off, 0, 2) := kl][Px(off, 1, 0) := ijk][Px(off, 3, 0) := jkl][Px(off, 1, 1) := jkl]
        [Px(off, 3, 1) := kll][Px(off, 1, 2) := kll][Px(off, 3, 2) := l][Px(off, 2, 2) := l]
        [Px(off, 0, 3) := l][Px(off, 1, 3) := l][Px(off, 2, 3) := l][Px(off, 3, 3) := l]
      == Fill(s, off, Window4(s, off)[0 := ij][2 := jk][4 := jk][6 := kl][8 := kl][1 := ijk]
        [3 := jkl][5 := jkl][7 := kll][9 := kll][11 := l][10 := l]
        [12 := l][13 := l][14 := l][15 := l])
  {
    var blk := Window4(s, off);
    FillWindow(s, off);
    FillWrite(s, off, blk, 0, 0, ij);
    blk := blk[0 := ij];
    FillWrite(s, off, blk, 2, 0, jk);
    blk := blk[2 := jk];
    FillWrite(s, off, blk, 0, 1, jk);
    blk := blk[4 := jk];
    FillWrite(s, off, blk, 2, 1, kl);
    blk := blk[6 := kl];
    FillWrite(s, off, blk, 0, 2, kl);
    blk := blk[8 := kl];
    FillWrite(s, off, blk, 1, 0, ijk);
    blk := blk[1 := ijk];
    FillWrite(s, off, blk, 3, 0, jkl);
    blk := blk[3 := jkl];
    FillWrite(s, off, blk, 1, 1, jkl);
    blk := blk[5 := jkl];
    FillWrite(s, off, blk, 3, 1, kll);
    blk := blk[7 := kll];
    FillWrite(s, off, blk, 1, 2, kll);
    blk := blk[9 := kll];
    FillWrite(s, off, blk, 3, 2, l);
    blk := blk[11 := l];
    FillWrite(s, off, blk, 2, 2, l);
    blk := blk[10 := l];
    FillWrite(s, off, blk, 0, 3, l);
    blk := blk[12 := l];
    FillWrite(s, off, blk, 1, 3, l);
    blk := blk[13 := l];
    FillWrite(s, off, blk, 2, 3, l);
    blk := blk[14 := l];
    FillWrite(s, off, blk, 3, 3, l);
    blk := blk[15 := l];
  }

  /** The values HU4_C computes from the samples around the block, written
      in its order over any 4x4 block w, give the horizontal-up prediction. */
  lemma HU4Holds(s: seq<byte>, off: int, w: seq<int>,
    ij: byte, jk: byte, kl: byte, ijk: byte, jkl: byte, kll: byte, l: byte)
    requires Reads(Hu, |s|, off) && |w| == 16
    requires var I, J, K, L := s[off - 1], s[off - 1 + Bps], s[off - 1 + 2 * Bps], s[off - 1 + 3 * Bps];
      ij == Avg2(I, J) && jk == Avg2(J, K) && kl == Avg2(K, L) && ijk == Avg3(I, J, K) &&
      jkl == Avg3(J, K, L) && kll == Avg3(K, L, L) && l == L
    ensures Fill(s, off, w[0 := ij][2 := jk][4 := jk][6 := kl][8 := kl][1 := ijk]
        [3 := jkl][5 := jkl][7 := kll][9 := kll][11 := l][10 := l][12 := l]
        [13 := l][14 := l][15 := l]) == Painted(s, off, 4, 4, Dir(Hu))
  {
    LeftSamples(s, off);
    var b := w[0 := ij][2 := jk][4 := jk][6 := kl][8 := kl][1 := ijk]
        [3 := jkl][5 := jkl][7 := kll][9 := kll][11 := l][10 := l][12 := l]
        [13 := l][14 := l][15 := l];
    assert b[0] == ij && b[1] == ijk && b[2] == jk && b[3] == jkl;
    assert b[4] == jk && b[5] == jkl && b[6] == kl && b[7] == kll;
    assert b[8] == kl && b[9] == kll && b[10] == l && b[11] == l;
    assert b[12] == l && b[13] == l && b[14] == l && b[15] == l;
    FillPainted(s, off, b, Dir(Hu));
  }

  /** HU4_C. */
  method HU4(buf: array<byte>, off: int)
    requires Reads(Hu, buf.Length, off)
    modifies buf
    ensures buf[..] == Painted(old(buf[..]), off, 4, 4, Dir(Hu))
  {
    ghost var s := buf[..];
    var I := buf[off - 1];
    var J := buf[off - 1 + Bps];
    var K := buf[off - 1 + 2 * Bps];
    var L := buf[off - 1 + 3 * Bps];
    HU4Writes(s, off, Avg2(I, J), Avg2(J, K), Avg2(K, L), Avg3(I, J, K), Avg3(J, K, L), Avg3(K, L, L), L);
    HU4Holds(s, off, Window4(s, off), Avg2(I, J), Avg2(J, K), Avg2(K, L), Avg3(I, J, K), Avg3(J, K, L), Avg3(K, L, L), L);
    Dst(buf, off, 0, 0, Avg2(I, J));
    var jk := Avg2(J, K);
    Dst(buf, off, 2, 0, jk);
    Dst(buf, off, 0, 1, jk);
    var kl := Avg2(K, L);
    Dst(buf, off, 2, 1, kl);
    Dst(buf, off, 0, 2, kl);
    Dst(buf, off, 1, 0, Avg3(I, J, K));
    var jkl := Avg3(J, K, L);
    Dst(buf, off, 3, 0, jkl);
    Dst(buf, off, 1, 1, jkl);
    var kll := Avg3(K, L, L);
    Dst(buf, off, 3, 1, kll);
    Dst(buf, off, 1, 2, kll);
    Dst(buf, off, 3, 2, L);
    Dst(buf, off, 2, 2, L);
    Dst(buf, off, 0, 3, L);
    Dst(buf, off, 1, 3, L);
    Dst(buf, off, 2, 3, L);
    Dst(buf, off, 3, 3, L);
  }

  // The shape of the 4x4 blocks, read off the painted buffer.

  /** VE4_C paints four identical rows. */
  lemma VE4Rows(s: seq<byte>, off: int, x: int, y: int)
    requires Reads(Ve, |s|, off) && 0 <= x < 4 && 0 <= y < 4
    ensures Painted(s, off, 4, 4, Dir(Ve))[Px(off, x, y)] == Painted(s, off, 4, 4, Dir(Ve))[Px(off, x, 0)]
  {
    PaintedAt(s, off, 4, 4, Dir(Ve), x, y);
    PaintedAt(s, off, 4, 4, Dir(Ve), x, 0);
  }

  /** HE4_C paints every row with a single value. */
  lemma HE4Rows(s: seq<byte>, off: int, x: int, y: int)
    requires Reads(He, |s|, off) && 0 <= x < 4 && 0 <= y < 4
    ensures Painted(s, off, 4, 4, Dir(He))[Px(off, x, y)] == Painted(s, off, 4, 4, Dir(He))[Px(off, 0, y)]
  {
    PaintedAt(s, off, 4, 4, Dir(He), x, y);
    PaintedAt(s, off, 4, 4, Dir(He), 0, y);
  }

  /** RD4_C is constant along each diagonal: (x, y) and (x + 1, y + 1) agree. */
  lemma RD4Diagonals(s: seq<byte>, off: int, x: int, y: int)
    requires Reads(Rd, |s|, off) && 0 <= x < 3 && 0 <= y < 3
    ensures Painted(s, off, 4, 4, Dir(Rd))[Px(off, x, y)] == Painted(s, off, 4, 4, Dir(Rd))[Px(off, x + 1, y + 1)]
  {
    PaintedAt(s, off, 4, 4, Dir(Rd), x, y);
    PaintedAt(s, off, 4, 4, Dir(Rd), x + 1, y + 1);
  }

  /** LD4_C is constant along each anti-diagonal: (x + 1, y) and (x, y + 1) agree. */
  lemma LD4AntiDiagonals(s: seq<byte>, off: int, x: int, y: int)
    requires Reads(Ld, |s|, off) && 0 <= x < 3 && 0 <= y < 3
    ensures Painted(s, off, 4, 4, Dir(Ld))[Px(off, x + 1, y)] == Painted(s, off, 4, 4, Dir(Ld))[Px(off, x, y + 1)]
  {
    PaintedAt(s, off, 4, 4, Dir(Ld), x + 1, y);
    PaintedAt(s, off, 4, 4, Dir(Ld), x, y + 1);
  }

  /** VL4_C: rows 2 and 3 are rows 0 and 1 shifted left by one, except in the
      last column (VL4LastColumn). */
  lemma VL4Shift(s: seq<byte>, off: int, x: int)
    requires Reads(Vl, |s|, off) && 0 <= x < 3
    ensures Painted(s, off, 4, 4, Dir(Vl))[Px(off, x, 2)] == Painted(s, off, 4, 4, Dir(Vl))[Px(off, x + 1, 0)]
    ensures Painted(s, off, 4, 4, Dir(Vl))[Px(off, x, 3)] == Painted(s, off, 4, 4, Dir(Vl))[Px(off, x + 1, 1)]
  {
    PaintedAt(s, off, 4, 4, Dir(Vl), x, 2);
    PaintedAt(s, off, 4, 4, Dir(Vl), x + 1, 0);
    PaintedAt(s, off, 4, 4, Dir(Vl), x, 3);
    PaintedAt(s, off, 4, 4, Dir(Vl), x + 1, 1);
    VlShift(s, off, x);
  }

  /** VL4_C: the last column of rows 2 and 3 breaks the shift and holds
      Avg3(E, F, G) and Avg3(F, G, H). */
  lemma VL4LastColumn(s: seq<byte>, off: int)
    requires Reads(Vl, |s|, off)
    ensures Painted(s, off, 4, 4, Dir(Vl))[Px(off, 3, 2)] == Avg3(s[off - Bps + 4], s[off - Bps + 5], s[off - Bps + 6])
    ensures Painted(s, off, 4, 4, Dir(Vl))[Px(off, 3, 3)] == Avg3(s[off - Bps + 5], s[off - Bps + 6], s[off - Bps + 7])
  {
    PaintedAt(s, off, 4, 4, Dir(Vl), 3, 2);
    PaintedAt(s, off, 4, 4, Dir(Vl), 3, 3);
    TopSamples(s, off);
  }

  /** HU4_C: the bottom row and the last two samples of row 2 are all L, the
      lowest sample of the left column. */
  lemma HU4Corner(s: seq<byte>, off: int, x: int)
    requires Reads(Hu, |s|, off) && 0 <= x < 4
    ensures Painted(s, off, 4, 4, Dir(Hu))[Px(off, x, 3)] == s[off - 1 + 3 * Bps]
    ensures Painted(s, off, 4, 4, Dir(Hu))[Px(off, 2, 2)] == s[off - 1 + 3 * Bps]
    ensures Painted(s, off, 4, 4, Dir(Hu))[Px(off, 3, 2)] == s[off - 1 + 3 * Bps]
  {
    PaintedAt(s, off, 4, 4, Dir(Hu), x, 3);
    PaintedAt(s, off, 4, 4, Dir(Hu), 2, 2);
    PaintedAt(s, off, 4, 4, Dir(Hu), 3, 2);
  }
}
