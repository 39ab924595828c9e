// The 4x4 intra prediction modes other than DC and TrueMotion, each as the
// closed form RFC 6386 section 12.3 gives for the sample at column x, row y.
//
// The samples around a 4x4 block whose top-left sample is at `off` in a buffer
// of row stride Bps are named as in the RFC:
//
//     X A B C D E F G H       X = corner, A..D = above, E..H = above-right
//     I . . . .
//     J . . . .               I..L = left column
//     K . . . .
//     L . . . .
//
// Top(s, off, i) is the sample above column i (i = -1 is X, 4..7 are E..H),
// Left(s, off, j) the sample left of row j, and Edge(s, off, k) the edge read
// from the bottom-left up and then rightwards: L K J I X A B C D.

module Modes4 {
  import opened Arith

  /** The eight 4x4 modes other than DC and TrueMotion. */
  datatype Mode4 = Ve | He | Rd | Vr | Ld | Vl | Hd | Hu

  /** The sample above column i of the block at `off` (the corner for i = -1). */
  function Top(s: seq<byte>, off: int, i: int): byte
    requires 0 <= off - Bps + i < |s|
  {
    s[off - Bps + i]
  }

  /** The sample left of row j of the block at `off` (the corner for j = -1). */
  function Left(s: seq<byte>, off: int, j: int): byte
    requires 0 <= off - 1 + j * Bps < |s|
  {
    s[off - 1 + j * Bps]
  }

  /** The edge E[0..8] = L K J I X A B C D. */
  function Edge(s: seq<byte>, off: int, k: int): byte
    requires 0 <= k <= 8 && Bps + 1 <= off && off - 1 + 3 * Bps < |s|
  {
    if k < 4 then Left(s, off, 3 - k) else Top(s, off, k - 5)
  }

  /** The block and the neighbours mode m reads are in a buffer of length `len`:
      the down-left modes read only the row above (with the above-right
      samples), the up-horizontal mode only the left column, the others the
      corner as well. */
  predicate Reads(m: Mode4, len: int, off: int) {
    && 0 <= off && off + 3 * Bps + 4 <= len
    && (if m == Ld || m == Vl then Bps <= off else if m == Hu then 1 <= off else Bps + 1 <= off)
  }

  /** The prediction of mode m for column x, row y (RFC 6386 section 12.3). */
  function ModeAt(m: Mode4, s: seq<byte>, off: int, x: int, y: int): byte
    requires Reads(m, |s|, off) && 0 <= x < 4 && 0 <= y < 4
  {
    match m
    case Ve => VeAt(s, off, x)
    case He => HeAt(s, off, y)
    case Rd => RdAt(s, off, x, y)
    case Vr => VrAt(s, off, x, y)
    case Ld => LdAt(s, off, x, y)
    case Vl => VlAt(s, off, x, y)
    case Hd => HdAt(s, off, x, y)
    case Hu => HuAt(s, off, x, y)
  }

  /** Vertical: the row above, smoothed; the same in every row. */
  function VeAt(s: seq<byte>, off: int, x: int): byte
    requires Reads(Ve, |s|, off) && 0 <= x < 4
  {
    Avg3(Top(s, off, x - 1), Top(s, off, x), Top(s, off, x + 1))
  }

  /** Horizontal: the left column, smoothed, the last sample repeated below it;
      the same in every column. */
  function HeAt(s: seq<byte>, off: int, y: int): byte
    requires Reads(He, |s|, off) && 0 <= y < 4
  {
    Avg3(Left(s, off, y - 1), Left(s, off, y), Left(s, off, if y == 3 then 3 else y + 1))
  }

  /** Down-right: constant along x - y, centred on E[4 + x - y]. */
  function RdAt(s: seq<byte>, off: int, x: int, y: int): byte
    requires Reads(Rd, |s|, off) && 0 <= x < 4 && 0 <= y < 4
  {
    Avg3(Edge(s, off, 5 + x - y), Edge(s, off, 4 + x - y), Edge(s, off, 3 + x - y))
  }

  /** Vertical-right: two-tap on even rows, three-tap on odd rows, the lower
      row pair the upper one shifted right by one; the first column of the
      lower rows continues down the edge. */
  function VrAt(s: seq<byte>, off: int, x: int, y: int): byte
    requires Reads(Vr, |s|, off) && 0 <= x < 4 && 0 <= y < 4
  {
    if x == 0 && y >= 2 then Avg3(Edge(s, off, 4 - y), Edge(s, off, 5 - y), Edge(s, off, 6 - y))
    else if y % 2 == 0 then Avg2(Edge(s, off, 4 + x - y / 2), Edge(s, off, 5 + x - y / 2))
    else Avg3(Edge(s, off, 3 + x - y / 2), Edge(s, off, 4 + x - y / 2), Edge(s, off, 5 + x - y / 2))
  }

  /** Down-left: constant along x + y, the last sample H repeated. */
  function LdAt(s: seq<byte>, off: int, x: int, y: int): byte
    requires Reads(Ld, |s|, off) && 0 <= x < 4 && 0 <= y < 4
  {
    Avg3(Top(s, off, x + y), Top(s, off, x + y + 1), Top(s, off, if x + y == 6 then 7 else x + y + 2))
  }

  /** Vertical-left: two-tap on even rows, three-tap on odd rows, the lower row
      pair the upper one shifted left by one; the last column of the lower rows
      breaks the pattern. */
  function VlAt(s: seq<byte>, off: int, x: int, y: int): byte
    requires Reads(Vl, |s|, off) && 0 <= x < 4 && 0 <= y < 4
  {
    if x == 3 && y >= 2 then Avg3(Top(s, off, y + 2), Top(s, off, y + 3), Top(s, off, y + 4))
    else if y % 2 == 0 then Avg2(Top(s, off, x + y / 2), Top(s, off, x + y / 2 + 1))
    else Avg3(Top(s, off, x + y / 2), Top(s, off, x + y / 2 + 1), Top(s, off, x + y / 2 + 2))
  }

  /** Horizontal-down: two-tap in even columns, three-tap in odd ones, the right
      column pair the left one shifted down by one; the top row continues
      along the edge. */
  function HdAt(s: seq<byte>, off: int, x: int, y: int): byte
    requires Reads(Hd, |s|, off) && 0 <= x < 4 && 0 <= y < 4
  {
    if x % 2 == 0 && 2 * y >= x then Avg2(Edge(s, off, 3 - y + x / 2), Edge(s, off, 4 - y + x / 2))
    else if x % 2 == 1 && 2 * y >= x - 1 then
      Avg3(Edge(s, off, 3 - y + x / 2), Edge(s, off, 4 - y + x / 2), Edge(s, off, 5 - y + x / 2))
    else Avg3(Edge(s, off, 2 + x), Edge(s, off, 3 + x), Edge(s, off, 4 + x))
  }

  /** Horizontal-up: along z = x + 2y, two-tap for even z and three-tap for odd
      z down the left column, L itself from z = 6 on. */
  function HuAt(s: seq<byte>, off: int, x: int, y: int): byte
    requires Reads(Hu, |s|, off) && 0 <= x < 4 && 0 <= y < 4
  {
    var z := x + 2 * y;
    if z > 5 then Left(s, off, 3)
    else if z % 2 == 0 then Avg2(Left(s, off, z / 2), Left(s, off, z / 2 + 1))
    else Avg3(Left(s, off, z / 2), Left(s, off, z / 2 + 1), Left(s, off, if z == 5 then 3 else z / 2 + 2))
  }

  /** Vertical-left: rows 2 and 3 repeat rows 0 and 1 one column to the left. */
  lemma VlShift(s: seq<byte>, off: int, x: int)
    requires Reads(Vl, |s|, off) && 0 <= x < 3
    ensures VlAt(s, off, x, 2) == VlAt(s, off, x + 1, 0)
    ensures VlAt(s, off, x, 3) == VlAt(s, off, x + 1, 1)
  {
    assert x + 2 / 2 == x + 1 + 0 / 2 && x + 3 / 2 == x + 1 + 1 / 2;
  }

  /** The samples above the block, from the corner X to H, by name. */
  lemma TopSamples(s: seq<byte>, off: int)
    requires Bps <= off && off <= |s|
    ensures Top(s, off, 0) == s[off - Bps] && Top(s, off, 1) == s[off + 1 - Bps]
    ensures Top(s, off, 2) == s[off + 2 - Bps] && Top(s, off, 3) == s[off + 3 - Bps]
    ensures Top(s, off, 4) == s[off + 4 - Bps] && Top(s, off, 5) == s[off + 5 - Bps]
    ensures Top(s, off, 6) == s[off + 6 - Bps] && Top(s, off, 7) == s[off + 7 - Bps]
  {
  }

  /** The left column I J K L by name. */
  lemma LeftSamples(s: seq<byte>, off: int)
    requires 1 <= off && off - 1 + 3 * Bps < |s|
    ensures Left(s, off, 0) == s[off - 1] && Left(s, off, 1) == s[off - 1 + Bps]
    ensures Left(s, off, 2) == s[off - 1 + 2 * Bps] && Left(s, off, 3) == s[off - 1 + 3 * Bps]
  {
  }

  /** The edge L K J I X A B C D by name. */
  lemma EdgeSamples(s: seq<byte>, off: int)
    requires Bps + 1 <= off && off + 3 * Bps + 4 <= |s|
    ensures Edge(s, off, 0) == s[off - 1 + 3 * Bps] && Edge(s, off, 1) == s[off - 1 + 2 * Bps]
    ensures Edge(s, off, 2) == s[off - 1 + Bps] && Edge(s, off, 3) == s[off - 1]
    ensures Edge(s, off, 4) == s[off - 1 - Bps] && Edge(s, off, 5) == s[off - Bps]
    ensures Edge(s, off, 6) == s[off + 1 - Bps] && Edge(s, off, 7) == s[off + 2 - Bps] && Edge(s, off, 8) == s[off + 3 - Bps]
  {
  }
}
