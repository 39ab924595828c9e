// The in-loop deblocking filters of LossyUtils.cs (RFC 6386 section 15): the
// simple filter of section 15.2 and the normal filter of section 15.3, on a
// plane of samples seen as one byte array. An edge is filtered at positions
// pos = off + i*adv (i = 0 .. n-1); at each position the samples across the
// edge are pos + k*step, with p0 = pos - step, q0 = pos and so on. Every test
// and every DoFilter is a function of the plane before that position, so the
// whole run over an edge is the recursive function Run, which follows the
// order of the source's loop.

module Filter {
  import opened Arith

  /** The samples pos - before*step .. pos + after*step lie in a plane of length len. */
  predicate Taps(len: int, pos: int, step: int, before: int, after: int) {
    0 <= step && 0 <= pos - before * step && pos + after * step < len
  }

  /** The four samples p1, p0, q0, q1 across the edge at `pos`. */
  function P1(s: seq<byte>, pos: int, step: int): byte
    requires Taps(|s|, pos, step, 2, 1)
  {
    s[pos - 2 * step]
  }

  function P0(s: seq<byte>, pos: int, step: int): byte
    requires Taps(|s|, pos, step, 2, 1)
  {
    s[pos - step]
  }

  function Q0(s: seq<byte>, pos: int, step: int): byte
    requires Taps(|s|, pos, step, 2, 1)
  {
    s[pos]
  }

  function Q1(s: seq<byte>, pos: int, step: int): byte
    requires Taps(|s|, pos, step, 2, 1)
  {
    s[pos + step]
  }

  /** NeedsFilter as written: some side of the edge varies by more than t.
      (Section 15.2 of RFC 6386 tests 4|p0 - q0| + |p1 - q1| <= t instead.) */
  function NeedsFilter(s: seq<byte>, pos: int, step: int, t: int): bool
    requires Taps(|s|, pos, step, 2, 1)
  {
    Abs0(P1(s, pos, step) as int - P0(s, pos, step)) > t || Abs0(Q1(s, pos, step) as int - Q0(s, pos, step)) > t
  }

  /** High edge variance: p1 - p0 or q1 - q0 exceeds the threshold. */
  function Hev(s: seq<byte>, pos: int, step: int, t: int): bool
    requires Taps(|s|, pos, step, 2, 1)
  {
    Abs0(P1(s, pos, step) as int - P0(s, pos, step)) > t || Abs0(Q1(s, pos, step) as int - Q0(s, pos, step)) > t
  }

  /** The normal filter's test: the edge difference 4|p0 - q0| + |p1 - q1| is
      at most t and each of the six interior differences at most it. */
  function NeedsFilter2(s: seq<byte>, pos: int, step: int, t: int, it: int): bool
    requires Taps(|s|, pos, step, 4, 3)
  {
    var p3: int, p2: int, p1: int, p0: int := s[pos - 4 * step], s[pos - 3 * step], s[pos - 2 * step], s[pos - step];
    var q0: int, q1: int, q2: int, q3: int := s[pos], s[pos + step], s[pos + 2 * step], s[pos + 3 * step];
    if 4 * Abs0(p0 - q0) + Abs0(p1 - q1) > t then false
    else
      Abs0(p3 - p2) <= it && Abs0(p2 - p1) <= it && Abs0(p1 - p0) <= it
      && Abs0(q3 - q2) <= it && Abs0(q2 - q1) <= it && Abs0(q1 - q0) <= it
  }

  /** DoFilter2: 4 samples in, p0 and q0 out. */
  function Filter2(s: seq<byte>, pos: int, step: int): (r: seq<byte>)
    requires Taps(|s|, pos, step, 2, 1)
    ensures |r| == |s|
  {
    var p1: int, p0: int, q0: int, q1: int := P1(s, pos, step), P0(s, pos, step), Q0(s, pos, step), Q1(s, pos, step);
    var a := 3 * (q0 - p0) + Sclip1(p1 - q1);
    var a1 := Sclip2(Shr(a + 4, 3));
    var a2 := Sclip2(Shr(a + 3, 3));
    s[pos - step := Clip1(p0 + a2)][pos := Clip1(q0 - a1)]
  }

  /** DoFilter4: 4 samples in, p1, p0, q0 and q1 out. */
  function Filter4(s: seq<byte>, pos: int, step: int): (r: seq<byte>)
    requires Taps(|s|, pos, step, 2, 1)
    ensures |r| == |s|
  {
    var p1: int, p0: int, q0: int, q1: int := P1(s, pos, step), P0(s, pos, step), Q0(s, pos, step), Q1(s, pos, step);
    var a := 3 * (q0 - p0);
    var a1 := Sclip2(Shr(a + 4, 3));
    var a2 := Sclip2(Shr(a + 3, 3));
    var a3 := Shr(a1 + 1, 1);
    s[pos - 2 * step := Clip1(p1 + a3)][pos - step := Clip1(p0 + a2)][pos := Clip1(q0 - a1)][pos + step := Clip1(q1 - a3)]
  }

  /** DoFilter6 as written: 6 samples in, p2 .. q2 out; `a` is clamped with the
      unsigned Clip1 at both places. */
  function Filter6(s: seq<byte>, pos: int, step: int): (r: seq<byte>)
    requires Taps(|s|, pos, step, 3, 2)
    ensures |r| == |s|
  {
    var p2: int, p1: int, p0: int := s[pos - 3 * step], s[pos - 2 * step], s[pos - step];
    var q0: int, q1: int, q2: int := s[pos], s[pos + step], s[pos + 2 * step];
    var a: int := Clip1(3 * (q0 - p0) + Clip1(p1 - q1));
    var a1 := Shr(27 * a + 63, 7);
    var a2 := Shr(18 * a + 63, 7);
    var a3 := Shr(9 * a + 63, 7);
    s[pos - 3 * step := Clip1(p2 + a3)][pos - 2 * step := Clip1(p1 + a2)][pos - step := Clip1(p0 + a1)]
     [pos := Clip1(q0 - a1)][pos + step := Clip1(q1 - a2)][pos + 2 * step := Clip1(q2 - a3)]
  }

  /** The three edge filters and the thresholds each is run with. */
  datatype EdgeFilter =
    | Simple(thresh2: int)                                   // SimpleV/HFilter16: NeedsFilter, DoFilter2
    | Inner(thresh2: int, ithresh: int, hevThresh: int)      // FilterLoop24: NeedsFilter2, Hev, DoFilter2/4
    | MacroBlock(thresh2: int, ithresh: int, hevThresh: int) // FilterLoop26: NeedsFilter2, Hev, DoFilter2/6

  /** How many samples before the edge a filter reads; it reads one fewer after. */
  function Reach(f: EdgeFilter): int {
    if f.Simple? then 2 else 4
  }

  /** One position of an edge: the test, then the filter it selects. */
  function Apply(s: seq<byte>, pos: int, step: int, f: EdgeFilter): (r: seq<byte>)
    requires Taps(|s|, pos, step, Reach(f), Reach(f) - 1)
    ensures |r| == |s|
  {
    match f
    case Simple(t2) =>
      if NeedsFilter(s, pos, step, t2) then Filter2(s, pos, step) else s
    case Inner(t2, it, hev) =>
      if !NeedsFilter2(s, pos, step, t2, it) then s
      else if Hev(s, pos, step, hev) then Filter2(s, pos, step)
      else Filter4(s, pos, step)
    case MacroBlock(t2, it, hev) =>
      if !NeedsFilter2(s, pos, step, t2, it) then s
      else if Hev(s, pos, step, hev) then Filter2(s, pos, step)
      else Filter6(s, pos, step)
  }

  /** Every position of an n-position edge, off, off + adv, ..., has its
      taps in the plane. */
  predicate RunFits(len: int, off: int, step: int, adv: int, n: int, f: EdgeFilter)
    decreases n, off
  {
    n <= 0 || (0 <= adv && Taps(len, off, step, Reach(f), Reach(f) - 1) && RunFits(len, off + adv, step, adv, n - 1, f))
  }

  /** The positions of a fitting run advance, and its last one fits. */
  lemma {:induction false} RunSpan(len: int, off: int, step: int, adv: int, n: int, f: EdgeFilter)
    requires RunFits(len, off, step, adv, n, f) && 0 < n
    ensures 0 <= adv && 0 <= (n - 1) * adv && off + (n - 1) * adv + (Reach(f) - 1) * step < len
    ensures off + adv + (n - 1 - 1) * adv == off + (n - 1) * adv
    decreases n
  {
    if n > 1 {
      RunSpan(len, off + adv, step, adv, n - 1, f);
    }
  }

  /** The edge filtered at positions off, off + adv, ..., off + (n-1)*adv in
      turn: the loop of SimpleV/HFilter16 and of FilterLoop24/26. */
  function Run(s: seq<byte>, off: int, step: int, adv: int, n: int, f: EdgeFilter): (r: seq<byte>)
    requires RunFits(|s|, off, step, adv, n, f)
    ensures |r| == |s|
    decreases n, off, 1
  {
    if n <= 0 then s else Next(s, off, step, adv, n, f)
  }

  /** A run of n > 0 positions: the first position filtered, then the rest. */
  function Next(s: seq<byte>, off: int, step: int, adv: int, n: int, f: EdgeFilter): (r: seq<byte>)
    requires RunFits(|s|, off, step, adv, n, f) && 0 < n
    ensures |r| == |s|
    decreases n, off, 0
  {
    Run(Apply(s, off, step, f), off + adv, step, adv, n - 1, f)
  }

  /** The first position of a run is filtered before the others. */
  lemma RunFirst(s: seq<byte>, off: int, step: int, adv: int, n: int, f: EdgeFilter)
    requires RunFits(|s|, off, step, adv, n, f) && 0 < n
    ensures RunFits(|s|, off + adv, step, adv, n - 1, f) && Taps(|s|, off, step, Reach(f), Reach(f) - 1)
    ensures Run(s, off, step, adv, n, f) == Run(Apply(s, off, step, f), off + adv, step, adv, n - 1, f)
  {
  }

  /** One position of a run filtered: the rest of the run starts from the
      filtered plane. */
  lemma RunStep(before: seq<byte>, after: seq<byte>, off: int, step: int, adv: int, n: int, f: EdgeFilter)
    requires RunFits(|before|, off, step, adv, n, f) && 0 < n
    requires Taps(|before|, off, step, Reach(f), Reach(f) - 1) && after == Apply(before, off, step, f)
    ensures RunFits(|after|, off + adv, step, adv, n - 1, f)
    ensures Run(after, off + adv, step, adv, n - 1, f) == Run(before, off, step, adv, n, f)
  {
    RunFirst(before, off, step, adv, n, f);
  }

  /** The first of the remaining inner edges is filtered before the others. */
  lemma EdgesFirst(s: seq<byte>, off: int, d: int, j: int, step: int, adv: int, n: int, f: EdgeFilter)
    requires EdgesFit(|s|, off, d, j, step, adv, n, f) && 0 < j
    ensures RunFits(|s|, off + d, step, adv, n, f)
    ensures EdgesFit(|s|, off + d, d, j - 1, step, adv, n, f)
    ensures Edges(s, off, d, j, step, adv, n, f) == Edges(Run(s, off + d, step, adv, n, f), off + d, d, j - 1, step, adv, n, f)
  {
  }

  /** The three inner edges at off + d, off + 2d, off + 3d of the *16i and
      *8i filters, of which the last j remain: each of them fits. */
  predicate EdgesFit(len: int, off: int, d: int, j: int, step: int, adv: int, n: int, f: EdgeFilter) {
    && 0 <= j <= 3 && 0 <= d
    && (1 <= j ==> RunFits(len, off + d, step, adv, n, f))
    && (2 <= j ==> RunFits(len, off + 2 * d, step, adv, n, f))
    && (3 <= j ==> RunFits(len, off + 3 * d, step, adv, n, f))
  }

  /** j inner edges, each `offset += d` and then a run at the new offset: the
      loop `for (k = 3; k > 0; --k)` of the *16i filters. */
  function Edges(s: seq<byte>, off: int, d: int, j: int, step: int, adv: int, n: int, f: EdgeFilter): (r: seq<byte>)
    requires EdgesFit(|s|, off, d, j, step, adv, n, f)
    ensures |r| == |s|
    decreases j
  {
    if j == 0 then s
    else Edges(Run(s, off + d, step, adv, n, f), off + d, d, j - 1, step, adv, n, f)
  }

  // ---------------------------------------------------------------------
  // Properties of the edge functions

  /** NeedsFilter and Hev are the same test: the simple filter runs exactly
      where the normal filter would call the edge high-variance. */
  lemma NeedsFilterIsHev(s: seq<byte>, pos: int, step: int, t: int)
    requires Taps(|s|, pos, step, 2, 1)
    ensures NeedsFilter(s, pos, step, t) == Hev(s, pos, step, t)
    ensures NeedsFilter(s, pos, step, t) <==> Abs0(P1(s, pos, step) as int - P0(s, pos, step)) > t || Abs0(Q1(s, pos, step) as int - Q0(s, pos, step)) > t
  {
  }

  /** DoFilter2 writes p0 and q0 only. */
  lemma Filter2Frame(s: seq<byte>, pos: int, step: int, k: int)
    requires Taps(|s|, pos, step, 2, 1) && 0 <= k < |s| && k != pos - step && k != pos
    ensures Filter2(s, pos, step)[k] == s[k]
  {
  }

  /** DoFilter4 writes p1, p0, q0 and q1 only. */
  lemma Filter4Frame(s: seq<byte>, pos: int, step: int, k: int)
    requires Taps(|s|, pos, step, 2, 1) && 0 <= k < |s|
    requires k != pos - 2 * step && k != pos - step && k != pos && k != pos + step
    ensures Filter4(s, pos, step)[k] == s[k]
  {
  }

  /** DoFilter6 writes p2 .. q2 only. */
  lemma Filter6Frame(s: seq<byte>, pos: int, step: int, k: int)
    requires Taps(|s|, pos, step, 3, 2) && 0 <= k < |s|
    requires k != pos - 3 * step && k != pos - 2 * step && k != pos - step
    requires k != pos && k != pos + step && k != pos + 2 * step
    ensures Filter6(s, pos, step)[k] == s[k]
  {
  }

  /** Samples s[lo..hi] (inclusive) all equal s[lo]. */
  predicate Flat(s: seq<byte>, lo: int, hi: int) {
    0 <= lo <= hi < |s| && forall i | lo <= i <= hi :: s[i] == s[lo]
  }

  /** On a flat window every DoFilter leaves the samples as they are: the
      adjustment `a` is 0, and so are a1, a2 and a3. */
  lemma FiltersKeepFlat(s: seq<byte>, pos: int, step: int)
    requires Taps(|s|, pos, step, 3, 2) && Flat(s, pos - 3 * step, pos + 2 * step)
    ensures Filter2(s, pos, step) == s && Filter4(s, pos, step) == s && Filter6(s, pos, step) == s
  {
    var c := s[pos - 3 * step];
    assert s[pos - 2 * step] == c && s[pos - step] == c && s[pos] == c && s[pos + step] == c && s[pos + 2 * step] == c;
    Filter6KeepsLevel(s, pos, step, c);
    assert Shr(4, 3) == 0 && Shr(3, 3) == 0 && Shr(1, 1) == 0;
  }

  /** DoFilter6 where its six samples are all c. */
  lemma Filter6KeepsLevel(s: seq<byte>, pos: int, step: int, c: byte)
    requires Taps(|s|, pos, step, 3, 2)
    requires s[pos - 3 * step] == c && s[pos - 2 * step] == c && s[pos - step] == c
    requires s[pos] == c && s[pos + step] == c && s[pos + 2 * step] == c
    ensures Filter6(s, pos, step) == s
  {
    assert Shr(63, 7) == 0;
  }

  /** On a flat window the normal filter's test passes exactly when both
      thresholds are non-negative: there is nothing to exceed them. */
  lemma NeedsFilter2Flat(s: seq<byte>, pos: int, step: int, t: int, it: int)
    requires Taps(|s|, pos, step, 4, 3) && Flat(s, pos - 4 * step, pos + 3 * step)
    ensures NeedsFilter2(s, pos, step, t, it) <==> 0 <= t && 0 <= it
  {
    var c := s[pos - 4 * step];
    assert s[pos - 3 * step] == c && s[pos - 2 * step] == c && s[pos - step] == c;
    assert s[pos] == c && s[pos + step] == c && s[pos + 2 * step] == c && s[pos + 3 * step] == c;
  }

  /** Filtering one position changes nothing outside pos - 3*step .. pos + 2*step. */
  lemma ApplyFrame(s: seq<byte>, pos: int, step: int, f: EdgeFilter, k: int)
    requires Taps(|s|, pos, step, Reach(f), Reach(f) - 1) && 0 <= k < |s|
    requires k < pos - 3 * step || pos + 2 * step < k
    ensures Apply(s, pos, step, f)[k] == s[k]
  {
  }

  /** A sample that filtering one position changes is one the selected filter
      writes: none when the test fails, p0 and q0 for DoFilter2 (the simple
      filter, or high edge variance), p1 .. q1 for DoFilter4 at an inner edge
      and p2 .. q2 for DoFilter6 at a macroblock edge. */
  lemma ApplyWrites(s: seq<byte>, pos: int, step: int, f: EdgeFilter, k: int)
    requires Taps(|s|, pos, step, Reach(f), Reach(f) - 1) && 0 <= k < |s|
    requires Apply(s, pos, step, f)[k] != s[k]
    ensures f.Simple? ==> NeedsFilter(s, pos, step, f.thresh2) && k in {pos - step, pos}
    ensures !f.Simple? ==> NeedsFilter2(s, pos, step, f.thresh2, f.ithresh)
    ensures !f.Simple? && Hev(s, pos, step, f.hevThresh) ==> k in {pos - step, pos}
    ensures f.Inner? ==> k in {pos - 2 * step, pos - step, pos, pos + step}
    ensures f.MacroBlock? ==> k in {pos - 3 * step, pos - 2 * step, pos - step, pos, pos + step, pos + 2 * step}
  {
    if k != pos - step && k != pos {
      Filter2Frame(s, pos, step, k);
    }
    if !f.Simple? && k != pos - 2 * step && k != pos - step && k != pos && k != pos + step {
      Filter4Frame(s, pos, step, k);
      if k != pos - 3 * step && k != pos + 2 * step {
        Filter6Frame(s, pos, step, k);
      }
    }
  }

  /** Filtering one position of a flat stretch changes nothing. */
  lemma ApplyFlat(s: seq<byte>, pos: int, step: int, f: EdgeFilter)
    requires Taps(|s|, pos, step, Reach(f), Reach(f) - 1)
    requires Flat(s, pos - Reach(f) * step, pos + (Reach(f) - 1) * step)
    ensures Apply(s, pos, step, f) == s
  {
    var lo := pos - Reach(f) * step;
    if !f.Simple? {
      assert Flat(s, pos - 3 * step, pos + 2 * step) by {
        forall i | pos - 3 * step <= i <= pos + 2 * step
          ensures s[i] == s[pos - 3 * step]
        {
          assert s[i] == s[lo] && s[pos - 3 * step] == s[lo];
        }
      }
      FiltersKeepFlat(s, pos, step);
    } else {
      var c := s[lo];
      assert s[pos - step] == c && s[pos] == c && s[pos + step] == c;
      assert Shr(4, 3) == 0 && Shr(3, 3) == 0;
    }
  }

  /** A run changes nothing outside off - 3*step .. off + (n-1)*adv + 2*step. */
  lemma {:induction false} RunFrame(s: seq<byte>, off: int, step: int, adv: int, n: int, f: EdgeFilter, k: int)
    requires RunFits(|s|, off, step, adv, n, f) && 0 <= k < |s|
    requires k < off - 3 * step || off + (n - 1) * adv + 2 * step < k
    ensures Run(s, off, step, adv, n, f)[k] == s[k]
    decreases n
  {
    if n > 0 {
      RunSpan(|s|, off, step, adv, n, f);
      RunFirst(s, off, step, adv, n, f);
      var t := Apply(s, off, step, f);
      ApplyFrame(s, off, step, f, k);
      RunFrame(t, off + adv, step, adv, n - 1, f, k);
    }
  }

  /** A run over a flat stretch changes nothing: every test sees a flat window. */
  lemma {:induction false} RunFlat(s: seq<byte>, off: int, step: int, adv: int, n: int, f: EdgeFilter)
    requires RunFits(|s|, off, step, adv, n, f) && 0 < n
    requires Flat(s, off - Reach(f) * step, off + (n - 1) * adv + (Reach(f) - 1) * step)
    ensures Run(s, off, step, adv, n, f) == s
    decreases n
  {
    var lo, hi := off - Reach(f) * step, off + (n - 1) * adv + (Reach(f) - 1) * step;
    RunSpan(|s|, off, step, adv, n, f);
    RunFirst(s, off, step, adv, n, f);
    FlatWithin(s, lo, hi, lo, off + (Reach(f) - 1) * step);
    ApplyFlat(s, off, step, f);
    if n > 1 {
      RunSpan(|s|, off + adv, step, adv, n - 1, f);
      FlatWithin(s, lo, hi, off + adv - Reach(f) * step, hi);
      RunFlat(s, off + adv, step, adv, n - 1, f);
    }
  }

  /** A stretch inside a flat stretch is flat. */
  lemma FlatWithin(s: seq<byte>, lo: int, hi: int, lo': int, hi': int)
    requires 0 <= lo <= lo' <= hi' <= hi < |s| && Flat(s, lo, hi)
    ensures Flat(s, lo', hi')
  {
    forall i | lo' <= i <= hi'
      ensures s[i] == s[lo']
    {
      assert s[i] == s[lo] && s[lo'] == s[lo];
    }
  }

  /** A constant plane is flat on every stretch. */
  lemma ConstantFlat(s: seq<byte>, lo: int, hi: int)
    requires 0 <= lo <= hi < |s| && forall i | 0 <= i < |s| :: s[i] == s[0]
    ensures Flat(s, lo, hi)
  {
    forall i | lo <= i <= hi
      ensures s[i] == s[lo]
    {
      assert s[i] == s[0];
    }
  }

  /** A run over a constant plane changes nothing. */
  lemma RunConstant(s: seq<byte>, off: int, step: int, adv: int, n: int, f: EdgeFilter)
    requires RunFits(|s|, off, step, adv, n, f) && 0 < n
    requires forall i | 0 <= i < |s| :: s[i] == s[0]
    ensures Run(s, off, step, adv, n, f) == s
  {
    RunSpan(|s|, off, step, adv, n, f);
    ConstantFlat(s, off - Reach(f) * step, off + (n - 1) * adv + (Reach(f) - 1) * step);
    RunFlat(s, off, step, adv, n, f);
  }

  /** Inner edges over a constant plane change nothing. */
  lemma {:induction false} EdgesFlat(s: seq<byte>, off: int, d: int, j: int, step: int, adv: int, n: int, f: EdgeFilter)
    requires EdgesFit(|s|, off, d, j, step, adv, n, f) && 0 < n
    requires forall i | 0 <= i < |s| :: s[i] == s[0]
    ensures Edges(s, off, d, j, step, adv, n, f) == s
    decreases j
  {
    if j > 0 {
      EdgesFirst(s, off, d, j, step, adv, n, f);
      RunConstant(s, off + d, step, adv, n, f);
      EdgesFlat(s, off + d, d, j - 1, step, adv, n, f);
    }
  }

  /** On a rising step edge (p1 = p0 < q0 = q1) DoFilter2 moves p0 up and q0
      down without letting them cross: the edge is smoothed. */
  lemma Filter2Smooths(s: seq<byte>, pos: int, step: int)
    requires Taps(|s|, pos, step, 2, 1) && 0 < step
    requires P1(s, pos, step) == P0(s, pos, step) < Q0(s, pos, step) == Q1(s, pos, step)
    ensures P0(s, pos, step) <= Filter2(s, pos, step)[pos - step] <= Filter2(s, pos, step)[pos] <= Q0(s, pos, step)
  {
    var p0: int, q0: int := P0(s, pos, step), Q0(s, pos, step);
    StepAdjustments(q0 - p0);
  }

  /** The two adjustments of DoFilter2 on a rising step of height d: both
      non-negative, the one for q0 at least the one for p0, together at most d. */
  lemma StepAdjustments(d: int)
    requires 0 < d <= 255
    ensures var a := 3 * d + Sclip1(-d);
      var a1, a2 := Sclip2(Shr(a + 4, 3)), Sclip2(Shr(a + 3, 3));
      0 <= a2 <= a1 && a1 + a2 <= d
  {
    var a := 3 * d + Sclip1(-d);
    ShrSmall(a + 4);
    ShrSmall(a + 3);
    if d <= 128 {
      assert a == 2 * d;
    } else {
      assert a == 3 * d - 128 && a >= 2 * d;
    }
  }

  /** DoFilter6 as written never lowers p2, p1, p0 and never raises q0, q1, q2:
      Clip1 makes `a` non-negative, so a falling edge (p0 > q0) is left as it is. */
  lemma Filter6OneSided(s: seq<byte>, pos: int, step: int)
    requires Taps(|s|, pos, step, 3, 2) && 0 < step
    ensures var r := Filter6(s, pos, step);
      && s[pos - 3 * step] <= r[pos - 3 * step] && s[pos - 2 * step] <= r[pos - 2 * step] && s[pos - step] <= r[pos - step]
      && r[pos] <= s[pos] && r[pos + step] <= s[pos + step] && r[pos + 2 * step] <= s[pos + 2 * step]
  {
    var a: int := Filter6Strength(s, pos, step);
    var a1, a2, a3 := Shr(27 * a + 63, 7), Shr(18 * a + 63, 7), Shr(9 * a + 63, 7);
    ShrNonNegative(27 * a + 63, 7);
    ShrNonNegative(18 * a + 63, 7);
    ShrNonNegative(9 * a + 63, 7);
    Filter6Samples(s, pos, step);
    ClipMoves(s[pos - 3 * step], a3);
    ClipMoves(s[pos - 2 * step], a2);
    ClipMoves(s[pos - step], a1);
    ClipMoves(s[pos], a1);
    ClipMoves(s[pos + step], a2);
    ClipMoves(s[pos + 2 * step], a3);
  }

  /** Adding a non-negative amount and clamping never lowers a sample;
      subtracting one never raises it. */
  lemma ClipMoves(x: byte, d: int)
    requires 0 <= d
    ensures x <= Clip1(x + d) && Clip1(x - d) <= x
  {
  }

  /** The `a` of DoFilter6. */
  function Filter6Strength(s: seq<byte>, pos: int, step: int): (a: int)
    requires Taps(|s|, pos, step, 3, 2)
    ensures 0 <= a <= 255
  {
    Clip1(3 * (s[pos] as int - s[pos - step]) + Clip1(s[pos - 2 * step] as int - s[pos + step]))
  }

  /** The six samples DoFilter6 writes, one by one. */
  lemma Filter6Samples(s: seq<byte>, pos: int, step: int)
    requires Taps(|s|, pos, step, 3, 2) && 0 < step
    ensures var r, a := Filter6(s, pos, step), Filter6Strength(s, pos, step);
      && r[pos - 3 * step] == Clip1(s[pos - 3 * step] + Shr(9 * a + 63, 7))
      && r[pos - 2 * step] == Clip1(s[pos - 2 * step] + Shr(18 * a + 63, 7))
      && r[pos - step] == Clip1(s[pos - step] + Shr(27 * a + 63, 7))
      && r[pos] == Clip1(s[pos] - Shr(27 * a + 63, 7))
      && r[pos + step] == Clip1(s[pos + step] - Shr(18 * a + 63, 7))
      && r[pos + 2 * step] == Clip1(s[pos + 2 * step] - Shr(9 * a + 63, 7))
  {
  }

  // ---------------------------------------------------------------------
  // The kernels

  /** DoFilter2 on the plane p. */
  method DoFilter2(p: array<byte>, offset: int, step: int)
    requires Taps(p.Length, offset, step, 2, 1)
    modifies p
    ensures p[..] == Filter2(old(p[..]), offset, step)
  {
    var p1: int, p0: int, q0: int, q1: int := p[offset - 2 * step], p[offset - step], p[offset], p[offset + step];
    var a := 3 * (q0 - p0) + Sclip1(p1 - q1);
    var a1 := Sclip2(Shr(a + 4, 3));
    var a2 := Sclip2(Shr(a + 3, 3));
    p[offset - step] := Clip1(p0 + a2);
    p[offset] := Clip1(q0 - a1);
  }

  /** DoFilter4 on the plane p. */
  method DoFilter4(p: array<byte>, offset: int, step: int)
    requires Taps(p.Length, offset, step, 2, 1)
    modifies p
    ensures p[..] == Filter4(old(p[..]), offset, step)
  {
    var p1: int, p0: int, q0: int, q1: int := p[offset - 2 * step], p[offset - step], p[offset], p[offset + step];
    var a := 3 * (q0 - p0);
    var a1 := Sclip2(Shr(a + 4, 3));
    var a2 := Sclip2(Shr(a + 3, 3));
    var a3 := Shr(a1 + 1, 1);
    p[offset - 2 * step] := Clip1(p1 + a3);
    p[offset - step] := Clip1(p0 + a2);
    p[offset] := Clip1(q0 - a1);
    p[offset + step] := Clip1(q1 - a3);
  }

  /** DoFilter6 on the plane p. */
  method DoFilter6(p: array<byte>, offset: int, step: int)
    requires Taps(p.Length, offset, step, 3, 2)
    modifies p
    ensures p[..] == Filter6(old(p[..]), offset, step)
  {
    var p2: int, p1: int, p0: int := p[offset - 3 * step], p[offset - 2 * step], p[offset - step];
    var q0: int, q1: int, q2: int := p[offset], p[offset + step], p[offset + 2 * step];
    var a: int := Clip1(3 * (q0 - p0) + Clip1(p1 - q1));
    var a1 := Shr(27 * a + 63, 7);
    var a2 := Shr(18 * a + 63, 7);
    var a3 := Shr(9 * a + 63, 7);
    ghost var t := p[..];
    ghost var goal: seq<byte> := t[offset - 3 * step := Clip1(p2 + a3)][offset - 2 * step := Clip1(p1 + a2)]
      [offset - step := Clip1(p0 + a1)][offset := Clip1(q0 - a1)][offset + step := Clip1(q1 - a2)]
      [offset + 2 * step := Clip1(q2 - a3)];
    assert goal == Filter6(t, offset, step);
    p[offset - 3 * step] := Clip1(p2 + a3);
    t := t[offset - 3 * step := Clip1(p2 + a3)];
    assert p[..] == t;
    p[offset - 2 * step] := Clip1(p1 + a2);
    t := t[offset - 2 * step := Clip1(p1 + a2)];
    assert p[..] == t;
    p[offset - step] := Clip1(p0 + a1);
    t := t[offset - step := Clip1(p0 + a1)];
    assert p[..] == t;
    p[offset] := Clip1(q0 - a1);
    t := t[offset := Clip1(q0 - a1)];
    assert p[..] == t;
    p[offset + step] := Clip1(q1 - a2);
    t := t[offset + step := Clip1(q1 - a2)];
    assert p[..] == t;
    p[offset + 2 * step] := Clip1(q2 - a3);
    t := t[offset + 2 * step := Clip1(q2 - a3)];
    assert p[..] == t;
  }

  /** One position of FilterLoop24's loop: the rest of the run then starts
      from the plane this position left. */
  method InnerPosition(p: array<byte>, off: int, hStride: int, vStride: int, n: int,
                       thresh2: int, ithresh: int, hevThresh: int)
    requires 0 < n && RunFits(p.Length, off, hStride, vStride, n, Inner(thresh2, ithresh, hevThresh))
    modifies p
    ensures RunFits(p.Length, off + vStride, hStride, vStride, n - 1, Inner(thresh2, ithresh, hevThresh))
    ensures Run(p[..], off + vStride, hStride, vStride, n - 1, Inner(thresh2, ithresh, hevThresh))
         == Run(old(p[..]), off, hStride, vStride, n, Inner(thresh2, ithresh, hevThresh))
  {
    ghost var before := p[..];
    if NeedsFilter2(p[..], off, hStride, thresh2, ithresh) {
      if Hev(p[..], off, hStride, hevThresh) {
        DoFilter2(p, off, hStride);
      } else {
        DoFilter4(p, off, hStride);
      }
    }
    RunStep(before, p[..], off, hStride, vStride, n, Inner(thresh2, ithresh, hevThresh));
  }

  /** FilterLoop24: the normal filter at an inner edge, `size` positions
      `vStride` apart, taps `hStride` apart; DoFilter4 where the edge has no
      high variance. */
  method FilterLoop24(p: array<byte>, offset: int, hStride: int, vStride: int, size: int,
                      thresh: int, ithresh: int, hevThresh: int)
    requires RunFits(p.Length, offset, hStride, vStride, size, Inner(2 * thresh + 1, ithresh, hevThresh))
    modifies p
    ensures p[..] == Run(old(p[..]), offset, hStride, vStride, size, Inner(2 * thresh + 1, ithresh, hevThresh))
  {
    var thresh2 := 2 * thresh + 1;
    ghost var s := p[..];
    ghost var f := Inner(thresh2, ithresh, hevThresh);
    var off, n := offset, size;
    while n > 0
      invariant RunFits(p.Length, off, hStride, vStride, n, f)
      invariant Run(p[..], off, hStride, vStride, n, f) == Run(s, offset, hStride, vStride, size, f)
      decreases n
    {
      InnerPosition(p, off, hStride, vStride, n, thresh2, ithresh, hevThresh);
      off, n := off + vStride, n - 1;
    }
  }

  /** One position of FilterLoop26's loop: the rest of the run then starts
      from the plane this position left. */
  method MacroBlockPosition(p: array<byte>, off: int, hStride: int, vStride: int, n: int,
                            thresh2: int, ithresh: int, hevThresh: int)
    requires 0 < n && RunFits(p.Length, off, hStride, vStride, n, MacroBlock(thresh2, ithresh, hevThresh))
    modifies p
    ensures RunFits(p.Length, off + vStride, hStride, vStride, n - 1, MacroBlock(thresh2, ithresh, hevThresh))
    ensures Run(p[..], off + vStride, hStride, vStride, n - 1, MacroBlock(thresh2, ithresh, hevThresh))
         == Run(old(p[..]), off, hStride, vStride, n, MacroBlock(thresh2, ithresh, hevThresh))
  {
    ghost var before := p[..];
    if NeedsFilter2(p[..], off, hStride, thresh2, ithresh) {
      if Hev(p[..], off, hStride, hevThresh) {
        DoFilter2(p, off, hStride);
      } else {
        DoFilter6(p, off, hStride);
      }
    }
    RunStep(before, p[..], off, hStride, vStride, n, MacroBlock(thresh2, ithresh, hevThresh));
  }

  /** FilterLoop26: the normal filter at a macroblock edge, with DoFilter6
      where the edge has no high variance. */
  method FilterLoop26(p: array<byte>, offset: int, hStride: int, vStride: int, size: int,
                      thresh: int, ithresh: int, hevThresh: int)
    requires RunFits(p.Length, offset, hStride, vStride, size, MacroBlock(2 * thresh + 1, ithresh, hevThresh))
    modifies p
    ensures p[..] == Run(old(p[..]), offset, hStride, vStride, size, MacroBlock(2 * thresh + 1, ithresh, hevThresh))
  {
    var thresh2 := 2 * thresh + 1;
    ghost var s := p[..];
    ghost var f := MacroBlock(thresh2, ithresh, hevThresh);
    var off, n := offset, size;
    while n > 0
      invariant RunFits(p.Length, off, hStride, vStride, n, f)
      invariant Run(p[..], off, hStride, vStride, n, f) == Run(s, offset, hStride, vStride, size, f)
      decreases n
    {
      MacroBlockPosition(p, off, hStride, vStride, n, thresh2, ithresh, hevThresh);
      off, n := off + vStride, n - 1;
    }
  }

  /** One position of the simple filter's loop: the rest of the run then
      starts from the plane this position left. */
  method SimplePosition(p: array<byte>, off: int, step: int, adv: int, n: int, thresh2: int)
    requires 0 < n && RunFits(p.Length, off, step, adv, n, Simple(thresh2))
    modifies p
    ensures RunFits(p.Length, off + adv, step, adv, n - 1, Simple(thresh2))
    ensures Run(p[..], off + adv, step, adv, n - 1, Simple(thresh2)) == Run(old(p[..]), off, step, adv, n, Simple(thresh2))
  {
    ghost var before := p[..];
    if NeedsFilter(p[..], off, step, thresh2) {
      DoFilter2(p, off, step);
    }
    RunStep(before, p[..], off, step, adv, n, Simple(thresh2));
  }

  /** SimpleVFilter16: the simple filter across a horizontal edge, 16 columns. */
  method SimpleVFilter16(p: array<byte>, offset: int, stride: int, thresh: int)
    requires RunFits(p.Length, offset, stride, 1, 16, Simple(2 * thresh + 1))
    modifies p
    ensures p[..] == Run(old(p[..]), offset, stride, 1, 16, Simple(2 * thresh + 1))
  {
    var thresh2 := 2 * thresh + 1;
    ghost var s := p[..];
    var off, n := offset, 16;
    while n > 0
      invariant RunFits(p.Length, off, stride, 1, n, Simple(thresh2))
      invariant Run(p[..], off, stride, 1, n, Simple(thresh2)) == Run(s, offset, stride, 1, 16, Simple(thresh2))
      decreases n
    {
      SimplePosition(p, off, stride, 1, n, thresh2);
      off, n := off + 1, n - 1;
    }
  }

  /** SimpleHFilter16: the simple filter across a vertical edge, 16 rows. */
  method SimpleHFilter16(p: array<byte>, offset: int, stride: int, thresh: int)
    requires RunFits(p.Length, offset, 1, stride, 16, Simple(2 * thresh + 1))
    modifies p
    ensures p[..] == Run(old(p[..]), offset, 1, stride, 16, Simple(2 * thresh + 1))
  {
    var thresh2 := 2 * thresh + 1;
    ghost var s := p[..];
    var off, n := offset, 16;
    while n > 0
      invariant RunFits(p.Length, off, 1, stride, n, Simple(thresh2))
      invariant Run(p[..], off, 1, stride, n, Simple(thresh2)) == Run(s, offset, 1, stride, 16, Simple(thresh2))
      decreases n
    {
      SimplePosition(p, off, 1, stride, n, thresh2);
      off, n := off + stride, n - 1;
    }
  }
}
