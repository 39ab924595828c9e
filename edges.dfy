// The edge filters the decoder calls per macroblock (LossyUtils.cs): the
// macroblock-edge filters run once at `offset`, the inner-edge ("i") filters
// run at three edges inside the macroblock, and the 8-sample variants filter
// the two chroma planes u and v in turn. Each is stated as Run or Edges of the
// plane before the call.

module EdgeFilters {
  import opened Arith
  import opened Filter

  /** SimpleVFilter16i: the simple filter at the three inner horizontal edges,
      4, 8 and 12 rows below `offset`. */
  method SimpleVFilter16i(p: array<byte>, offset: int, stride: int, thresh: int)
    requires EdgesFit(p.Length, offset, 4 * stride, 3, stride, 1, 16, Simple(2 * thresh + 1))
    modifies p
    ensures p[..] == Edges(old(p[..]), offset, 4 * stride, 3, stride, 1, 16, Simple(2 * thresh + 1))
  {
    ghost var s := p[..];
    ghost var f := Simple(2 * thresh + 1);
    var off := offset;
    var k := 3;
    while k > 0
      invariant EdgesFit(p.Length, off, 4 * stride, k, stride, 1, 16, f)
      invariant Edges(p[..], off, 4 * stride, k, stride, 1, 16, f) == Edges(s, offset, 4 * stride, 3, stride, 1, 16, f)
      decreases k
    {
      EdgesFirst(p[..], off, 4 * stride, k, stride, 1, 16, f);
      off := off + 4 * stride;
      SimpleVFilter16(p, off, stride, thresh);
      k := k - 1;
    }
  }

  /** SimpleHFilter16i as written: each of its three edges is `stride` past
      the previous one, that is one row further down, not 4 columns right. */
  method SimpleHFilter16i(p: array<byte>, offset: int, stride: int, thresh: int)
    requires EdgesFit(p.Length, offset, stride, 3, 1, stride, 16, Simple(2 * thresh + 1))
    modifies p
    ensures p[..] == Edges(old(p[..]), offset, stride, 3, 1, stride, 16, Simple(2 * thresh + 1))
  {
    ghost var s := p[..];
    ghost var f := Simple(2 * thresh + 1);
    var off := offset;
    var k := 3;
    while k > 0
      invariant EdgesFit(p.Length, off, stride, k, 1, stride, 16, f)
      invariant Edges(p[..], off, stride, k, 1, stride, 16, f) == Edges(s, offset, stride, 3, 1, stride, 16, f)
      decreases k
    {
      EdgesFirst(p[..], off, stride, k, 1, stride, 16, f);
      off := off + stride;
      SimpleHFilter16(p, off, stride, thresh);
      k := k - 1;
    }
  }

  /** VFilter16: the normal filter across the macroblock's top edge, 16 columns. */
  method VFilter16(p: array<byte>, offset: int, stride: int, thresh: int, ithresh: int, hevThresh: int)
    requires RunFits(p.Length, offset, stride, 1, 16, MacroBlock(2 * thresh + 1, ithresh, hevThresh))
    modifies p
    ensures p[..] == Run(old(p[..]), offset, stride, 1, 16, MacroBlock(2 * thresh + 1, ithresh, hevThresh))
  {
    FilterLoop26(p, offset, stride, 1, 16, thresh, ithresh, hevThresh);
  }

  /** HFilter16: the normal filter across the macroblock's left edge, 16 rows. */
  method HFilter16(p: array<byte>, offset: int, stride: int, thresh: int, ithresh: int, hevThresh: int)
    requires RunFits(p.Length, offset, 1, stride, 16, MacroBlock(2 * thresh + 1, ithresh, hevThresh))
    modifies p
    ensures p[..] == Run(old(p[..]), offset, 1, stride, 16, MacroBlock(2 * thresh + 1, ithresh, hevThresh))
  {
    FilterLoop26(p, offset, 1, stride, 16, thresh, ithresh, hevThresh);
  }

  /** VFilter16i: the normal filter at the three inner horizontal edges. */
  method VFilter16i(p: array<byte>, offset: int, stride: int, thresh: int, ithresh: int, hevThresh: int)
    requires EdgesFit(p.Length, offset, 4 * stride, 3, stride, 1, 16, Inner(2 * thresh + 1, ithresh, hevThresh))
    modifies p
    ensures p[..] == Edges(old(p[..]), offset, 4 * stride, 3, stride, 1, 16, Inner(2 * thresh + 1, ithresh, hevThresh))
  {
    ghost var s := p[..];
    ghost var f := Inner(2 * thresh + 1, ithresh, hevThresh);
    var off := offset;
    var k := 3;
    while k > 0
      invariant EdgesFit(p.Length, off, 4 * stride, k, stride, 1, 16, f)
      invariant Edges(p[..], off, 4 * stride, k, stride, 1, 16, f) == Edges(s, offset, 4 * stride, 3, stride, 1, 16, f)
      decreases k
    {
      EdgesFirst(p[..], off, 4 * stride, k, stride, 1, 16, f);
      off := off + 4 * stride;
      FilterLoop24(p, off, stride, 1, 16, thresh, ithresh, hevThresh);
      k := k - 1;
    }
  }

  /** HFilter16i: the normal filter at the three inner vertical edges, 4, 8
      and 12 columns right of `offset`. */
  method HFilter16i(p: array<byte>, offset: int, stride: int, thresh: int, ithresh: int, hevThresh: int)
    requires EdgesFit(p.Length, offset, 4, 3, 1, stride, 16, Inner(2 * thresh + 1, ithresh, hevThresh))
    modifies p
    ensures p[..] == Edges(old(p[..]), offset, 4, 3, 1, stride, 16, Inner(2 * thresh + 1, ithresh, hevThresh))
  {
    ghost var s := p[..];
    ghost var f := Inner(2 * thresh + 1, ithresh, hevThresh);
    var off := offset;
    var k := 3;
    while k > 0
      invariant EdgesFit(p.Length, off, 4, k, 1, stride, 16, f)
      invariant Edges(p[..], off, 4, k, 1, stride, 16, f) == Edges(s, offset, 4, 3, 1, stride, 16, f)
      decreases k
    {
      EdgesFirst(p[..], off, 4, k, 1, stride, 16, f);
      off := off + 4;
      FilterLoop24(p, off, 1, stride, 16, thresh, ithresh, hevThresh);
      k := k - 1;
    }
  }

  /** VFilter8: the macroblock-edge filter on 8 columns of u, then of v. When
      u and v are the same array, the second pass sees the first's output. */
  method VFilter8(u: array<byte>, v: array<byte>, offset: int, stride: int, thresh: int, ithresh: int, hevThresh: int)
    requires RunFits(u.Length, offset, stride, 1, 8, MacroBlock(2 * thresh + 1, ithresh, hevThresh))
    requires RunFits(v.Length, offset, stride, 1, 8, MacroBlock(2 * thresh + 1, ithresh, hevThresh))
    modifies u, v
    ensures u != v ==> (u[..] == Run(old(u[..]), offset, stride, 1, 8, MacroBlock(2 * thresh + 1, ithresh, hevThresh))
                        && v[..] == Run(old(v[..]), offset, stride, 1, 8, MacroBlock(2 * thresh + 1, ithresh, hevThresh)))
    ensures u == v ==> v[..] == Run(Run(old(v[..]), offset, stride, 1, 8, MacroBlock(2 * thresh + 1, ithresh, hevThresh)), offset, stride, 1, 8, MacroBlock(2 * thresh + 1, ithresh, hevThresh))
  {
    FilterLoop26(u, offset, stride, 1, 8, thresh, ithresh, hevThresh);
    FilterLoop26(v, offset, stride, 1, 8, thresh, ithresh, hevThresh);
  }

  /** HFilter8: the macroblock-edge filter on 8 rows of u, then of v. */
  method HFilter8(u: array<byte>, v: array<byte>, offset: int, stride: int, thresh: int, ithresh: int, hevThresh: int)
    requires RunFits(u.Length, offset, 1, stride, 8, MacroBlock(2 * thresh + 1, ithresh, hevThresh))
    requires RunFits(v.Length, offset, 1, stride, 8, MacroBlock(2 * thresh + 1, ithresh, hevThresh))
    modifies u, v
    ensures u != v ==> (u[..] == Run(old(u[..]), offset, 1, stride, 8, MacroBlock(2 * thresh + 1, ithresh, hevThresh))
                        && v[..] == Run(old(v[..]), offset, 1, stride, 8, MacroBlock(2 * thresh + 1, ithresh, hevThresh)))
    ensures u == v ==> v[..] == Run(Run(old(v[..]), offset, 1, stride, 8, MacroBlock(2 * thresh + 1, ithresh, hevThresh)), offset, 1, stride, 8, MacroBlock(2 * thresh + 1, ithresh, hevThresh))
  {
    FilterLoop26(u, offset, 1, stride, 8, thresh, ithresh, hevThresh);
    FilterLoop26(v, offset, 1, stride, 8, thresh, ithresh, hevThresh);
  }

  /** VFilter8i: the inner-edge filter 4 rows below `offset` in u, then in v. */
  method VFilter8i(u: array<byte>, v: array<byte>, offset: int, stride: int, thresh: int, ithresh: int, hevThresh: int)
    requires RunFits(u.Length, offset + 4 * stride, stride, 1, 8, Inner(2 * thresh + 1, ithresh, hevThresh))
    requires RunFits(v.Length, offset + 4 * stride, stride, 1, 8, Inner(2 * thresh + 1, ithresh, hevThresh))
    modifies u, v
    ensures u != v ==> (u[..] == Run(old(u[..]), offset + 4 * stride, stride, 1, 8, Inner(2 * thresh + 1, ithresh, hevThresh))
                        && v[..] == Run(old(v[..]), offset + 4 * stride, stride, 1, 8, Inner(2 * thresh + 1, ithresh, hevThresh)))
    ensures u == v ==> v[..] == Run(Run(old(v[..]), offset + 4 * stride, stride, 1, 8, Inner(2 * thresh + 1, ithresh, hevThresh)), offset + 4 * stride, stride, 1, 8, Inner(2 * thresh + 1, ithresh, hevThresh))
  {
    FilterLoop24(u, offset + 4 * stride, stride, 1, 8, thresh, ithresh, hevThresh);
    FilterLoop24(v, offset + 4 * stride, stride, 1, 8, thresh, ithresh, hevThresh);
  }

  /** HFilter8i: the inner-edge filter 4 columns right of `offset` in u, then in v. */
  method HFilter8i(u: array<byte>, v: array<byte>, offset: int, stride: int, thresh: int, ithresh: int, hevThresh: int)
    requires RunFits(u.Length, offset + 4, 1, stride, 8, Inner(2 * thresh + 1, ithresh, hevThresh))
    requires RunFits(v.Length, offset + 4, 1, stride, 8, Inner(2 * thresh + 1, ithresh, hevThresh))
    modifies u, v
    ensures u != v ==> (u[..] == Run(old(u[..]), offset + 4, 1, stride, 8, Inner(2 * thresh + 1, ithresh, hevThresh))
                        && v[..] == Run(old(v[..]), offset + 4, 1, stride, 8, Inner(2 * thresh + 1, ithresh, hevThresh)))
    ensures u == v ==> v[..] == Run(Run(old(v[..]), offset + 4, 1, stride, 8, Inner(2 * thresh + 1, ithresh, hevThresh)), offset + 4, 1, stride, 8, Inner(2 * thresh + 1, ithresh, hevThresh))
  {
    FilterLoop24(u, offset + 4, 1, stride, 8, thresh, ithresh, hevThresh);
    FilterLoop24(v, offset + 4, 1, stride, 8, thresh, ithresh, hevThresh);
  }
}
