# VP8 reconstruction kernels of LossyUtils.cs, in Dafny

This project models the block-reconstruction kernels of the WebP lossy (VP8)
decoder in `src/ImageSharp/Formats/WebP/LossyUtils.cs`, which follow RFC 6386,
and proves what they compute:

- **Intra prediction** (RFC 6386 section 12): DC, vertical, horizontal and
  TrueMotion for 16x16 luma and 8x8 chroma, the DC variants without a top row,
  without a left column or without either, and the ten 4x4 sub-block modes.
- **Inverse transform with residual add** (RFC 6386 sections 14.3 and 14.5):
  TransformOne, the DC-only and three-coefficient fast paths, and the
  two-block and chroma wrappers.
- **Loop filters** (RFC 6386 sections 15.2 and 15.3): the simple filter, the
  normal filter at macroblock and inner edges, and the 8-sample chroma
  variants.
- **Colour conversion**: fixed-point YUV to BGR (ITU-R BT.601, limited
  range) and the u/v word packing.

## How the kernels are stated

- **The buffer.** The reconstruction buffer is one `array<byte>`, where
  `byte` is the integers 0..255. The row stride is `Bps = 32`. A kernel's
  `dst` span is the same buffer from `off` on, so the sample at column x,
  row y of a block is `off + x + y * Bps` (`Block.Px`).
- **Predictors and transforms** are proved against `Block.Painted(s, off, w,
  h, rule)`. This is the buffer `s` with its w x h block at `off` rewritten by
  a `Rule`, and every other sample unchanged. The rules are:
  - `Flat(v)`: the DC modes;
  - `Above` and `Beside`: the vertical and horizontal modes;
  - `Gradient`: TrueMotion;
  - `Dir(m)`: the 4x4 modes, with `Modes4.ModeAt` giving the closed forms of
    RFC 6386 section 12.3;
  - `Residual(r)`: the Store of the transforms, `Clip8B(old + (r[x + 4y] >> 3))`.
- **The DC modes** are all `Predict.DcMean`, the rounded mean of the
  neighbours that are present.
- **Filters** are proved against `Filter.Run`, the plane after an edge has
  been filtered position by position in the loop's order. At each position,
  `Filter.Apply` runs the test and then the DoFilter the test selects. The
  `*16i` filters are `Filter.Edges`, three runs at successive offsets.
- **Shifts.** C# `>>` is `Arith.Shr`, which `Arith.ShrIsDiv` proves is
  floor division by a power of two.

## Model

| member | source | states |
|---|---|---|
| Arith.ShrIsDiv | src/ImageSharp/Formats/WebP/LossyUtils.cs:844-847 | the arithmetic shift `v >> n` is floor division of v by 2^n, for every sign of v |
| Arith.MultHi | src/ImageSharp/Formats/WebP/LossyUtils.cs:844-847 | `(v * coeff) >> 8` is the largest r with 256 r <= v * coeff |
| Arith.Clip8B | src/ImageSharp/Formats/WebP/LossyUtils.cs:872-875 | the mask test `(v & ~0xff) == 0` keeps v on [0, 255], gives 0 below and 255 above |
| Arith.Clip8 | src/ImageSharp/Formats/WebP/LossyUtils.cs:877-881 | v >> 6 for v in [0, 16383], 0 below, 255 above |
| Arith.SaturationsAgree | src/ImageSharp/Formats/WebP/LossyUtils.cs:915-918 | Clamp255, the Clip8B mask test and Clip1 are the same saturation; Clip8B(x) == x exactly when x is a sample |
| Arith.AvgBounds | src/ImageSharp/Formats/WebP/LossyUtils.cs:900-908 | Avg2 and Avg3 lie between their smallest and largest taps, Avg2 rounds half up, Avg3 is symmetric in its outer taps |
| Arith.MulRange | src/ImageSharp/Formats/WebP/LossyUtils.cs:862-870 | Mul1 and Mul2 keep the sign of a, vanish at 0, and Mul1(a) stays between a and 4a/3 |
| Arith.Abs0 | src/ImageSharp/Formats/WebP/LossyUtils.cs:806-813 | the filters' absolute value is non-negative and is x or -x |
| Arith.Sclip1 | src/ImageSharp/Formats/WebP/LossyUtils.cs:759 | clamps to [-128, 127]: below -128 gives -128, above 127 gives 127, identity inside |
| Arith.Sclip2 | src/ImageSharp/Formats/WebP/LossyUtils.cs:760-761 | clamps to [-16, 15]: below -16 gives -16, above 15 gives 15, identity inside |
| Block.Painted | src/ImageSharp/Formats/WebP/LossyUtils.cs:910-913 | a kernel that writes a block leaves every sample outside the block as it was |
| Block.PaintedAt | src/ImageSharp/Formats/WebP/LossyUtils.cs:910-913 | the sample at column x, row y of a painted block is what the rule defines there |
| Block.Dst | src/ImageSharp/Formats/WebP/LossyUtils.cs:910-913 | Dst sets column x, row y, at off + x + y * Bps, and nothing else |
| Block.Memset | src/ImageSharp/Formats/WebP/LossyUtils.cs:892-898 | `count` samples from `start` become v and the rest of the buffer is unchanged; nothing changes when count <= 0 |
| Block.CopyRun | src/ImageSharp/Formats/WebP/LossyUtils.cs:39-43 | the destination run receives the source run sample by sample, and nothing else changes |
| Block.NextRow | src/ImageSharp/Formats/WebP/LossyUtils.cs:11-17 | writing row h of a block over its first h rows gives its first h + 1 rows, the induction step of every row loop |
| Block.FillWrite | src/ImageSharp/Formats/WebP/LossyUtils.cs:910-913 | a Dst at (x, y) of a 4x4 block changes cell x + 4y of the block and nothing else |
| Block.FillPainted | src/ImageSharp/Formats/WebP/LossyUtils.cs:224-258 | sixteen cells holding what a 4x4 rule defines, put in place, give the painted buffer |
| Modes4.VlShift | src/ImageSharp/Formats/WebP/LossyUtils.cs:331-365 | vertical-left: rows 2 and 3 repeat rows 0 and 1 one column to the left |
| Predict.Put16 | src/ImageSharp/Formats/WebP/LossyUtils.cs:11-17 | the 16x16 block becomes v and nothing else changes |
| Predict.Put8x8uv | src/ImageSharp/Formats/WebP/LossyUtils.cs:883-890 | the 8x8 block becomes v and nothing else changes |
| Predict.SumTop | src/ImageSharp/Formats/WebP/LossyUtils.cs:19-29 | the sum of n samples above the block is in [0, 255 n] |
| Predict.SumLeft | src/ImageSharp/Formats/WebP/LossyUtils.cs:19-29 | the sum of n samples left of the block is in [0, 255 n] |
| Predict.DC16 | src/ImageSharp/Formats/WebP/LossyUtils.cs:19-29 | the 16x16 block becomes the one value (16 + the 16 above + the 16 left) >> 5 |
| Predict.DC16NoTop | src/ImageSharp/Formats/WebP/LossyUtils.cs:60-71 | the block becomes (8 + the 16 left) >> 4 |
| Predict.DC16NoLeft | src/ImageSharp/Formats/WebP/LossyUtils.cs:73-84 | the block becomes (8 + the 16 above) >> 4 |
| Predict.DC16NoTopLeft | src/ImageSharp/Formats/WebP/LossyUtils.cs:86-90 | the block becomes 0x80 |
| Predict.DC8uv | src/ImageSharp/Formats/WebP/LossyUtils.cs:92-102 | the 8x8 block becomes (8 + the 8 above + the 8 left) >> 4 |
| Predict.DC8uvNoTop | src/ImageSharp/Formats/WebP/LossyUtils.cs:136-147 | the block becomes (4 + the 8 left) >> 3 |
| Predict.DC8uvNoLeft | src/ImageSharp/Formats/WebP/LossyUtils.cs:149-160 | the block becomes (4 + the 8 above) >> 3 |
| Predict.DC8uvNoTopLeft | src/ImageSharp/Formats/WebP/LossyUtils.cs:162-166 | the block becomes 0x80 |
| Predict.DC4 | src/ImageSharp/Formats/WebP/LossyUtils.cs:168-181 | the 4x4 block becomes (4 + the 4 above + the 4 left) >> 3 |
| Predict.VE16 | src/ImageSharp/Formats/WebP/LossyUtils.cs:36-45 | every row of the 16x16 block is the row above the block |
| Predict.VE8uv | src/ImageSharp/Formats/WebP/LossyUtils.cs:110-120 | every row of the 8x8 block is the row above the block |
| Predict.HE16 | src/ImageSharp/Formats/WebP/LossyUtils.cs:47-58 | row y of the 16x16 block is filled with the sample left of row y; the buffer must hold 16 full rows, for the Slice(Bps) after the last one |
| Predict.HE8uv | src/ImageSharp/Formats/WebP/LossyUtils.cs:122-134 | row y of the 8x8 block is filled with the sample left of row y; the buffer must hold 8 full rows, for the Slice(Bps) after the last one |
| Predict.TrueMotionRow | src/ImageSharp/Formats/WebP/LossyUtils.cs:550-553 | sample x of the row becomes Clamp255(left + top[x] - p); nothing else changes |
| Predict.GradientRow | src/ImageSharp/Formats/WebP/LossyUtils.cs:548-558 | one pass of the outer loop, which reads the row above from the partly written buffer, adds row y of the TrueMotion block |
| Predict.TrueMotion | src/ImageSharp/Formats/WebP/LossyUtils.cs:540-559 | sample (x, y) of the size x size block becomes Clamp255(left[y] + top[x] - corner) |
| Predict.TM16 | src/ImageSharp/Formats/WebP/LossyUtils.cs:31-34 | TrueMotion over 16x16 |
| Predict.TM8uv | src/ImageSharp/Formats/WebP/LossyUtils.cs:104-108 | TrueMotion over 8x8 |
| Predict.TM4 | src/ImageSharp/Formats/WebP/LossyUtils.cs:183-186 | TrueMotion over 4x4 |
| Predict.DcFlat | src/ImageSharp/Formats/WebP/LossyUtils.cs:60-102 | when every neighbour is k, each DC variant that has a neighbour predicts k |
| Predict.FlatPredictions | src/ImageSharp/Formats/WebP/LossyUtils.cs:540-559 | a flat neighbourhood of value k predicts k everywhere in the DC, vertical, horizontal and TrueMotion modes |
| Predict4.CopyRow | src/ImageSharp/Formats/WebP/LossyUtils.cs:200-203 | the four values are copied to the row and nothing else changes |
| Predict4.VE4 | src/ImageSharp/Formats/WebP/LossyUtils.cs:188-204 | the 4x4 block becomes the vertical prediction of RFC 6386 section 12.3 |
| Predict4.FillRow4 | src/ImageSharp/Formats/WebP/LossyUtils.cs:214-221 | one big-endian store of v * 0x01010101 writes the next row of a block whose row is all v |
| Predict4.HE4 | src/ImageSharp/Formats/WebP/LossyUtils.cs:206-222 | the 4x4 block becomes the horizontal prediction |
| Predict4.RD4Writes | src/ImageSharp/Formats/WebP/LossyUtils.cs:237-257 | the sixteen Dst calls of RD4_C, in their order, set the 4x4 block cell by cell and nothing else |
| Predict4.RD4Holds | src/ImageSharp/Formats/WebP/LossyUtils.cs:224-258 | the values RD4_C computes are the down-right prediction at the cells it writes them to |
| Predict4.RD4 | src/ImageSharp/Formats/WebP/LossyUtils.cs:224-258 | the 4x4 block becomes the down-right prediction |
| Predict4.VR4Writes | src/ImageSharp/Formats/WebP/LossyUtils.cs:273-293 | the sixteen Dst calls of VR4_C set the block cell by cell and nothing else |
| Predict4.VR4Holds | src/ImageSharp/Formats/WebP/LossyUtils.cs:260-294 | the values VR4_C computes are the vertical-right prediction |
| Predict4.VR4 | src/ImageSharp/Formats/WebP/LossyUtils.cs:260-294 | the 4x4 block becomes the vertical-right prediction |
| Predict4.LD4Writes | src/ImageSharp/Formats/WebP/LossyUtils.cs:308-328 | the sixteen Dst calls of LD4_C set the block cell by cell and nothing else |
| Predict4.LD4Holds | src/ImageSharp/Formats/WebP/LossyUtils.cs:296-329 | the values LD4_C computes are the down-left prediction |
| Predict4.LD4 | src/ImageSharp/Formats/WebP/LossyUtils.cs:296-329 | the 4x4 block becomes the down-left prediction |
| Predict4.VL4Writes | src/ImageSharp/Formats/WebP/LossyUtils.cs:343-364 | the sixteen Dst calls of VL4_C set the block cell by cell and nothing else |
| Predict4.VL4Holds | src/ImageSharp/Formats/WebP/LossyUtils.cs:331-365 | the values VL4_C computes are the vertical-left prediction, including the last two cells |
| Predict4.VL4 | src/ImageSharp/Formats/WebP/LossyUtils.cs:331-365 | the 4x4 block becomes the vertical-left prediction |
| Predict4.HD4Writes | src/ImageSharp/Formats/WebP/LossyUtils.cs:380-400 | the sixteen Dst calls of HD4_C set the block cell by cell and nothing else |
| Predict4.HD4Holds | src/ImageSharp/Formats/WebP/LossyUtils.cs:367-401 | the values HD4_C computes are the horizontal-down prediction |
| Predict4.HD4 | src/ImageSharp/Formats/WebP/LossyUtils.cs:367-401 | the 4x4 block becomes the horizontal-down prediction |
| Predict4.HU4Writes | src/ImageSharp/Formats/WebP/LossyUtils.cs:411-430 | the sixteen Dst calls of HU4_C set the block cell by cell and nothing else |
| Predict4.HU4Holds | src/ImageSharp/Formats/WebP/LossyUtils.cs:403-431 | the values HU4_C computes are the horizontal-up prediction |
| Predict4.HU4 | src/ImageSharp/Formats/WebP/LossyUtils.cs:403-431 | the 4x4 block becomes the horizontal-up prediction |
| Predict4.VE4Rows | src/ImageSharp/Formats/WebP/LossyUtils.cs:200-203 | VE4_C paints four identical rows |
| Predict4.HE4Rows | src/ImageSharp/Formats/WebP/LossyUtils.cs:214-221 | HE4_C paints each row with a single value |
| Predict4.RD4Diagonals | src/ImageSharp/Formats/WebP/LossyUtils.cs:224-258 | RD4_C is constant along every diagonal of equal x - y |
| Predict4.LD4AntiDiagonals | src/ImageSharp/Formats/WebP/LossyUtils.cs:296-329 | LD4_C is constant along every anti-diagonal of equal x + y |
| Predict4.VL4Shift | src/ImageSharp/Formats/WebP/LossyUtils.cs:331-365 | in VL4_C, rows 2 and 3 are rows 0 and 1 shifted left by one in columns 0..2 |
| Predict4.VL4LastColumn | src/ImageSharp/Formats/WebP/LossyUtils.cs:363-364 | in VL4_C, the cells (3, 2) and (3, 3) break that shift and hold Avg3(E, F, G) and Avg3(F, G, H) |
| Predict4.HU4Corner | src/ImageSharp/Formats/WebP/LossyUtils.cs:403-431 | in HU4_C, the bottom row and the cells (2, 2) and (3, 2) are all L |
| Transform.VerticalStore | src/ImageSharp/Formats/WebP/LossyUtils.cs:450-458 | one round of the first loop writes column i of the vertical pass to tmp[4i .. 4i + 3] and nothing else |
| Transform.HorizontalStep | src/ImageSharp/Formats/WebP/LossyUtils.cs:471-475 | the loop's a, b, c, d from dc = tmp[y] + 4 give row y of the horizontal pass |
| Transform.HorizontalStore | src/ImageSharp/Formats/WebP/LossyUtils.cs:470-481 | one round of the second loop adds row i of the horizontal pass to row i of the block |
| Transform.Store | src/ImageSharp/Formats/WebP/LossyUtils.cs:849-852 | the sample at column x, row y becomes Clip8B(old + (v >> 3)); nothing else changes |
| Transform.Store2 | src/ImageSharp/Formats/WebP/LossyUtils.cs:854-860 | row y receives dc + d, dc + c, dc - c, dc - d, each through Store, left to right |
| Transform.AddedIsPainted | src/ImageSharp/Formats/WebP/LossyUtils.cs:468-482 | adding a residual row by row paints the block with that residual |
| Transform.TransformOne | src/ImageSharp/Formats/WebP/LossyUtils.cs:442-483 | each sample of the 4x4 block becomes Clip8B(old + (Idct(src)[x + 4y] >> 3)); nothing else changes; the buffer must hold 4 full rows, for the Slice(Bps) after the last one |
| Transform.TransformDc | src/ImageSharp/Formats/WebP/LossyUtils.cs:485-495 | each sample of the block becomes Clip8B(old + ((src[0] + 4) >> 3)) |
| Transform.TransformAc3 | src/ImageSharp/Formats/WebP/LossyUtils.cs:498-509 | the block receives the residual built from src[0], src[1] and src[4] alone |
| Transform.Transform | src/ImageSharp/Formats/WebP/LossyUtils.cs:433-440 | TransformOne on the block at off and, when doTwo, on src[16..] and the block four samples right, each with TransformOne's room for its trailing Slice(Bps) |
| Transform.TransformUv | src/ImageSharp/Formats/WebP/LossyUtils.cs:511-515 | the four 4x4 blocks of the 8x8 chroma block each receive their own 16 coefficients; the buffer must reach off + 8 Bps + 4, as the last TransformOne's trailing Slice(Bps) needs |
| Transform.DcIfNonZero | src/ImageSharp/Formats/WebP/LossyUtils.cs:519-522 | the guarded call gives the block TransformDc would give it, whether or not the DC coefficient is zero |
| Transform.TransformDcuv | src/ImageSharp/Formats/WebP/LossyUtils.cs:517-538 | the four quadrants receive the DC transform of src[0], src[16], src[32], src[48] |
| Transform.DcBlockIsPainted | src/ImageSharp/Formats/WebP/LossyUtils.cs:485-495 | the DC transform paints the block with the flat residual (dc + 4) |
| Transform.DcZeroKeeps | src/ImageSharp/Formats/WebP/LossyUtils.cs:519-537 | a zero DC coefficient leaves the block as it was, since (0 + 4) >> 3 is 0 |
| Transform.SmallResidualKeeps | src/ImageSharp/Formats/WebP/LossyUtils.cs:849-852 | a residual whose every value lies in [0, 8) leaves the block unchanged |
| Transform.ZeroIdctKeeps | src/ImageSharp/Formats/WebP/LossyUtils.cs:442-483 | all sixteen coefficients zero: TransformOne leaves the block as it was |
| Transform.DcOnlyIdct | src/ImageSharp/Formats/WebP/LossyUtils.cs:442-495 | when src[1..15] are zero the full transform's residual is the DC residual, so TransformDc gives the buffer TransformOne gives |
| Transform.Ac3Idct | src/ImageSharp/Formats/WebP/LossyUtils.cs:442-509 | when only src[0], src[1] and src[4] may be non-zero the full transform's residual is TransformAc3's, so the two give the same buffer |
| Transform.DcFromAc3 | src/ImageSharp/Formats/WebP/LossyUtils.cs:498-509 | with src[1] and src[4] zero, TransformAc3's residual is the DC residual |
| Filter.NeedsFilterIsHev | src/ImageSharp/Formats/WebP/LossyUtils.cs:806-842 | NeedsFilter and Hev are the same test: \|p1 - p0\| > t or \|q1 - q0\| > t |
| Filter.Filter2Frame | src/ImageSharp/Formats/WebP/LossyUtils.cs:752-764 | DoFilter2 changes p0 and q0 only |
| Filter.Filter4Frame | src/ImageSharp/Formats/WebP/LossyUtils.cs:766-781 | DoFilter4 changes p1, p0, q0 and q1 only |
| Filter.Filter6Frame | src/ImageSharp/Formats/WebP/LossyUtils.cs:783-804 | DoFilter6 changes p2 .. q2 only |
| Filter.ApplyWrites | src/ImageSharp/Formats/WebP/LossyUtils.cs:705-720 | a sample that a position changes is one the selected filter writes; nothing changes where NeedsFilter or NeedsFilter2 fails, and high edge variance limits the change to p0 and q0 |
| Filter.ApplyFrame | src/ImageSharp/Formats/WebP/LossyUtils.cs:734-749 | filtering one position changes nothing outside pos - 3 step .. pos + 2 step |
| Filter.FiltersKeepFlat | src/ImageSharp/Formats/WebP/LossyUtils.cs:752-804 | on a flat window every DoFilter leaves the samples as they are |
| Filter.NeedsFilter2Flat | src/ImageSharp/Formats/WebP/LossyUtils.cs:815-833 | on a flat window the normal filter's test passes exactly when both thresholds are non-negative |
| Filter.ApplyFlat | src/ImageSharp/Formats/WebP/LossyUtils.cs:705-720 | filtering one position of a flat stretch changes nothing |
| Filter.RunFrame | src/ImageSharp/Formats/WebP/LossyUtils.cs:705-720 | a run changes nothing before its first tap or after its last |
| Filter.RunFlat | src/ImageSharp/Formats/WebP/LossyUtils.cs:734-749 | a run over a flat stretch changes nothing |
| Filter.RunConstant | src/ImageSharp/Formats/WebP/LossyUtils.cs:562-572 | a run over a constant plane changes nothing |
| Filter.EdgesFlat | src/ImageSharp/Formats/WebP/LossyUtils.cs:586-593 | the inner-edge filters leave a constant plane unchanged |
| Filter.Filter2Smooths | src/ImageSharp/Formats/WebP/LossyUtils.cs:752-764 | on a rising step DoFilter2 raises p0 and lowers q0 without letting them cross |
| Filter.StepAdjustments | src/ImageSharp/Formats/WebP/LossyUtils.cs:759-761 | on a step of height d both adjustments are non-negative, a2 <= a1, and a1 + a2 <= d |
| Filter.Filter6OneSided | src/ImageSharp/Formats/WebP/LossyUtils.cs:792-803 | DoFilter6 as written never lowers p2, p1, p0 and never raises q0, q1, q2 |
| Filter.ClipMoves | src/ImageSharp/Formats/WebP/LossyUtils.cs:798-803 | adding a non-negative amount and clamping never lowers a sample; subtracting one never raises it |
| Filter.Filter6Strength | src/ImageSharp/Formats/WebP/LossyUtils.cs:792 | DoFilter6's `a` lies in [0, 255] |
| Filter.Filter6Samples | src/ImageSharp/Formats/WebP/LossyUtils.cs:795-803 | the six samples DoFilter6 writes, each Clip1 of the old sample plus or minus (9k a + 63) >> 7 |
| Filter.DoFilter2 | src/ImageSharp/Formats/WebP/LossyUtils.cs:752-764 | the plane after DoFilter2 is Filter2 of the plane before |
| Filter.DoFilter4 | src/ImageSharp/Formats/WebP/LossyUtils.cs:766-781 | the plane after DoFilter4 is Filter4 of the plane before |
| Filter.DoFilter6 | src/ImageSharp/Formats/WebP/LossyUtils.cs:783-804 | the plane after DoFilter6 is Filter6 of the plane before |
| Filter.RunStep | src/ImageSharp/Formats/WebP/LossyUtils.cs:705-720 | one position filtered, the rest of the run starts from the filtered plane |
| Filter.InnerPosition | src/ImageSharp/Formats/WebP/LossyUtils.cs:707-719 | one round of FilterLoop24's loop advances the run by one position |
| Filter.FilterLoop24 | src/ImageSharp/Formats/WebP/LossyUtils.cs:694-721 | the plane becomes the run of `size` positions with NeedsFilter2(2 thresh + 1, ithresh), then DoFilter2 on high edge variance and DoFilter4 otherwise |
| Filter.MacroBlockPosition | src/ImageSharp/Formats/WebP/LossyUtils.cs:736-748 | one round of FilterLoop26's loop advances the run by one position |
| Filter.FilterLoop26 | src/ImageSharp/Formats/WebP/LossyUtils.cs:723-750 | the same run with DoFilter6 where the edge has no high variance |
| Filter.SimplePosition | src/ImageSharp/Formats/WebP/LossyUtils.cs:566-569 | one round of the simple filter's loop advances the run by one position |
| Filter.SimpleVFilter16 | src/ImageSharp/Formats/WebP/LossyUtils.cs:562-572 | the 16 columns across a horizontal edge, each through NeedsFilter(2 thresh + 1) and DoFilter2 |
| Filter.SimpleHFilter16 | src/ImageSharp/Formats/WebP/LossyUtils.cs:574-584 | the 16 rows across a vertical edge, each through NeedsFilter(2 thresh + 1) and DoFilter2 |
| Filter.EdgesFirst | src/ImageSharp/Formats/WebP/LossyUtils.cs:586-593 | the first remaining inner edge is filtered before the others |
| EdgeFilters.SimpleVFilter16i | src/ImageSharp/Formats/WebP/LossyUtils.cs:586-593 | simple runs at the edges 4, 8 and 12 rows below offset, in that order |
| EdgeFilters.SimpleHFilter16i | src/ImageSharp/Formats/WebP/LossyUtils.cs:595-602 | simple runs at offset + stride, + 2 stride and + 3 stride, in that order |
| EdgeFilters.VFilter16 | src/ImageSharp/Formats/WebP/LossyUtils.cs:604-607 | the macroblock-edge run across a horizontal edge, 16 columns |
| EdgeFilters.HFilter16 | src/ImageSharp/Formats/WebP/LossyUtils.cs:609-612 | the macroblock-edge run across a vertical edge, 16 rows |
| EdgeFilters.VFilter16i | src/ImageSharp/Formats/WebP/LossyUtils.cs:614-621 | inner-edge runs 4, 8 and 12 rows below offset, in that order |
| EdgeFilters.HFilter16i | src/ImageSharp/Formats/WebP/LossyUtils.cs:623-630 | inner-edge runs 4, 8 and 12 columns right of offset, in that order |
| EdgeFilters.VFilter8 | src/ImageSharp/Formats/WebP/LossyUtils.cs:633-637 | u and v each receive the 8-column macroblock-edge run; when they are one array it receives both runs in turn |
| EdgeFilters.HFilter8 | src/ImageSharp/Formats/WebP/LossyUtils.cs:639-643 | the same for the 8-row vertical edge |
| EdgeFilters.VFilter8i | src/ImageSharp/Formats/WebP/LossyUtils.cs:645-649 | u and v each receive the inner-edge run 4 rows below offset |
| EdgeFilters.HFilter8i | src/ImageSharp/Formats/WebP/LossyUtils.cs:651-655 | u and v each receive the inner-edge run 4 columns right of offset |
| Yuv.RedAccuracy | src/ImageSharp/Formats/WebP/LossyUtils.cs:670-673 | where BT.601 gives a red level in [0, 255], YuvToR is within 0.75 of it |
| Yuv.GreenAccuracy | src/ImageSharp/Formats/WebP/LossyUtils.cs:675-678 | where BT.601 gives a green level in [0, 255], YuvToG is within 0.75 of it |
| Yuv.BlueAccuracy | src/ImageSharp/Formats/WebP/LossyUtils.cs:680-683 | where BT.601 gives a blue level in [0, 255], YuvToB is within 0.75 of it |
| Yuv.MultHiMonotone | src/ImageSharp/Formats/WebP/LossyUtils.cs:844-847 | MultHi with a non-negative coefficient is monotone in v |
| Yuv.Clip8Monotone | src/ImageSharp/Formats/WebP/LossyUtils.cs:877-881 | Clip8 is monotone |
| Yuv.LumaMonotone | src/ImageSharp/Formats/WebP/LossyUtils.cs:670-683 | a brighter luma gives no darker red, green or blue |
| Yuv.ChromaMonotone | src/ImageSharp/Formats/WebP/LossyUtils.cs:670-683 | more v raises red and lowers green; more u raises blue and lowers green |
| Yuv.NeutralIsGrey | src/ImageSharp/Formats/WebP/LossyUtils.cs:670-683 | u = v = 128 gives equal red and blue, with green at most one level below |
| Yuv.RangeEnds | src/ImageSharp/Formats/WebP/LossyUtils.cs:670-683 | Y = 16 is black, Y = 235 is white, and (128, 128, 128) gives 130 on every channel |
| Yuv.YuvToBgr | src/ImageSharp/Formats/WebP/LossyUtils.cs:663-668 | bgr[0], bgr[1], bgr[2] become blue, green and red; the rest of the span is unchanged |
| Yuv.LoadUv | src/ImageSharp/Formats/WebP/LossyUtils.cs:657-661 | u is recovered as `x & 0xFFFF` and v as `x >> 16` |
| Yuv.Memset | src/ImageSharp/Formats/WebP/LossyUtils.cs:685-691 | `count` words from startIdx become value and the rest are unchanged; nothing changes when count <= 0 |

## Where the code departs from RFC 6386

The model follows the code as written in each of these places.

- **NeedsFilter** (LossyUtils.cs:806-813) has the same body as **Hev**
  (:835-842): it asks whether |p1 - p0| or |q1 - q0| exceeds the threshold.
  Section 15.2 of RFC 6386 tests `4|p0 - q0| + |p1 - q1| <= 2 * limit + 1`
  instead. `Filter.NeedsFilterIsHev` states that the two tests are equal.
- **DoFilter6** (:792) clamps `a` with the unsigned Clip1, twice, where RFC
  6386 section 15.3 uses the signed clamp. The comment at :794 still claims a
  signed range. As a result `a` is never negative, and `Filter.Filter6OneSided`
  proves the filter only pulls the two sides together from one direction.
- **SimpleHFilter16i** (:595-602) advances by `stride` rather than 4. Its three
  edges are the rows below `offset`, not the columns 4, 8 and 12 to the right,
  so the three runs overlap and their order matters. `Filter.Edges` keeps
  that order.
- **VL4_C** writes Avg3(E, F, G) and Avg3(F, G, H) at (3, 2) and (3, 3)
  (:363-364). RFC 6386 section 12.3 does the same, and `Predict4.VL4LastColumn`
  states it.

## Left out

- **32-bit overflow.** Integers are unbounded. The products in MultHi, Mul1 and
  Mul2 and the sums of the transforms fit a 32-bit `int` for the coefficient
  ranges the decoder produces, and C# wrap-around is not modelled.
- **Coefficient width.** The coefficients are `Span<short>` in the source and
  `seq<int>` here. The model does not restrict them to 16 bits, so it states
  more than the source needs.
- **Lookup tables.** `Vp8LookupTables.Abs0`, `Clip1`, `Sclip1` and `Sclip2` are
  not part of this model. Each is taken as the meaning libwebp gives its table:
  - Abs0 is |x|;
  - Clip1 clamps to [0, 255];
  - Sclip1 clamps to [-128, 127];
  - Sclip2 clamps to [-16, 15].

  The tables' limited index range is not modelled.
- **WebPConstants.Bps** is not part of this model. It is taken as 32,
  libwebp's BPS.
- **Spans.** `Span.Slice`, `CopyTo` and `AsSpan` become offsets into the one
  buffer. An index outside a span, which throws in C#, is excluded by each
  method's `requires` on the offsets. That includes the `dst.Slice(Bps)` a
  row loop takes after its last row (HE16_C, HE8uv_C, TrueMotion,
  TransformOne), so those methods ask for one full row more than they write. The predictors' `dst` span is the yuv
  buffer from `offset` on, which is how the decoder calls them.
- **HE4_C's big-endian store** (:214-221) is modelled as four equal bytes
  (`Predict4.FillRow4`). The value is v * 0x01010101, so byte order does not
  matter.
- **Put16** takes a `byte` here. The source's `(byte)v` truncation is not
  modelled because every caller passes a DC value already in [0, 255].
- **VFilter8 and the other chroma filters** state the case where u and v are
  distinct arrays separately from the case where they are one array. The
  model does not describe a partial overlap of two distinct arrays, which
  C# arrays cannot have.
- **The loop filters' step** must be non-negative (`Filter.Taps`). Every caller
  in the source passes `stride` or 1.
- **The bitstream decoder** is not part of this model. Mode selection, frame
  assembly and the order in which the decoder calls the filters are not in
  LossyUtils.cs. Modes, coefficients, thresholds and offsets are parameters.
