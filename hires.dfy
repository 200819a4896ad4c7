/** The high-resolution cube pipeline: out-of-swath removal, the water/depth/cloud mask,
    pre-smoothing nulling, band truncation, the per-band transform and the crop. Each stage
    is a function on cube values and a method doing the same update on a 3-D array. */
module Hires {
  import opened Python
  import opened Raster

  /** `x[:, m] = nan`: every band nulled at the cells where m holds. */
  function NullCells(x: Cube, m: Grid<bool>): Cube {
    seq(|x|, b requires 0 <= b < |x| => NullWhere(x[b], m))
  }

  /** Nulling keeps the cube's shape, writes NaN exactly at the masked cells of every
      band, and leaves every other cell as it was. */
  lemma NullCellsAt(x: Cube, m: Grid<bool>, rows: nat, cols: nat)
    requires IsCube(x, rows, cols) && Shaped(m, rows, cols)
    ensures |NullCells(x, m)| == |x| && IsCube(NullCells(x, m), rows, cols)
    ensures forall b, r, c :: 0 <= b < |x| && 0 <= r < rows && 0 <= c < cols ==>
      NullCells(x, m)[b][r][c] == if m[r][c] then NaN else x[b][r][c]
  {
  }

  /** Cells whose value equals t (`g == t`; false at NaN). */
  function EqualsMask(g: Grid<Px>, t: real): Grid<bool> {
    seq(|g|, r requires 0 <= r < |g| => seq(|g[r]|, c requires 0 <= c < |g[r]| => Equals(g[r][c], t)))
  }

  /** Cells whose value exceeds t (`g > t`; false at NaN). */
  function AboveMask(g: Grid<Px>, t: real): Grid<bool> {
    seq(|g|, r requires 0 <= r < |g| => seq(|g[r]|, c requires 0 <= c < |g[r]| => Above(g[r][c], t)))
  }

  /** Cells whose value is below t (`g < t`; false at NaN). */
  function BelowMask(g: Grid<Px>, t: real): Grid<bool> {
    seq(|g|, r requires 0 <= r < |g| => seq(|g[r]|, c requires 0 <= c < |g[r]| => Below(g[r][c], t)))
  }

  /** Cells of a real-valued grid above t (the filtered watermask is never NaN). */
  function RealAboveMask(g: Grid<real>, t: real): Grid<bool> {
    seq(|g|, r requires 0 <= r < |g| => seq(|g[r]|, c requires 0 <= c < |g[r]| => g[r][c] > t))
  }

  /** `hires[:, hires[0] == 0] = nan`: the cells where band 0 is exactly 0 are outside the
      swath, and every band is nulled there. */
  function RemoveOutOfSwath(x: Cube): Cube
    requires |x| > 0
  {
    NullCells(x, EqualsMask(x[0], 0.0))
  }

  /** Where band 0 is exactly 0 every band becomes NaN; elsewhere nothing changes. */
  lemma OutOfSwathCells(x: Cube, rows: nat, cols: nat)
    requires |x| > 0 && IsCube(x, rows, cols)
    ensures |RemoveOutOfSwath(x)| == |x| && IsCube(RemoveOutOfSwath(x), rows, cols)
    ensures forall b, r, c :: 0 <= b < |x| && 0 <= r < rows && 0 <= c < cols ==>
      RemoveOutOfSwath(x)[b][r][c] == if Equals(x[0][r][c], 0.0) then NaN else x[b][r][c]
  {
    NullCellsAt(x, EqualsMask(x[0], 0.0), rows, cols);
  }

  /** `mask`: null where the filtered watermask exceeds 1, then (when given) where the depth
      mask holds, then where band 7 exceeds bMax, then where band 0 is below bMin; each
      cloud test reads the cube as updated by the stages before it. */
  function MaskCube(x: Cube, wmf: Grid<real>, depth: Option<Grid<bool>>, bMax: real, bMin: real): Cube
    requires |x| > 7
  {
    var x1 := NullCells(x, RealAboveMask(wmf, 1.0));
    var x2 := if depth.Some? then NullCells(x1, depth.value) else x1;
    var x3 := NullCells(x2, AboveMask(x2[7], bMax));
    NullCells(x3, BelowMask(x3[0], bMin))
  }

  /** The reference definition of the mask: a cell is masked when any test holds on the
      ORIGINAL cube. */
  predicate Masked(x: Cube, wmf: Grid<real>, depth: Option<Grid<bool>>, bMax: real, bMin: real, r: nat, c: nat)
    requires |x| > 7 && r < |x[0]| && c < |x[0][r]| && r < |x[7]| && c < |x[7][r]|
    requires r < |wmf| && c < |wmf[r]|
    requires depth.Some? ==> r < |depth.value| && c < |depth.value[r]|
  {
    wmf[r][c] > 1.0 || (depth.Some? && depth.value[r][c]) || Above(x[7][r][c], bMax) || Below(x[0][r][c], bMin)
  }

  /** Sequential masking equals the union of the tests on the original values: a masked
      cell is NaN in every band, an unmasked cell keeps every band's value. So the mask
      only ever writes NaN and never restores a value. */
  lemma MaskUnion(x: Cube, wmf: Grid<real>, depth: Option<Grid<bool>>, bMax: real, bMin: real, rows: nat, cols: nat)
    requires |x| > 7 && IsCube(x, rows, cols) && Shaped(wmf, rows, cols)
    requires depth.Some? ==> Shaped(depth.value, rows, cols)
    ensures |MaskCube(x, wmf, depth, bMax, bMin)| == |x| && IsCube(MaskCube(x, wmf, depth, bMax, bMin), rows, cols)
    ensures forall b, r, c :: 0 <= b < |x| && 0 <= r < rows && 0 <= c < cols ==>
      MaskCube(x, wmf, depth, bMax, bMin)[b][r][c] ==
        if Masked(x, wmf, depth, bMax, bMin, r, c) then NaN else x[b][r][c]
  {
    var x1 := NullCells(x, RealAboveMask(wmf, 1.0));
    NullCellsAt(x, RealAboveMask(wmf, 1.0), rows, cols);
    var x2 := if depth.Some? then NullCells(x1, depth.value) else x1;
    if depth.Some? {
      NullCellsAt(x1, depth.value, rows, cols);
    }
    var x3 := NullCells(x2, AboveMask(x2[7], bMax));
    NullCellsAt(x2, AboveMask(x2[7], bMax), rows, cols);
    NullCellsAt(x3, BelowMask(x3[0], bMin), rows, cols);
  }

  /** Masking twice with the same watermask and depth mask is masking once. */
  lemma MaskIdempotent(x: Cube, wmf: Grid<real>, depth: Option<Grid<bool>>, bMax: real, bMin: real, rows: nat, cols: nat)
    requires |x| > 7 && IsCube(x, rows, cols) && Shaped(wmf, rows, cols)
    requires depth.Some? ==> Shaped(depth.value, rows, cols)
    ensures |MaskCube(x, wmf, depth, bMax, bMin)| > 7
    ensures MaskCube(MaskCube(x, wmf, depth, bMax, bMin), wmf, depth, bMax, bMin) == MaskCube(x, wmf, depth, bMax, bMin)
  {
    var y := MaskCube(x, wmf, depth, bMax, bMin);
    MaskUnion(x, wmf, depth, bMax, bMin, rows, cols);
    MaskUnion(y, wmf, depth, bMax, bMin, rows, cols);
    var z := MaskCube(y, wmf, depth, bMax, bMin);
    forall b, r, c | 0 <= b < |y| && 0 <= r < rows && 0 <= c < cols ensures z[b][r][c] == y[b][r][c] {
      if !Masked(x, wmf, depth, bMax, bMin, r, c) {
        assert y[7][r][c] == x[7][r][c] && y[0][r][c] == x[0][r][c];
      }
    }
    CubeExt(z, y, rows, cols);
  }

  /** `smooth`: null every band at the negative-pixel cells, then apply the Gaussian
      filter, whose value at each position is an opaque function of the nulled cube. */
  function SmoothCube(x: Cube, negpix: Grid<bool>, kernel: (Cube, nat, nat, nat) -> Px, rows: nat, cols: nat): (y: Cube)
    ensures |y| == |x| && IsCube(y, rows, cols)
  {
    var z := NullCells(x, negpix);
    seq(|z|, b requires 0 <= b < |z| => seq(rows, r requires 0 <= r < rows => seq(cols, c requires 0 <= c < cols => kernel(z, b, r, c))))
  }

  /** `hires[0:n]`: the first n bands (all of them when there are fewer). */
  function KeepBands(x: Cube, n: nat): (y: Cube)
    ensures |y| == Min(n, |x|) && forall b :: 0 <= b < |y| ==> y[b] == x[b]
  {
    x[..Min(n, |x|)]
  }

  /** One cell of `log10(v + 1)`: NaN stays NaN; the finite case is an opaque function. */
  function LogPx(p: Px, f: real -> Px): Px {
    if p.NaN? then NaN else f(p.v)
  }

  /** The per-band transform applied to every band. */
  function LogCube(x: Cube, f: real -> Px): (y: Cube)
    ensures |y| == |x|
  {
    seq(|x|, b requires 0 <= b < |x| =>
      seq(|x[b]|, r requires 0 <= r < |x[b]| =>
        seq(|x[b][r]|, c requires 0 <= c < |x[b][r]| => LogPx(x[b][r][c], f))))
  }

  /** The transform keeps the shape and every NaN cell. */
  lemma LogKeepsNaN(x: Cube, f: real -> Px, rows: nat, cols: nat)
    requires IsCube(x, rows, cols)
    ensures IsCube(LogCube(x, f), rows, cols)
    ensures forall b, r, c :: 0 <= b < |x| && 0 <= r < rows && 0 <= c < cols && x[b][r][c] == NaN ==>
      LogCube(x, f)[b][r][c] == NaN
  {
  }

  /** `hires[:, :n, :n]`: the top-left n x n window of every band. */
  function CropCube(x: Cube, n: nat): (y: Cube)
    ensures |y| == |x|
  {
    seq(|x|, b requires 0 <= b < |x| => Window(x[b], n))
  }

  /** The crop is a window: every band has the clipped shape and agrees with the cube at
      every shared coordinate. */
  lemma CropAgrees(x: Cube, n: nat, rows: nat, cols: nat)
    requires IsCube(x, rows, cols)
    ensures IsCube(CropCube(x, n), Min(n, rows), Min(n, cols))
    ensures forall b, r, c :: 0 <= b < |x| && 0 <= r < Min(n, rows) && 0 <= c < Min(n, cols) ==>
      CropCube(x, n)[b][r][c] == x[b][r][c]
  {
    forall b | 0 <= b < |x| ensures Shaped(CropCube(x, n)[b], Min(n, rows), Min(n, cols)) &&
      forall r, c :: 0 <= r < Min(n, rows) && 0 <= c < Min(n, cols) ==> CropCube(x, n)[b][r][c] == x[b][r][c]
    {
      WindowAgrees(x[b], rows, cols, n);
    }
  }

  /** Which optional stages run. */
  datatype Stages = Stages(mask: bool, smooth: bool, skip: bool, log: bool, cut: bool)

  /** The inputs of the stages: the filtered watermask, the optional depth mask, the
      negative-pixel mask (present when negative pixels are tracked), the Gaussian filter
      and the per-band transform. */
  datatype Inputs = Inputs(wmf: Grid<real>, depth: Option<Grid<bool>>, negpix: Option<Grid<bool>>,
                           kernel: (Cube, nat, nat, nat) -> Px, logf: real -> Px)

  /** The cube after the stages, in their fixed order: out-of-swath, mask, smooth (only
      with both `smooth` and a negative-pixel mask), keep 5 bands, transform, crop. */
  function Staged(x: Cube, st: Stages, inp: Inputs, bMax: real, bMin: real, cutsize: nat, rows: nat, cols: nat): Cube
    requires |x| > 7
  {
    var x1 := Cleaned(x, st.mask, inp, bMax, bMin);
    var x2 := if st.smooth && inp.negpix.Some? then SmoothCube(x1, inp.negpix.value, inp.kernel, rows, cols) else x1;
    Refined(x2, st, inp, cutsize)
  }

  /** The first two stages: out-of-swath removal, then the optional mask. */
  function Cleaned(x: Cube, mask: bool, inp: Inputs, bMax: real, bMin: real): Cube
    requires |x| > 7
  {
    var x0 := RemoveOutOfSwath(x);
    if mask then MaskCube(x0, inp.wmf, inp.depth, bMax, bMin) else x0
  }

  /** The last three stages: keep five bands, transform, crop. */
  function Refined(x2: Cube, st: Stages, inp: Inputs, cutsize: nat): Cube {
    var x3 := if st.skip then KeepBands(x2, 5) else x2;
    var x4 := if st.log then LogCube(x3, inp.logf) else x3;
    if st.cut then CropCube(x4, cutsize) else x4
  }

  /** The stages keep the cube's shape (cropped when `cut`) and its band count (five at
      most when `skip`). */
  lemma StagedShape(x: Cube, st: Stages, inp: Inputs, bMax: real, bMin: real, cutsize: nat, rows: nat, cols: nat)
    requires |x| > 7 && IsCube(x, rows, cols) && Shaped(inp.wmf, rows, cols)
    requires inp.depth.Some? ==> Shaped(inp.depth.value, rows, cols)
    ensures |Staged(x, st, inp, bMax, bMin, cutsize, rows, cols)| == if st.skip then 5 else |x|
    ensures IsCube(Staged(x, st, inp, bMax, bMin, cutsize, rows, cols),
                   if st.cut then Min(cutsize, rows) else rows, if st.cut then Min(cutsize, cols) else cols)
  {
    var x1 := Cleaned(x, st.mask, inp, bMax, bMin);
    CleanedShape(x, st.mask, inp, bMax, bMin, rows, cols);
    var x2 := if st.smooth && inp.negpix.Some? then SmoothCube(x1, inp.negpix.value, inp.kernel, rows, cols) else x1;
    assert |x2| == |x| && IsCube(x2, rows, cols);
    RefinedShape(x2, st, inp, cutsize, rows, cols);
  }

  /** The first two stages keep the band count and the shape. */
  lemma CleanedShape(x: Cube, mask: bool, inp: Inputs, bMax: real, bMin: real, rows: nat, cols: nat)
    requires |x| > 7 && IsCube(x, rows, cols) && Shaped(inp.wmf, rows, cols)
    requires inp.depth.Some? ==> Shaped(inp.depth.value, rows, cols)
    ensures |Cleaned(x, mask, inp, bMax, bMin)| == |x| && IsCube(Cleaned(x, mask, inp, bMax, bMin), rows, cols)
  {
    OutOfSwathCells(x, rows, cols);
    if mask {
      MaskUnion(RemoveOutOfSwath(x), inp.wmf, inp.depth, bMax, bMin, rows, cols);
    }
  }

  /** The last three stages keep five bands when `skip` and crop the shape when `cut`. */
  lemma RefinedShape(x2: Cube, st: Stages, inp: Inputs, cutsize: nat, rows: nat, cols: nat)
    requires |x2| > 7 && IsCube(x2, rows, cols)
    ensures |Refined(x2, st, inp, cutsize)| == if st.skip then 5 else |x2|
    ensures IsCube(Refined(x2, st, inp, cutsize), if st.cut then Min(cutsize, rows) else rows, if st.cut then Min(cutsize, cols) else cols)
  {
    var x3 := if st.skip then KeepBands(x2, 5) else x2;
    assert |x3| == (if st.skip then 5 else |x2|) && IsCube(x3, rows, cols);
    var x4 := if st.log then LogCube(x3, inp.logf) else x3;
    if st.log {
      LogKeepsNaN(x3, inp.logf, rows, cols);
    }
    assert |x4| == |x3| && IsCube(x4, rows, cols);
    if st.cut {
      CropAgrees(x4, cutsize, rows, cols);
    }
  }

  /** Every stage after the out-of-swath removal, except the opaque filter, keeps a cell
      that is NaN in every band NaN in every band (inside the crop window). */
  lemma {:induction false} LaterStagesKeepNaN(x1: Cube, st: Stages, inp: Inputs, cutsize: nat,
                                              rows: nat, cols: nat, b: nat, r: nat, c: nat)
    requires IsCube(x1, rows, cols) && r < rows && c < cols
    requires forall k :: 0 <= k < |x1| ==> x1[k][r][c] == NaN
    requires b < (if st.skip then Min(5, |x1|) else |x1|) && (st.cut ==> r < cutsize && c < cutsize)
    ensures var x3 := if st.skip then KeepBands(x1, 5) else x1;
      var x4 := if st.log then LogCube(x3, inp.logf) else x3;
      var y := if st.cut then CropCube(x4, cutsize) else x4;
      b < |y| && r < |y[b]| && c < |y[b][r]| && y[b][r][c] == NaN
  {
    var x3 := if st.skip then KeepBands(x1, 5) else x1;
    assert IsCube(x3, rows, cols) && x3[b][r][c] == NaN;
    var x4 := if st.log then LogCube(x3, inp.logf) else x3;
    if st.log {
      LogKeepsNaN(x3, inp.logf, rows, cols);
    }
    assert IsCube(x4, rows, cols) && x4[b][r][c] == NaN;
    if st.cut {
      CropAgrees(x4, cutsize, rows, cols);
    }
  }

  /** After the out-of-swath removal and the optional mask, a cell that started outside
      the swath is NaN in every band. */
  lemma SwathCellMasked(x: Cube, mask: bool, inp: Inputs, bMax: real, bMin: real, rows: nat, cols: nat, r: nat, c: nat)
    requires |x| > 7 && IsCube(x, rows, cols) && Shaped(inp.wmf, rows, cols)
    requires inp.depth.Some? ==> Shaped(inp.depth.value, rows, cols)
    requires r < rows && c < cols && Equals(x[0][r][c], 0.0)
    ensures var x0 := RemoveOutOfSwath(x);
      var x1 := if mask then MaskCube(x0, inp.wmf, inp.depth, bMax, bMin) else x0;
      |x1| == |x| && IsCube(x1, rows, cols) && forall k :: 0 <= k < |x1| ==> x1[k][r][c] == NaN
  {
    var x0 := RemoveOutOfSwath(x);
    OutOfSwathCells(x, rows, cols);
    if mask {
      MaskUnion(x0, inp.wmf, inp.depth, bMax, bMin, rows, cols);
    }
  }

  /** Out-of-swath nulling survives every later stage except the opaque filter: a cell
      that starts outside the swath is NaN in every band of the result (when it lies in
      the crop window). */
  lemma SwathNullPersists(x: Cube, st: Stages, inp: Inputs, bMax: real, bMin: real, cutsize: nat,
                          rows: nat, cols: nat, b: nat, r: nat, c: nat)
    requires |x| > 7 && IsCube(x, rows, cols) && Shaped(inp.wmf, rows, cols)
    requires inp.depth.Some? ==> Shaped(inp.depth.value, rows, cols)
    requires !(st.smooth && inp.negpix.Some?)
    requires r < rows && c < cols && Equals(x[0][r][c], 0.0)
    requires b < (if st.skip then 5 else |x|) && (st.cut ==> r < cutsize && c < cutsize)
    ensures var y := Staged(x, st, inp, bMax, bMin, cutsize, rows, cols);
      b < |y| && r < |y[b]| && c < |y[b][r]| && y[b][r][c] == NaN
  {
    SwathCellMasked(x, st.mask, inp, bMax, bMin, rows, cols, r, c);
    var x0 := RemoveOutOfSwath(x);
    var x1 := if st.mask then MaskCube(x0, inp.wmf, inp.depth, bMax, bMin) else x0;
    LaterStagesKeepNaN(x1, st, inp, cutsize, rows, cols, b, r, c);
  }

  /** With the mask on and no filter, a cell the watermask or the depth mask selects is
      NaN in every band of the result (when it lies in the crop window), whatever the
      cube held there. */
  lemma MaskNullPersists(x: Cube, st: Stages, inp: Inputs, bMax: real, bMin: real, cutsize: nat,
                         rows: nat, cols: nat, b: nat, r: nat, c: nat)
    requires |x| > 7 && IsCube(x, rows, cols) && Shaped(inp.wmf, rows, cols)
    requires inp.depth.Some? ==> Shaped(inp.depth.value, rows, cols)
    requires st.mask && !(st.smooth && inp.negpix.Some?)
    requires r < rows && c < cols && (inp.wmf[r][c] > 1.0 || (inp.depth.Some? && inp.depth.value[r][c]))
    requires b < (if st.skip then 5 else |x|) && (st.cut ==> r < cutsize && c < cutsize)
    ensures var y := Staged(x, st, inp, bMax, bMin, cutsize, rows, cols);
      b < |y| && r < |y[b]| && c < |y[b][r]| && y[b][r][c] == NaN
  {
    var x0 := RemoveOutOfSwath(x);
    OutOfSwathCells(x, rows, cols);
    MaskUnion(x0, inp.wmf, inp.depth, bMax, bMin, rows, cols);
    var x1 := MaskCube(x0, inp.wmf, inp.depth, bMax, bMin);
    assert Masked(x0, inp.wmf, inp.depth, bMax, bMin, r, c);
    LaterStagesKeepNaN(x1, st, inp, cutsize, rows, cols, b, r, c);
  }

  // The same stages as updates of a 3-D array.

  /** `a[:, m] = nan` in place. */
  method NullAt(a: array3<Px>, m: Grid<bool>)
    requires Shaped(m, a.Length1, a.Length2)
    modifies a
    ensures CubeOf(a) == NullCells(old(CubeOf(a)), m)
  {
    ghost var x := CubeOf(a);
    forall b, r, c | 0 <= b < a.Length0 && 0 <= r < a.Length1 && 0 <= c < a.Length2 && m[r][c] {
      a[b, r, c] := NaN;
    }
    NullCellsAt(x, m, a.Length1, a.Length2);
    CubeExt(CubeOf(a), NullCells(x, m), a.Length1, a.Length2);
  }

  /** `hires[:, hires[0] == 0] = nan`: the mask is taken before any cell is written. */
  method RemoveOutOfSwathInPlace(a: array3<Px>)
    requires a.Length0 > 0
    modifies a
    ensures CubeOf(a) == RemoveOutOfSwath(old(CubeOf(a)))
  {
    var m := EqualsMask(CubeOf(a)[0], 0.0);
    NullAt(a, m);
  }

  /** `mask` in place: each test is taken on the array as the previous one left it. */
  method MaskInPlace(a: array3<Px>, wmf: Grid<real>, depth: Option<Grid<bool>>, bMax: real, bMin: real)
    requires a.Length0 > 7 && Shaped(wmf, a.Length1, a.Length2)
    requires depth.Some? ==> Shaped(depth.value, a.Length1, a.Length2)
    modifies a
    ensures CubeOf(a) == MaskCube(old(CubeOf(a)), wmf, depth, bMax, bMin)
  {
    NullAt(a, RealAboveMask(wmf, 1.0));
    if depth.Some? {
      NullAt(a, depth.value);
    }
    NullAt(a, AboveMask(CubeOf(a)[7], bMax));
    NullAt(a, BelowMask(CubeOf(a)[0], bMin));
  }

  /** `smooth`: the negative-pixel cells are nulled in place, then the filter builds a new
      array. */
  method SmoothArray(a: array3<Px>, negpix: Grid<bool>, kernel: (Cube, nat, nat, nat) -> Px) returns (s: array3<Px>)
    requires Shaped(negpix, a.Length1, a.Length2)
    modifies a
    ensures fresh(s)
    ensures CubeOf(a) == NullCells(old(CubeOf(a)), negpix)
    ensures CubeOf(s) == SmoothCube(old(CubeOf(a)), negpix, kernel, a.Length1, a.Length2)
  {
    NullAt(a, negpix);
    var z := CubeOf(a);
    s := new Px[a.Length0, a.Length1, a.Length2]((b: nat, r: nat, c: nat) => kernel(z, b, r, c));
    ghost var y := SmoothCube(old(CubeOf(a)), negpix, kernel, a.Length1, a.Length2);
    CubeExt(CubeOf(s), y, a.Length1, a.Length2);
  }

  /** `a[0:n]`: a new array holding the first n bands. */
  method KeepFirst(a: array3<Px>, n: nat) returns (k: array3<Px>)
    ensures fresh(k)
    ensures CubeOf(k) == KeepBands(CubeOf(a), n)
  {
    k := new Px[Min(n, a.Length0), a.Length1, a.Length2];
    forall b, r, c | 0 <= b < k.Length0 && 0 <= r < k.Length1 && 0 <= c < k.Length2 {
      k[b, r, c] := a[b, r, c];
    }
    CubeExt(CubeOf(k), KeepBands(CubeOf(a), n), a.Length1, a.Length2);
  }

  /** `for hrn in range(len(a)): a[hrn] = log10(a[hrn] + 1)`, band by band in place. */
  method LogBands(a: array3<Px>, f: real -> Px)
    modifies a
    ensures CubeOf(a) == LogCube(old(CubeOf(a)), f)
  {
    ghost var x := CubeOf(a);
    var i := 0;
    while i < a.Length0
      invariant 0 <= i <= a.Length0
      invariant forall b, r, c :: 0 <= b < a.Length0 && 0 <= r < a.Length1 && 0 <= c < a.Length2 ==>
        a[b, r, c] == if b < i then LogPx(x[b][r][c], f) else x[b][r][c]
    {
      forall r, c | 0 <= r < a.Length1 && 0 <= c < a.Length2 {
        a[i, r, c] := LogPx(a[i, r, c], f);
      }
      i := i + 1;
    }
    LogKeepsNaN(x, f, a.Length1, a.Length2);
    CubeExt(CubeOf(a), LogCube(x, f), a.Length1, a.Length2);
  }

  /** `a[:, :n, :n]`: a new array holding the top-left window of every band. */
  method CropArray(a: array3<Px>, n: nat) returns (k: array3<Px>)
    ensures fresh(k)
    ensures CubeOf(k) == CropCube(CubeOf(a), n)
  {
    k := new Px[a.Length0, Min(n, a.Length1), Min(n, a.Length2)];
    forall b, r, c | 0 <= b < k.Length0 && 0 <= r < k.Length1 && 0 <= c < k.Length2 {
      k[b, r, c] := a[b, r, c];
    }
    CropAgrees(CubeOf(a), n, a.Length1, a.Length2);
    CubeExt(CubeOf(k), CropCube(CubeOf(a), n), Min(n, a.Length1), Min(n, a.Length2));
  }

  /** Out-of-swath removal and the optional mask, in place. */
  method CleanInPlace(a: array3<Px>, mask: bool, inp: Inputs, bMax: real, bMin: real)
    requires a.Length0 > 7 && Shaped(inp.wmf, a.Length1, a.Length2)
    requires inp.depth.Some? ==> Shaped(inp.depth.value, a.Length1, a.Length2)
    modifies a
    ensures CubeOf(a) == Cleaned(old(CubeOf(a)), mask, inp, bMax, bMin)
  {
    RemoveOutOfSwathInPlace(a);
    if mask {
      MaskInPlace(a, inp.wmf, inp.depth, bMax, bMin);
    }
  }

  /** The stages in their fixed order on the array; the result is the input array or a
      new one. */
  method RunStages(a: array3<Px>, st: Stages, inp: Inputs, bMax: real, bMin: real, cutsize: nat) returns (h: array3<Px>)
    requires a.Length0 > 7 && Shaped(inp.wmf, a.Length1, a.Length2)
    requires inp.depth.Some? ==> Shaped(inp.depth.value, a.Length1, a.Length2)
    requires inp.negpix.Some? ==> Shaped(inp.negpix.value, a.Length1, a.Length2)
    modifies a
    ensures h == a || fresh(h)
    ensures CubeOf(h) == Staged(old(CubeOf(a)), st, inp, bMax, bMin, cutsize, a.Length1, a.Length2)
  {
    ghost var x := CubeOf(a);
    CleanInPlace(a, st.mask, inp, bMax, bMin);
    ghost var x1 := Cleaned(x, st.mask, inp, bMax, bMin);
    assert CubeOf(a) == x1;
    h := a;
    if st.smooth && inp.negpix.Some? {
      h := SmoothArray(a, inp.negpix.value, inp.kernel);
    }
    ghost var x2 := if st.smooth && inp.negpix.Some? then SmoothCube(x1, inp.negpix.value, inp.kernel, a.Length1, a.Length2) else x1;
    assert CubeOf(h) == x2;
    h := Refine(h, st, inp, cutsize);
    assert CubeOf(h) == Refined(x2, st, inp, cutsize);
  }

  /** Keep five bands, transform, crop. */
  method Refine(a: array3<Px>, st: Stages, inp: Inputs, cutsize: nat) returns (h: array3<Px>)
    modifies a
    ensures h == a || fresh(h)
    ensures CubeOf(h) == Refined(old(CubeOf(a)), st, inp, cutsize)
  {
    h := a;
    if st.skip {
      h := KeepFirst(h, 5);
    }
    if st.log {
      LogBands(h, inp.logf);
    }
    if st.cut {
      h := CropArray(h, cutsize);
    }
  }
}
