/** Bathymetry fields: the bottom depth derived from the elevation grid, the land mask,
    and the depth-range mask. */
module Bathymetry {
  import opened Python
  import opened Raster

  /** `np.where(h >= 0, nan, -h)` at one cell: land and unknown cells are NaN, water
      cells hold the positive depth. */
  function BottomPx(h: Px): Px {
    if AtLeast(h, 0.0) || h.NaN? then NaN else Val(-h.v)
  }

  /** Every finite depth is positive; the depth is NaN exactly at land (h >= 0) and
      unknown cells, and depth and elevation have opposite signs elsewhere. */
  lemma BottomCell(h: Px)
    ensures BottomPx(h) == NaN <==> h == NaN || AtLeast(h, 0.0)
    ensures BottomPx(h) != NaN ==> Positive(BottomPx(h)) && BottomPx(h).v == -h.v
  {
  }

  /** `get_bottom`: the depth field of the (reprojected) elevation grid. */
  function Bottom(h: Grid<Px>): (d: Grid<Px>)
    ensures |d| == |h| && forall r :: 0 <= r < |h| ==> |d[r]| == |h[r]|
  {
    seq(|h|, r requires 0 <= r < |h| => seq(|h[r]|, c requires 0 <= c < |h[r]| => BottomPx(h[r][c])))
  }

  /** `np.where(np.isfinite(h), nan, 1)`: 1 over land, NaN over water. */
  function LandMask(d: Grid<Px>): (m: Grid<Px>)
    ensures |m| == |d| && forall r :: 0 <= r < |d| ==> |m[r]| == |d[r]|
  {
    seq(|d|, r requires 0 <= r < |d| => seq(|d[r]|, c requires 0 <= c < |d[r]| =>
      if d[r][c].NaN? then Val(1.0) else NaN))
  }

  /** `get_land_mask`: the land mask is 1 exactly where the elevation is >= 0 or unknown,
      and NaN at every water cell. */
  lemma LandMaskOfBottom(h: Grid<Px>, r: nat, c: nat)
    requires r < |h| && c < |h[r]|
    ensures LandMask(Bottom(h))[r][c] == if h[r][c].NaN? || AtLeast(h[r][c], 0.0) then Val(1.0) else NaN
  {
  }

  /** One depth-range cell: `> h_max` becomes mask_val, then (when h_min is given)
      `< h_min`, tested on the already-updated value. */
  function HMaskPx(d: Px, hMax: real, hMin: Option<real>, maskVal: Px): Px {
    var d1 := if Above(d, hMax) then maskVal else d;
    if hMin.Some? && Below(d1, hMin.value) then maskVal else d1
  }

  /** `get_h_mask` on a depth grid. */
  function HMaskSpec(d: Grid<Px>, hMax: real, hMin: Option<real>, maskVal: Px): (m: Grid<Px>)
    ensures |m| == |d| && forall r :: 0 <= r < |d| ==> |m[r]| == |d[r]|
  {
    seq(|d|, r requires 0 <= r < |d| => seq(|d[r]|, c requires 0 <= c < |d[r]| => HMaskPx(d[r][c], hMax, hMin, maskVal)))
  }

  /** Depths deeper than h_max, or shallower than a given h_min, become mask_val; every
      other cell is unchanged. */
  lemma HMaskCell(d: Px, hMax: real, hMin: Option<real>, maskVal: Px)
    ensures HMaskPx(d, hMax, hMin, maskVal) ==
      if Above(d, hMax) || (hMin.Some? && Below(d, hMin.value)) then maskVal else d
  {
  }

  /** The masked assignments of `get_h_mask`, in place on the depth array. */
  method ApplyHMask(a: array2<Px>, hMax: real, hMin: Option<real>, maskVal: Px)
    modifies a
    ensures GridOf(a) == HMaskSpec(old(GridOf(a)), hMax, hMin, maskVal)
  {
    ghost var d := GridOf(a);
    forall r, c | 0 <= r < a.Length0 && 0 <= c < a.Length1 && Above(a[r, c], hMax) {
      a[r, c] := maskVal;
    }
    if hMin.Some? {
      forall r, c | 0 <= r < a.Length0 && 0 <= c < a.Length1 && Below(a[r, c], hMin.value) {
        a[r, c] := maskVal;
      }
    }
    assert forall r, c :: 0 <= r < a.Length0 && 0 <= c < a.Length1 ==> a[r, c] == HMaskPx(d[r][c], hMax, hMin, maskVal);
    GridsEqual(GridOf(a), HMaskSpec(d, hMax, hMin, maskVal), a.Length0, a.Length1);
  }

  /** The depth mask `np.isnan(get_h_mask(h_max))`: the cells with no valid depth no
      deeper than h_max. */
  function DepthMask(h: Grid<Px>, hMax: real): Grid<bool> {
    var m := HMaskSpec(Bottom(h), hMax, None, NaN);
    seq(|m|, r requires 0 <= r < |m| => seq(|m[r]|, c requires 0 <= c < |m[r]| => m[r][c].NaN?))
  }

  lemma DepthMaskShaped(h: Grid<Px>, hMax: real, rows: nat, cols: nat)
    requires Shaped(h, rows, cols)
    ensures Shaped(DepthMask(h, hMax), rows, cols)
  {
  }

  /** A cell is masked exactly when it is land or unknown (elevation >= 0 or NaN) or
      deeper than h_max. */
  lemma DepthMaskCell(h: Grid<Px>, hMax: real, r: nat, c: nat)
    requires r < |h| && c < |h[r]|
    ensures r < |DepthMask(h, hMax)| && c < |DepthMask(h, hMax)[r]|
    ensures DepthMask(h, hMax)[r][c] <==>
      h[r][c].NaN? || AtLeast(h[r][c], 0.0) || -h[r][c].v > hMax
  {
    BottomCell(h[r][c]);
    HMaskCell(Bottom(h)[r][c], hMax, None, NaN);
  }
}
