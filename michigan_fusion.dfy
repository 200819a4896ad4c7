/** The fusion class of the `michigan` package: its constants, the optional depth limit
    fed to the mask, and the MODIS band sets `fusion` chooses from. */
module MichiganFusion {
  import opened Python
  import opened Raster
  import opened Bands
  import opened Bathymetry
  import opened Hires
  import opened FusionCore

  /** `bMax = 2300`, `bMin = -30`, `cutsize = 2000`. */
  const Consts: Constants := Constants(2300.0, -30.0, 2000)

  /** The `h_mask` default, meaning no depth limit. */
  const NoDepthLimit: int := 9999

  /** The depth mask handed to `mask`: none for the default, otherwise the cells with no
      valid depth within `h_mask` metres of the bathymetry. */
  function DepthArg(hMask: int, elevation: Grid<Px>): Option<Grid<bool>> {
    if hMask == NoDepthLimit then None else Some(DepthMask(elevation, hMask as real))
  }

  /** A depth limit is applied exactly when `h_mask` is not the default, and it then
      selects the land and unknown cells and the cells deeper than the limit. */
  lemma DepthArgCells(hMask: int, elevation: Grid<Px>, r: nat, c: nat)
    requires r < |elevation| && c < |elevation[r]|
    ensures DepthArg(hMask, elevation).Some? <==> hMask != 9999
    ensures hMask != 9999 ==> var m := DepthArg(hMask, elevation).value;
      r < |m| && c < |m[r]| &&
      (m[r][c] <==> elevation[r][c].NaN? || AtLeast(elevation[r][c], 0.0) || -elevation[r][c].v > hMask as real)
  {
    DepthMaskCell(elevation, hMask as real, r, c);
  }

  /** `__init__` with this class's constants and depth limit (the reprojected files and
      the bathymetry on the processing domain are parameters). */
  function MichiganInit(lores: seq<Band>, hiresFile: Option<seq<Band>>, opt: Options, hMask: int, elevation: Grid<Px>,
                        wmf: Grid<real>, kernel: (Cube, nat, nat, nat) -> Px, logf: real -> Px,
                        rows: nat, cols: nat): Result<FusionState> {
    InitSpec(lores, hiresFile, opt, Consts, wmf, DepthArg(hMask, elevation), kernel, logf, rows, cols)
  }

  /** With the mask on, no filter and a depth limit, every land, unknown or too-deep cell
      is NaN in every kept band of the cube (inside the crop window). */
  lemma DepthLimitApplies(lores: seq<Band>, hiresFile: Option<seq<Band>>, opt: Options, hMask: int, elevation: Grid<Px>,
                          wmf: Grid<real>, kernel: (Cube, nat, nat, nat) -> Px, logf: real -> Px,
                          rows: nat, cols: nat, b: nat, r: nat, c: nat)
    requires OnDomain(lores, rows, cols) && Shaped(wmf, rows, cols) && Shaped(elevation, rows, cols)
    requires hiresFile.Some? ==> OnDomain(hiresFile.value, rows, cols)
    requires MichiganInit(lores, hiresFile, opt, hMask, elevation, wmf, kernel, logf, rows, cols).Success?
    requires opt.mask && !opt.smooth && hMask != NoDepthLimit
    requires r < rows && c < cols
    requires elevation[r][c].NaN? || AtLeast(elevation[r][c], 0.0) || -elevation[r][c].v > hMask as real
    requires b < (if opt.skip then 5 else |Sentinel2|) && (opt.cut ==> r < Consts.cutsize && c < Consts.cutsize)
    ensures var h := MichiganInit(lores, hiresFile, opt, hMask, elevation, wmf, kernel, logf, rows, cols).value.hires;
      b < |h| && r < |h[b]| && c < |h[b][r]| && h[b][r][c] == NaN
  {
    var depth := DepthArg(hMask, elevation);
    DepthMaskShaped(elevation, hMask as real, rows, cols);
    DepthArgCells(hMask, elevation, r, c);
    var negpix := NegPix(lores, opt.negativePx).value;
    var cube := LookupBands(hiresFile.value, RrsNames(Sentinel2)).value;
    ShapedLookup(hiresFile.value, RrsNames(Sentinel2), rows, cols);
    var inp := Inputs(wmf, depth, negpix, kernel, logf);
    MaskNullPersists(cube, StagesOf(opt), inp, Consts.bMax, Consts.bMin, Consts.cutsize, rows, cols, b, r, c);
    assert MichiganInit(lores, hiresFile, opt, hMask, elevation, wmf, kernel, logf, rows, cols).value.hires ==
      Staged(cube, StagesOf(opt), inp, Consts.bMax, Consts.bMin, Consts.cutsize, rows, cols);
  }

  /** `fusion(m_wavelengths)` over this class's seven MODIS sets. */
  function MichiganFusionBands(s: FusionState, key: string, fuse: (Cube, Grid<Px>, string, Grid<Px>) -> Grid<Px>): Result<Products> {
    FusionSpec(s, ModisSets, key, fuse)
  }

  /** The default set is the nine 'full' wavelengths. */
  lemma FullSetPairs(s: FusionState, fuse: (Cube, Grid<Px>, string, Grid<Px>) -> Grid<Px>)
    ensures MichiganFusionBands(s, "full", fuse) == PairsSpec(s, RrsNames(ModisFull), fuse)
  {
    assert BandSet(ModisSets, "full") == Success(ModisFull);
  }

  /** The default set gives nine band pairs, `Rrs_412` to `Rrs_678`; the 1 km set gives
      six, in the same wavelength order. */
  lemma DefaultSetBands(s: FusionState, fuse: (Cube, Grid<Px>, string, Grid<Px>) -> Grid<Px>)
    ensures MichiganFusionBands(s, "full", fuse).Success? ==>
      var p := MichiganFusionBands(s, "full", fuse).value;
      |p.fused| == 9 && forall i :: 0 <= i < 9 ==> p.fused[i].name == RrsName(ModisFull[i])
    ensures MichiganFusionBands(s, "1x1km_bands", fuse).Success? ==>
      var p := MichiganFusionBands(s, "1x1km_bands", fuse).value;
      |p.fused| == 6 && forall i :: 0 <= i < 6 ==> p.fused[i].name == RrsName(Modis1km[i])
  {
    FusionNames(s, ModisSets, "full", fuse);
    FusionNames(s, ModisSets, "1x1km_bands", fuse);
  }
}
