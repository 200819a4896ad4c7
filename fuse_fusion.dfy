/** The fusion class of the `michigan_fuse` package: the same constants and stages with
    no depth limit, the Sandy Bear Dunes domain of its data class, and two MODIS sets. */
module FuseFusion {
  import opened Python
  import opened Raster
  import opened Bands
  import opened Hires
  import opened FusionCore
  import MichiganFusion

  /** `__init__`: the class constants, the mask without a depth test. */
  function FuseInit(lores: seq<Band>, hiresFile: Option<seq<Band>>, opt: Options, wmf: Grid<real>,
                    kernel: (Cube, nat, nat, nat) -> Px, logf: real -> Px, rows: nat, cols: nat): Result<FusionState> {
    InitSpec(lores, hiresFile, opt, MichiganFusion.Consts, wmf, None, kernel, logf, rows, cols)
  }

  /** With the mask on and no filter, every cell where the filtered watermask exceeds 1
      is NaN in every kept band of the cube (inside the crop window). */
  lemma WatermaskApplies(lores: seq<Band>, hiresFile: Option<seq<Band>>, opt: Options, wmf: Grid<real>,
                         kernel: (Cube, nat, nat, nat) -> Px, logf: real -> Px, rows: nat, cols: nat, b: nat, r: nat, c: nat)
    requires OnDomain(lores, rows, cols) && Shaped(wmf, rows, cols)
    requires hiresFile.Some? ==> OnDomain(hiresFile.value, rows, cols)
    requires FuseInit(lores, hiresFile, opt, wmf, kernel, logf, rows, cols).Success?
    requires opt.mask && !opt.smooth
    requires r < rows && c < cols && wmf[r][c] > 1.0
    requires b < (if opt.skip then 5 else |Sentinel2|) && (opt.cut ==> r < 2000 && c < 2000)
    ensures var h := FuseInit(lores, hiresFile, opt, wmf, kernel, logf, rows, cols).value.hires;
      b < |h| && r < |h[b]| && c < |h[b][r]| && h[b][r][c] == NaN
  {
    var negpix := NegPix(lores, opt.negativePx).value;
    var cube := LookupBands(hiresFile.value, RrsNames(Sentinel2)).value;
    ShapedLookup(hiresFile.value, RrsNames(Sentinel2), rows, cols);
    var inp := Inputs(wmf, None, negpix, kernel, logf);
    var k := MichiganFusion.Consts;
    MaskNullPersists(cube, StagesOf(opt), inp, k.bMax, k.bMin, k.cutsize, rows, cols, b, r, c);
    assert FuseInit(lores, hiresFile, opt, wmf, kernel, logf, rows, cols).value.hires ==
      Staged(cube, StagesOf(opt), inp, k.bMax, k.bMin, k.cutsize, rows, cols);
  }

  /** `fusion(m_wavelengths)` over this class's two MODIS sets. */
  function FuseFusionBands(s: FusionState, key: string, fuse: (Cube, Grid<Px>, string, Grid<Px>) -> Grid<Px>): Result<Products> {
    FusionSpec(s, FuseModisSets, key, fuse)
  }

  /** Only 'full' and '1x1km_bands' are known here: a set the other package offers, such
      as 'blue_off', raises KeyError. */
  lemma OnlyTwoSets(s: FusionState, key: string, fuse: (Cube, Grid<Px>, string, Grid<Px>) -> Grid<Px>)
    ensures key != "full" && key != "1x1km_bands" ==> FuseFusionBands(s, key, fuse) == Failure(KeyError)
    ensures "blue_off" in ModisSets && FuseFusionBands(s, "blue_off", fuse) == Failure(KeyError)
    ensures FuseFusionBands(s, "full", fuse) == MichiganFusion.MichiganFusionBands(s, "full", fuse)
  {
    FusionNames(s, FuseModisSets, key, fuse);
    FusionNames(s, FuseModisSets, "blue_off", fuse);
  }
}
