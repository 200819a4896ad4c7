/** The fusion script: one run of the fusion setup on a saved Sentinel-2 cube with fixed
    settings (mask, keep five bands, crop; no filter, no log scale), a noise-corrected
    cloud threshold of 20, and fused red, green and blue MODIS bands. */
module FuseScript {
  import opened Python
  import opened Raster
  import opened Bands
  import opened Hires
  import opened FusionCore

  /** The bands fused, red first. */
  const Rgb: seq<string> := RrsNames([667, 555, 488])

  /** `smooth = False, skip = True, log = False, mask = True, cut = True`. */
  const Settings: Stages := Stages(true, false, true, false, true)

  /** The second assignment of `bMax` (20, for noise-corrected bands) is the one in force. */
  const Consts: Constants := Constants(20.0, -30.0, 2000)

  /** With the filter and the log scale switched off these two are never applied. */
  const Unused: (Cube, nat, nat, nat) -> Px := (x: Cube, b: nat, r: nat, c: nat) => NaN
  const NoLog: real -> Px := (v: real) => NaN

  /** The script up to the band loop: band 2 of the low-resolution product gives the
      negative-pixel mask, its 'index' band the pixel index; the cube runs through the
      stages (IndexError when it has no eighth band for the cloud test); the mask and the
      index are cropped with it. */
  function ScriptSetup(lores: seq<Band>, hires: Cube, wmf: Grid<real>, rows: nat, cols: nat): Result<FusionState> {
    var b2 :- BandNumber(lores, 2);
    var negpix := BelowMask(b2, 0.0);
    var index :- BandNamed(lores, "index");
    if |hires| <= 7 then Failure(IndexError)
    else
      var cube := Staged(hires, Settings, Inputs(wmf, None, Some(negpix), Unused, NoLog), Consts.bMax, Consts.bMin, Consts.cutsize, rows, cols);
      Success(FusionState(lores, Some(Window(negpix, Consts.cutsize)), Window(index, Consts.cutsize), true, cube, Consts.cutsize))
  }

  /** The options of the fusion class the script's settings correspond to. */
  const ClassOptions: Options := Options(false, true, false, true, true, true)

  /** On a cube saved from a product with every Sentinel-2 reflectance band, the script's
      setup is the fusion class's setup with the script's settings and constants, and no
      depth limit. */
  lemma ScriptMatchesClass(lores: seq<Band>, file: seq<Band>, wmf: Grid<real>, rows: nat, cols: nat)
    requires LookupBands(file, RrsNames(Sentinel2)).Success?
    ensures ScriptSetup(lores, LookupBands(file, RrsNames(Sentinel2)).value, wmf, rows, cols) ==
      InitSpec(lores, Some(file), ClassOptions, Consts, wmf, None, Unused, NoLog, rows, cols)
  {
    assert StagesOf(ClassOptions) == Settings;
  }

  /** The band loop: one (low-resolution, fused) pair per RGB band. */
  function ScriptSpec(lores: seq<Band>, hires: Cube, wmf: Grid<real>, rows: nat, cols: nat,
                      fuse: (Cube, Grid<Px>, string, Grid<Px>) -> Grid<Px>): Result<Products> {
    var s :- ScriptSetup(lores, hires, wmf, rows, cols);
    PairsSpec(s, Rgb, fuse)
  }

  /** A successful run gives three pairs in the order 667, 555, 488 nm; each
      low-resolution band is the named band cropped to 2000 x 2000 and nulled at negative
      pixels, and each fused band is `fuse` of the staged cube with it. */
  lemma ScriptPairs(lores: seq<Band>, hires: Cube, wmf: Grid<real>, rows: nat, cols: nat,
                    fuse: (Cube, Grid<Px>, string, Grid<Px>) -> Grid<Px>)
    requires ScriptSpec(lores, hires, wmf, rows, cols, fuse).Success?
    ensures ScriptSetup(lores, hires, wmf, rows, cols).Success?
    ensures var s := ScriptSetup(lores, hires, wmf, rows, cols).value;
      var p := ScriptSpec(lores, hires, wmf, rows, cols, fuse).value;
      |p.lores| == 3 && |p.fused| == 3 &&
      forall i :: 0 <= i < 3 ==>
        BandNamed(lores, Rgb[i]).Success? &&
        p.lores[i] == Band(Rgb[i], NullWhere(Window(BandNamed(lores, Rgb[i]).value, 2000), s.negpix.value)) &&
        p.fused[i] == Band(Rgb[i], fuse(s.hires, p.lores[i].grid, Rgb[i], s.index))
  {
    var s := ScriptSetup(lores, hires, wmf, rows, cols).value;
    PairsAligned(s, Rgb, fuse);
  }

  /** On a cube on the domain, the staged cube keeps five bands on the 2000 x 2000
      window, and every cell of that window where the filtered watermask exceeds 1 is NaN
      in every band. */
  lemma ScriptCube(lores: seq<Band>, hires: Cube, wmf: Grid<real>, rows: nat, cols: nat)
    requires IsCube(hires, rows, cols) && Shaped(wmf, rows, cols)
    requires ScriptSetup(lores, hires, wmf, rows, cols).Success?
    ensures var h := ScriptSetup(lores, hires, wmf, rows, cols).value.hires;
      |h| == 5 && IsCube(h, Min(2000, rows), Min(2000, cols))
    ensures var h := ScriptSetup(lores, hires, wmf, rows, cols).value.hires;
      forall b, r, c :: 0 <= b < 5 && 0 <= r < Min(2000, rows) && 0 <= c < Min(2000, cols) && wmf[r][c] > 1.0 ==>
        h[b][r][c] == NaN
  {
    var negpix := BelowMask(BandNumber(lores, 2).value, 0.0);
    var inp := Inputs(wmf, None, Some(negpix), Unused, NoLog);
    StagedShape(hires, Settings, inp, Consts.bMax, Consts.bMin, Consts.cutsize, rows, cols);
    var h := ScriptSetup(lores, hires, wmf, rows, cols).value.hires;
    assert h == Staged(hires, Settings, inp, Consts.bMax, Consts.bMin, Consts.cutsize, rows, cols);
    forall b, r, c | 0 <= b < 5 && 0 <= r < Min(2000, rows) && 0 <= c < Min(2000, cols) && wmf[r][c] > 1.0
      ensures h[b][r][c] == NaN
    {
      MaskNullPersists(hires, Settings, inp, Consts.bMax, Consts.bMin, Consts.cutsize, rows, cols, b, r, c);
    }
  }

  /** The script as a whole: the setup, then the band loop. */
  method FuseRgb(lores: seq<Band>, hires: Cube, wmf: Grid<real>, rows: nat, cols: nat,
                 fuse: (Cube, Grid<Px>, string, Grid<Px>) -> Grid<Px>) returns (res: Result<Products>)
    ensures res == ScriptSpec(lores, hires, wmf, rows, cols, fuse)
  {
    var s :- ScriptSetup(lores, hires, wmf, rows, cols);
    res := PairLoop(s, Rgb, fuse);
  }
}
