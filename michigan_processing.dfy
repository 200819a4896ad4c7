/** The Boreali processing class: how its input product is obtained, and how
    `boreali_processing` assembles the spectral bands, the validity mask and the
    concentration bands around the opaque Boreali retrieval. */
module Michigan {
  import opened Python
  import opened Raster
  import opened Text
  import opened Bands
  import opened Domain
  import opened Bathymetry
  import opened FusionCore
  import opened Hires
  import MichiganFusion

  /** The product the class processes: none when the fusion setup found no Sentinel-2
      file, otherwise a list of bands. */
  datatype Input = NoInput | Opened(bands: seq<Band>)

  /** `__init__`. With `fuse` the fusion setup and `fusion()` run; a TypeError they raise
      is caught and leaves no input, any other error propagates, and a result gives its
      fused high-resolution product. Without `fuse` the MODIS file is opened and, when
      `reproject` is set, reprojected onto the given domain or the default one. */
  function ProcessingInit(mFile: string, fuse: bool, fused: Result<Products>, domain: Option<DomainDef>, reproject: bool,
                          open: string -> seq<Band>, reprojectTo: (seq<Band>, DomainDef) -> seq<Band>): (r: Result<Input>)
    ensures fuse ==> (r.Success? <==> fused.Success? || fused.error == TypeError)
    ensures fuse && fused.Failure? ==> (if fused.error == TypeError then r == Success(NoInput) else r == Failure(fused.error))
    ensures fuse && fused.Success? ==> r == Success(Opened(fused.value.fused))
    ensures !fuse ==> r.Success? && r.value.Opened?
    ensures !fuse ==> r.value.bands == if reproject then reprojectTo(open(mFile), if domain.Some? then domain.value else SbdDomain) else open(mFile)
  {
    if fuse then
      if fused.Success? then Success(Opened(fused.value.fused))
      else if fused.error == TypeError then Success(NoInput)
      else Failure(fused.error)
    else
      var n := open(mFile);
      var d := if domain.Some? then domain.value else SbdDomain;
      Success(Opened(if reproject then reprojectTo(n, d) else n))
  }

  /** With `fuse` and no Sentinel-2 file, opening the missing file inside the fusion
      setup raises TypeError, which the constructor catches: the object has no input. */
  lemma MissingSentinelCaught(mFile: string, lores: seq<Band>, opt: Options, k: Constants, wmf: Grid<real>,
                              depth: Option<Grid<bool>>, kernel: (Cube, nat, nat, nat) -> Px, logf: real -> Px,
                              rows: nat, cols: nat,
                              domain: Option<DomainDef>, reproject: bool,
                              open: string -> seq<Band>, reprojectTo: (seq<Band>, DomainDef) -> seq<Band>)
    requires NegPix(lores, opt.negativePx).Success? && BandNamed(lores, "index").Success?
    ensures var init := InitSpec(lores, None, opt, k, wmf, depth, kernel, logf, rows, cols);
      init == Failure(TypeError) &&
      ProcessingInit(mFile, true, Failure(init.error), domain, reproject, open, reprojectTo) == Success(NoInput)
  {
  }

  /** The keyword defaults of `Fusion.__init__`: no filter, keep five bands, no log
      scale, mask, crop, track negative pixels. */
  const FusionDefaults: Options := Options(false, true, false, true, true, true)

  /** What the constructor hands over with `fuse`: `Fusion.__init__(self, m_file, s_file)`
      with its keyword defaults and the default depth limit 9999, then `self.fusion()`
      over the 'full' MODIS set. */
  function FusedRun(lores: seq<Band>, hiresFile: Option<seq<Band>>, elevation: Grid<Px>, wmf: Grid<real>,
                    kernel: (Cube, nat, nat, nat) -> Px, logf: real -> Px, rows: nat, cols: nat,
                    fuse: (Cube, Grid<Px>, string, Grid<Px>) -> Grid<Px>): Result<Products> {
    var s :- MichiganFusion.MichiganInit(lores, hiresFile, FusionDefaults, MichiganFusion.NoDepthLimit,
                                         elevation, wmf, kernel, logf, rows, cols);
    MichiganFusion.MichiganFusionBands(s, "full", fuse)
  }

  /** The fields the default setup leaves: the 2000 x 2000 crop, the cropped negative
      pixels of band 2, the cropped 'index' band, and the Sentinel-2 reflectance bands
      masked without a depth limit, unfiltered, cut to the first five bands, not
      log-scaled and cropped. */
  lemma DefaultSetup(lores: seq<Band>, hiresFile: Option<seq<Band>>, elevation: Grid<Px>, wmf: Grid<real>,
                     kernel: (Cube, nat, nat, nat) -> Px, logf: real -> Px, rows: nat, cols: nat)
    requires MichiganFusion.MichiganInit(lores, hiresFile, FusionDefaults, MichiganFusion.NoDepthLimit,
                                         elevation, wmf, kernel, logf, rows, cols).Success?
    ensures hiresFile.Some? && |lores| >= 2 && BandNamed(lores, "index").Success?
    ensures LookupBands(hiresFile.value, RrsNames(Sentinel2)).Success?
    ensures |LookupBands(hiresFile.value, RrsNames(Sentinel2)).value| == 12
    ensures var s := MichiganFusion.MichiganInit(lores, hiresFile, FusionDefaults, MichiganFusion.NoDepthLimit,
                                                 elevation, wmf, kernel, logf, rows, cols).value;
      var negpix := BelowMask(lores[1].grid, 0.0);
      s.lores == lores && s.cut && s.cutsize == 2000 && s.negpix == Some(Window(negpix, 2000)) &&
      s.index == Window(BandNamed(lores, "index").value, 2000) &&
      s.hires == Staged(LookupBands(hiresFile.value, RrsNames(Sentinel2)).value, Stages(true, false, true, false, true),
                        Inputs(wmf, None, Some(negpix), kernel, logf), 2300.0, -30.0, 2000, rows, cols)
  {
    assert MichiganFusion.DepthArg(MichiganFusion.NoDepthLimit, elevation) == None;
    InitFields(lores, hiresFile, FusionDefaults, MichiganFusion.Consts, wmf, None, kernel, logf, rows, cols);
  }

  /** A successful fused run gives the object nine bands, `Rrs_412` to `Rrs_678`: band i
      is `fuse` of the staged Sentinel-2 cube with the MODIS band of that name cropped and
      nulled at the negative pixels, and with the cropped 'index' band. */
  lemma FusedInput(mFile: string, lores: seq<Band>, hiresFile: Option<seq<Band>>, elevation: Grid<Px>, wmf: Grid<real>,
                   kernel: (Cube, nat, nat, nat) -> Px, logf: real -> Px, rows: nat, cols: nat,
                   fuse: (Cube, Grid<Px>, string, Grid<Px>) -> Grid<Px>,
                   domain: Option<DomainDef>, reproject: bool,
                   open: string -> seq<Band>, reprojectTo: (seq<Band>, DomainDef) -> seq<Band>)
    requires FusedRun(lores, hiresFile, elevation, wmf, kernel, logf, rows, cols, fuse).Success?
    ensures MichiganFusion.MichiganInit(lores, hiresFile, FusionDefaults, MichiganFusion.NoDepthLimit,
                                        elevation, wmf, kernel, logf, rows, cols).Success?
    ensures var s := MichiganFusion.MichiganInit(lores, hiresFile, FusionDefaults, MichiganFusion.NoDepthLimit,
                                                 elevation, wmf, kernel, logf, rows, cols).value;
      var p := FusedRun(lores, hiresFile, elevation, wmf, kernel, logf, rows, cols, fuse).value;
      ProcessingInit(mFile, true, Success(p), domain, reproject, open, reprojectTo) == Success(Opened(p.fused)) &&
      |p.fused| == 9 &&
      forall i :: 0 <= i < 9 ==>
        BandNamed(lores, RrsName(ModisFull[i])).Success? &&
        p.fused[i] == Band(RrsName(ModisFull[i]),
          fuse(s.hires, NullWhere(Window(BandNamed(lores, RrsName(ModisFull[i])).value, 2000), s.negpix.value),
               RrsName(ModisFull[i]), s.index))
  {
    var s := MichiganFusion.MichiganInit(lores, hiresFile, FusionDefaults, MichiganFusion.NoDepthLimit,
                                         elevation, wmf, kernel, logf, rows, cols).value;
    DefaultSetup(lores, hiresFile, elevation, wmf, kernel, logf, rows, cols);
    var names := RrsNames(ModisFull);
    MichiganFusion.FullSetPairs(s, fuse);
    PairsAligned(s, names, fuse);
    forall i | 0 <= i < 9 ensures names[i] == RrsName(ModisFull[i]) {
    }
  }

  /** Without a Sentinel-2 file the fused run raises TypeError once the MODIS file has a
      second band and an 'index' band, and the constructor leaves no input. */
  lemma FusedRunWithoutSentinel(mFile: string, lores: seq<Band>, elevation: Grid<Px>, wmf: Grid<real>,
                                kernel: (Cube, nat, nat, nat) -> Px, logf: real -> Px, rows: nat, cols: nat,
                                fuse: (Cube, Grid<Px>, string, Grid<Px>) -> Grid<Px>,
                                domain: Option<DomainDef>, reproject: bool,
                                open: string -> seq<Band>, reprojectTo: (seq<Band>, DomainDef) -> seq<Band>)
    requires |lores| >= 2 && BandNamed(lores, "index").Success?
    ensures FusedRun(lores, None, elevation, wmf, kernel, logf, rows, cols, fuse) == Failure(TypeError)
    ensures ProcessingInit(mFile, true, FusedRun(lores, None, elevation, wmf, kernel, logf, rows, cols, fuse),
                           domain, reproject, open, reprojectTo) == Success(NoInput)
  {
  }

  /** The concentration limits handed to Boreali. */
  const Limits: seq<real> := [0.01, 3.0, 0.01, 1.0, 0.01, 1.0, 10.0]

  /** The sentinel value of band 2 that marks invalid pixels. */
  const Invalid: real := -0.015534

  /** `'Rrsw_' + str(w)` */
  function RrswName(w: nat): string {
    "Rrsw_" + Decimal(w)
  }

  /** `Rrs / (0.52 + 1.7 Rrs)` cell by cell: NaN stays NaN, a value goes through the
      opaque formula. */
  function RrswGrid(g: Grid<Px>, f: real -> Px): (y: Grid<Px>)
    ensures SameShape(y, g)
    ensures forall r, c :: 0 <= r < |g| && 0 <= c < |g[r]| ==> (g[r][c] == NaN ==> y[r][c] == NaN)
  {
    seq(|g|, r requires 0 <= r < |g| => seq(|g[r]|, c requires 0 <= c < |g[r]| =>
      if g[r][c].NaN? then NaN else f(g[r][c].v)))
  }

  /** How many bands each wavelength contributes: `Rrsw_<w>`, and `Rrs_<w>` in OSW mode. */
  function Width(osw: bool): nat {
    if osw then 2 else 1
  }

  /** Where the bands of the wavelength at position `i` start. */
  function Slot(osw: bool, i: nat): nat {
    if osw then 2 * i else i
  }

  /** The bands one wavelength adds to the custom product. */
  function PairFor(w: nat, g: Grid<Px>, osw: bool, f: real -> Px): seq<Band> {
    [Band(RrswName(w), RrswGrid(g, f))] + (if osw then [Band(RrsName(w), g)] else [])
  }

  /** The spectral loop: the bands of each wavelength, in set order. */
  function SpectralBands(ws: seq<nat>, grids: seq<Grid<Px>>, osw: bool, f: real -> Px): seq<Band>
    requires |grids| == |ws|
  {
    if ws == [] then []
    else SpectralBands(ws[..|ws| - 1], grids[..|ws| - 1], osw, f) + PairFor(ws[|ws| - 1], grids[|ws| - 1], osw, f)
  }

  /** The spectral part has `Width(osw)` bands per wavelength, in wavelength order: first
      `Rrsw_<w>` computed from the wavelength's reflectance band, then in OSW mode that
      reflectance band itself under `Rrs_<w>`. */
  lemma {:induction false} SpectralLayout(ws: seq<nat>, grids: seq<Grid<Px>>, osw: bool, f: real -> Px)
    requires |grids| == |ws|
    ensures |SpectralBands(ws, grids, osw, f)| == Slot(osw, |ws|)
    ensures forall i :: 0 <= i < |ws| ==>
      SpectralBands(ws, grids, osw, f)[Slot(osw, i)] == Band(RrswName(ws[i]), RrswGrid(grids[i], f)) &&
      (osw ==> SpectralBands(ws, grids, osw, f)[Slot(osw, i) + 1] == Band(RrsName(ws[i]), grids[i]))
  {
    if ws != [] {
      var n := |ws| - 1;
      var p := SpectralBands(ws[..n], grids[..n], osw, f);
      SpectralLayout(ws[..n], grids[..n], osw, f);
      var s := SpectralBands(ws, grids, osw, f);
      assert s == p + PairFor(ws[n], grids[n], osw, f);
      assert Slot(osw, |ws|) == Slot(osw, n) + Width(osw);
      forall i | 0 <= i < |ws|
        ensures s[Slot(osw, i)] == Band(RrswName(ws[i]), RrswGrid(grids[i], f))
        ensures osw ==> s[Slot(osw, i) + 1] == Band(RrsName(ws[i]), grids[i])
      {
        if i < n {
          assert ws[..n][i] == ws[i] && grids[..n][i] == grids[i];
          assert Slot(osw, i) + Width(osw) <= Slot(osw, n);
        } else {
          assert Slot(osw, i) == |p|;
        }
      }
    }
  }

  /** The Boreali mask at one cell: 0 where the depth is unknown, otherwise 64 unless
      band 2 holds the invalid-pixel value (a NaN band value is not equal to it). */
  function MaskPx(b2: Px, h: Px): Px {
    var m := if b2 != Val(Invalid) then Val(64.0) else Val(0.0);
    if h.NaN? then Val(0.0) else m
  }

  /** Mask values are 0 or 64, and 64 exactly where the depth is known and band 2 is not
      the invalid-pixel value. */
  lemma MaskValues(b2: Px, h: Px)
    ensures MaskPx(b2, h) == Val(0.0) || MaskPx(b2, h) == Val(64.0)
    ensures MaskPx(b2, h) == Val(64.0) <==> h.Val? && b2 != Val(Invalid)
  {
  }

  /** Two grids of the same (possibly ragged) shape. */
  predicate SameShape<T, U>(g: Grid<T>, h: Grid<U>) {
    |g| == |h| && forall r :: 0 <= r < |g| ==> |g[r]| == |h[r]|
  }

  function BorealiMask(b2: Grid<Px>, h: Grid<Px>): (m: Grid<Px>)
    requires SameShape(b2, h)
    ensures SameShape(m, b2)
  {
    seq(|b2|, r requires 0 <= r < |b2| => seq(|b2[r]|, c requires 0 <= c < |b2[r]| => MaskPx(b2[r][c], h[r][c])))
  }

  /** `np.zeros_like(band)`: zeros of the band's shape. */
  function ZerosLike(g: Grid<Px>): (z: Grid<Px>)
    ensures SameShape(z, g) && forall r, c :: 0 <= r < |z| && 0 <= c < |z[r]| ==> z[r][c] == Val(0.0)
  {
    seq(|g|, r requires 0 <= r < |g| => seq(|g[r]|, c requires 0 <= c < |g[r]| => Val(0.0)))
  }

  /** The retrieval: custom bands, limits, mask, optional depth, view angles -> results. */
  type Process = (seq<Band>, seq<real>, Grid<Px>, Option<Grid<Px>>, Grid<Px>) -> seq<Grid<Px>>

  /** `boreali_processing(h, key, osw_mod)`: KeyError for an unknown set, a failed lookup
      of band 2 or of a reflectance band, ValueError when `h` does not have band 2's
      shape, IndexError when the retrieval gives fewer than five results. */
  function BorealiSpec(ifile: seq<Band>, h: Grid<Px>, elevation: Grid<Px>, key: string, osw: bool,
                       rrswf: real -> Px, process: Process): Result<seq<Band>> {
    var ws :- BandSet(ModisSets, key);
    var b2 :- BandNumber(ifile, 2);
    var grids :- LookupBands(ifile, RrsNames(ws));
    Finish(SpectralBands(ws, grids, osw, rrswf), b2, h, elevation, osw, process)
  }

  /** What follows the spectral loop: the mask band, the depth choice, the retrieval on
      zero view angles and the five result bands. */
  function Finish(spectral: seq<Band>, b2: Grid<Px>, h: Grid<Px>, elevation: Grid<Px>, osw: bool,
                  process: Process): Result<seq<Band>> {
    if !SameShape(b2, h) then Failure(ValueError)
    else
      var mask := BorealiMask(b2, h);
      var custom := spectral + [Band("mask", mask)];
      var depth := if osw then Some(Bottom(elevation)) else None;
      var cpa := process(custom, Limits, mask, depth, ZerosLike(b2));
      if |cpa| < 5 then Failure(IndexError)
      else Success(custom + [Band("chl", cpa[0]), Band("tsm", cpa[1]), Band("doc", cpa[2]), Band("mse", cpa[3]), Band("mask", cpa[4])])
  }

  /** After the spectral bands come 'mask', then chl, tsm, doc, mse and the L2 mask from
      the first five retrieval results; the retrieval receives the custom bands, the fixed
      limits, the mask, the bottom depth exactly in OSW mode, and zero view angles. */
  lemma FinishLayout(spectral: seq<Band>, b2: Grid<Px>, h: Grid<Px>, elevation: Grid<Px>, osw: bool, process: Process)
    requires Finish(spectral, b2, h, elevation, osw, process).Success?
    ensures SameShape(b2, h)
    ensures var k := |spectral|;
      var out := Finish(spectral, b2, h, elevation, osw, process).value;
      var cpa := process(spectral + [Band("mask", BorealiMask(b2, h))], Limits, BorealiMask(b2, h),
                         if osw then Some(Bottom(elevation)) else None, ZerosLike(b2));
      |out| == k + 6 && out[..k] == spectral && out[k] == Band("mask", BorealiMask(b2, h)) && |cpa| >= 5 &&
      out[k + 1] == Band("chl", cpa[0]) && out[k + 2] == Band("tsm", cpa[1]) && out[k + 3] == Band("doc", cpa[2]) &&
      out[k + 4] == Band("mse", cpa[3]) && out[k + 5] == Band("mask", cpa[4])
  {
  }

  /** A successful run starts with `Width(osw)` spectral bands per wavelength of the set,
      laid out as `SpectralLayout` says, and ends with the six bands of `FinishLayout`. */
  lemma BorealiLayout(ifile: seq<Band>, h: Grid<Px>, elevation: Grid<Px>, key: string, osw: bool,
                      rrswf: real -> Px, process: Process)
    requires BorealiSpec(ifile, h, elevation, key, osw, rrswf, process).Success?
    ensures key in ModisSets && BandNumber(ifile, 2).Success? && LookupBands(ifile, RrsNames(ModisSets[key])).Success?
    ensures |BorealiSpec(ifile, h, elevation, key, osw, rrswf, process).value| == Slot(osw, |ModisSets[key]|) + 6
    ensures var ws := ModisSets[key];
      var grids := LookupBands(ifile, RrsNames(ws)).value;
      var out := BorealiSpec(ifile, h, elevation, key, osw, rrswf, process).value;
      forall i :: 0 <= i < |ws| ==>
        out[Slot(osw, i)] == Band(RrswName(ws[i]), RrswGrid(grids[i], rrswf)) &&
        (osw ==> out[Slot(osw, i) + 1] == Band(RrsName(ws[i]), grids[i]))
  {
    var ws := ModisSets[key];
    var b2 := BandNumber(ifile, 2).value;
    var grids := LookupBands(ifile, RrsNames(ws)).value;
    SpectralLayout(ws, grids, osw, rrswf);
    var spectral := SpectralBands(ws, grids, osw, rrswf);
    var out := BorealiSpec(ifile, h, elevation, key, osw, rrswf, process).value;
    assert Finish(spectral, b2, h, elevation, osw, process) == Success(out);
    FinishLayout(spectral, b2, h, elevation, osw, process);
    var k := |spectral|;
    forall i | 0 <= i < |ws|
      ensures out[Slot(osw, i)] == spectral[Slot(osw, i)]
      ensures osw ==> out[Slot(osw, i) + 1] == spectral[Slot(osw, i) + 1]
    {
      assert Slot(osw, i) + Width(osw) <= k;
      assert out[..k][Slot(osw, i)] == out[Slot(osw, i)];
      if osw {
        assert out[..k][Slot(osw, i) + 1] == out[Slot(osw, i) + 1];
      }
    }
  }

  /** The band loop appending to the custom product. */
  method SpectralLoop(ws: seq<nat>, grids: seq<Grid<Px>>, osw: bool, rrswf: real -> Px) returns (custom: seq<Band>)
    requires |grids| == |ws|
    ensures custom == SpectralBands(ws, grids, osw, rrswf)
  {
    custom := [];
    var i := 0;
    while i < |ws|
      invariant 0 <= i <= |ws|
      invariant custom == SpectralBands(ws[..i], grids[..i], osw, rrswf)
    {
      assert ws[..i + 1][..i] == ws[..i] && grids[..i + 1][..i] == grids[..i];
      custom := custom + [Band(RrswName(ws[i]), RrswGrid(grids[i], rrswf))];
      if osw {
        custom := custom + [Band(RrsName(ws[i]), grids[i])];
      }
      i := i + 1;
    }
    assert ws[..i] == ws && grids[..i] == grids;
  }

  /** The mask, the depth choice, the retrieval and the five result bands. */
  method FinishSteps(custom: seq<Band>, b2: Grid<Px>, theta: Grid<Px>, h: Grid<Px>, elevation: Grid<Px>, osw: bool,
                     process: Process) returns (res: Result<seq<Band>>)
    requires theta == ZerosLike(b2)
    ensures res == Finish(custom, b2, h, elevation, osw, process)
  {
    if !SameShape(b2, h) {
      return Failure(ValueError);
    }
    var mask := BorealiMask(b2, h);
    var withMask := custom + [Band("mask", mask)];
    var depth: Option<Grid<Px>> := None;
    if osw {
      depth := Some(Bottom(elevation));
    }
    var cpa := process(withMask, Limits, mask, depth, theta);
    if |cpa| < 5 {
      return Failure(IndexError);
    }
    return Success(withMask + [Band("chl", cpa[0]), Band("tsm", cpa[1]), Band("doc", cpa[2]), Band("mse", cpa[3]), Band("mask", cpa[4])]);
  }

  /** The method: the lookups, the band loop, then the steps after it. */
  method BorealiProcessing(ifile: seq<Band>, h: Grid<Px>, elevation: Grid<Px>, key: string, osw: bool,
                           rrswf: real -> Px, process: Process) returns (res: Result<seq<Band>>)
    ensures res == BorealiSpec(ifile, h, elevation, key, osw, rrswf, process)
  {
    var ws :- BandSet(ModisSets, key);
    var b2 :- BandNumber(ifile, 2);
    var theta := ZerosLike(b2);
    var grids :- LookupBands(ifile, RrsNames(ws));
    var custom := SpectralLoop(ws, grids, osw, rrswf);
    res := FinishSteps(custom, b2, theta, h, elevation, osw, process);
  }
}
