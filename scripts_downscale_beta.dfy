/** The second stand-alone downscale script: the same scene and 60 m domain, the first
    eleven band codes of the table in sorted order stitched through `np.vectorize` and
    named after their wavelengths, and the product reprojected onto the Sandy Bear Dunes
    domain. */
module DownscaleBetaScript {
  import opened Python
  import opened Raster
  import opened Text
  import opened Bands
  import opened Mosaic
  import opened Domain
  import opened Downscaling

  /** `s[0:n]`: Python's slice keeps at most the first n elements. */
  function Take<T>(s: seq<T>, n: nat): (t: seq<T>)
    ensures |t| == Min(|s|, n) && t == s[..|t|]
  {
    s[..Min(|s|, n)]
  }

  /** `sorted(BANDS.keys())[0:11]` */
  function BetaCodes(): seq<string> {
    Take(SortedCodes(), 11)
  }

  /** The codes asked for are '01' to '11': band i + 1 of the table for each i < 11, with
      the wavelength of that band; band 12 (2190 nm) is left out. */
  lemma BetaRequests()
    ensures CodeRequests(BetaCodes()).Success?
    ensures |CodeRequests(BetaCodes()).value| == 11
    ensures forall i :: 0 <= i < 11 ==>
      CodeRequests(BetaCodes()).value[i] == BandRequest(ImagePattern(BandTable[i].code), RrsName(Sentinel2[i]))
  {
    TableRequests();
    var all := CodeRequests(SortedCodes());
    var cs := BetaCodes();
    assert |SortedCodes()| == 12 by {
      SortedCodesAreTableCodes();
    }
    assert cs == SortedCodes()[..11];
    forall i | 0 <= i < |cs| ensures cs[i] in CodesOf(BandTable) {
      assert cs[i] == SortedCodes()[i];
    }
    var r := CodeRequests(cs);
    forall i | 0 <= i < 11
      ensures r.value[i] == BandRequest(ImagePattern(BandTable[i].code), RrsName(Sentinel2[i]))
    {
      assert cs[i] == SortedCodes()[i];
      assert r.value[i] == all.value[i];
    }
  }

  /** The stitched product on the 60 m domain, before the final reprojection. */
  function StitchedSpec(glob: string -> seq<string>, outline: string -> Outline, reproject: string -> Grid<Px>,
                        shapeOf: DomainDef -> (nat, nat), root: string): Result<Downscaled> {
    var sc :- SceneSpec(glob, outline, root);
    var d := ByResolution(sc.extent, 60);
    var reqs :- CodeRequests(BetaCodes());
    var calls :- VectorizedCalls(reqs);
    var bs :- StitchAllSpec(glob, reproject, sc.gdirs, calls, shapeOf(d).0, shapeOf(d).1);
    Success(Downscaled(d, bs))
  }

  /** The stitched product holds twelve bands: the 443 nm band twice (the probing call of
      `np.vectorize` adds it too), then bands 1 to 11 in wavelength order, each named
      `Rrs_<w>` and stitched from the image file of its code. */
  lemma StitchedBands(glob: string -> seq<string>, outline: string -> Outline, reproject: string -> Grid<Px>,
                      shapeOf: DomainDef -> (nat, nat), root: string)
    requires StitchedSpec(glob, outline, reproject, shapeOf, root).Success?
    ensures SceneSpec(glob, outline, root).Success?
    ensures var sc := SceneSpec(glob, outline, root).value;
      var out := StitchedSpec(glob, outline, reproject, shapeOf, root).value;
      var (rows, cols) := shapeOf(ByResolution(sc.extent, 60));
      out.domain == ByResolution(sc.extent, 60) && |out.bands| == 12 && out.bands[0] == out.bands[1] &&
      forall i :: 0 <= i < 11 ==>
        out.bands[i + 1].name == RrsName(Sentinel2[i]) &&
        StitchSpec(glob, reproject, sc.gdirs, ImagePattern(BandTable[i].code), rows, cols) == Success(out.bands[i + 1].grid)
  {
    BetaRequests();
    var sc := SceneSpec(glob, outline, root).value;
    var d := ByResolution(sc.extent, 60);
    var (rows, cols) := shapeOf(d);
    var reqs := CodeRequests(BetaCodes()).value;
    var calls := VectorizedCalls(reqs).value;
    var st := StitchAllSpec(glob, reproject, sc.gdirs, calls, rows, cols);
    assert st.Success?;
    var out := StitchedSpec(glob, outline, reproject, shapeOf, root).value;
    assert out == Downscaled(d, st.value);
    StitchAllBands(glob, reproject, sc.gdirs, calls, rows, cols);
    forall i | 0 <= i < 11
      ensures out.bands[i + 1].name == RrsName(Sentinel2[i])
      ensures StitchSpec(glob, reproject, sc.gdirs, ImagePattern(BandTable[i].code), rows, cols) == Success(out.bands[i + 1].grid)
    {
      assert calls[i + 1] == reqs[i];
    }
  }

  /** Band 12 (2190 nm) is not in the product: no band carries its name. */
  lemma NoBand12(glob: string -> seq<string>, outline: string -> Outline, reproject: string -> Grid<Px>,
                 shapeOf: DomainDef -> (nat, nat), root: string)
    requires StitchedSpec(glob, outline, reproject, shapeOf, root).Success?
    ensures forall i :: 0 <= i < |StitchedSpec(glob, outline, reproject, shapeOf, root).value.bands| ==>
      StitchedSpec(glob, outline, reproject, shapeOf, root).value.bands[i].name != RrsName(2190)
  {
    StitchedBands(glob, outline, reproject, shapeOf, root);
    var out := StitchedSpec(glob, outline, reproject, shapeOf, root).value;
    Sentinel2Increasing();
    forall i | 0 <= i < |out.bands| ensures out.bands[i].name != RrsName(2190) {
      var j := if i == 0 then 0 else i - 1;
      assert out.bands[i].name == out.bands[j + 1].name == RrsName(Sentinel2[j]);
      assert Sentinel2[j] < Sentinel2[11];
      RrsNameInjective(Sentinel2[j], 2190);
    }
  }

  /** The script's result: the stitched bands reprojected onto the Sandy Bear Dunes
      domain. */
  function BetaScriptSpec(glob: string -> seq<string>, outline: string -> Outline, reproject: string -> Grid<Px>,
                          shapeOf: DomainDef -> (nat, nat), reprojectTo: (seq<Band>, DomainDef) -> seq<Band>,
                          root: string): (r: Result<Downscaled>)
    ensures r.Success? <==> StitchedSpec(glob, outline, reproject, shapeOf, root).Success?
    ensures r.Success? ==> r.value == Downscaled(SbdDomain, reprojectTo(StitchedSpec(glob, outline, reproject, shapeOf, root).value.bands, SbdDomain))
  {
    var s :- StitchedSpec(glob, outline, reproject, shapeOf, root);
    Success(Downscaled(SbdDomain, reprojectTo(s.bands, SbdDomain)))
  }

  /** The script's steps: the granule and corner loops, the vectorized `stich`, the
      reprojection. */
  method BetaScript(glob: string -> seq<string>, outline: string -> Outline, reproject: string -> Grid<Px>,
                    shapeOf: DomainDef -> (nat, nat), reprojectTo: (seq<Band>, DomainDef) -> seq<Band>,
                    root: string) returns (res: Result<Downscaled>)
    ensures res == BetaScriptSpec(glob, outline, reproject, shapeOf, reprojectTo, root)
  {
    var sc :- SceneOf(glob, outline, root);
    var d := ByResolution(sc.extent, 60);
    var reqs :- CodeRequests(BetaCodes());
    var calls :- VectorizedCalls(reqs);
    var bs :- StitchBands(glob, reproject, sc.gdirs, calls, shapeOf(d).0, shapeOf(d).1);
    return Success(Downscaled(SbdDomain, reprojectTo(bs, SbdDomain)));
  }
}
