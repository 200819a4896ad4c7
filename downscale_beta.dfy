/** The first stand-alone downscale script: the granule scene of one Sentinel-2 product,
    a 60 m domain over it, and bands 1 to 10 stitched through `np.vectorize`, each named
    after its band number. */
module DownscaleBeta {
  import opened Python
  import opened Raster
  import opened Text
  import opened Bands
  import opened Mosaic
  import opened Domain
  import opened Downscaling

  /** `np.arange(1, 11)` */
  const BandNumbers: seq<nat> := seq(10, i => i + 1)

  /** `'*_B%02d.jp2' % band` and `'Rrs_%s' % band` */
  function NumberRequests(bands: seq<nat>): (reqs: seq<BandRequest>)
    ensures |reqs| == |bands|
  {
    seq(|bands|, i requires 0 <= i < |bands| => BandRequest(ImagePattern(Pad2(bands[i])), RrsName(bands[i])))
  }

  /** The script: the scene, the 60 m domain, and one `stich` call per vectorized call,
      each adding its band to the product; the first failing band aborts the script.
      The list of bands is not empty, so `np.vectorize` does not raise. */
  function BetaSpec(glob: string -> seq<string>, outline: string -> Outline, reproject: string -> Grid<Px>,
                    shapeOf: DomainDef -> (nat, nat), root: string): Result<Downscaled> {
    var sc :- SceneSpec(glob, outline, root);
    var d := ByResolution(sc.extent, 60);
    var calls := VectorizedCalls(NumberRequests(BandNumbers)).value;
    var bs :- StitchAllSpec(glob, reproject, sc.gdirs, calls, shapeOf(d).0, shapeOf(d).1);
    Success(Downscaled(d, bs))
  }

  /** A successful run lies on the 60 m domain over the scene and holds eleven bands:
      band 1 twice (the first call only probes the output type, yet adds its band), then
      bands 1 to 10, band n named `Rrs_<n>` and stitched from the image file of table
      code n. */
  lemma BetaBands(glob: string -> seq<string>, outline: string -> Outline, reproject: string -> Grid<Px>,
                  shapeOf: DomainDef -> (nat, nat), root: string)
    requires BetaSpec(glob, outline, reproject, shapeOf, root).Success?
    ensures SceneSpec(glob, outline, root).Success?
    ensures var sc := SceneSpec(glob, outline, root).value;
      var out := BetaSpec(glob, outline, reproject, shapeOf, root).value;
      var (rows, cols) := shapeOf(ByResolution(sc.extent, 60));
      out.domain == ByResolution(sc.extent, 60) && |out.bands| == 11 && out.bands[0] == out.bands[1] &&
      forall n :: 1 <= n <= 10 ==>
        out.bands[n].name == RrsName(n) &&
        StitchSpec(glob, reproject, sc.gdirs, ImagePattern(BandTable[n - 1].code), rows, cols) == Success(out.bands[n].grid)
  {
    var sc := SceneSpec(glob, outline, root).value;
    var d := ByResolution(sc.extent, 60);
    var reqs := NumberRequests(BandNumbers);
    var calls := VectorizedCalls(reqs).value;
    StitchAllBands(glob, reproject, sc.gdirs, calls, shapeOf(d).0, shapeOf(d).1);
    forall n | 1 <= n <= 10
      ensures calls[n] == BandRequest(ImagePattern(BandTable[n - 1].code), RrsName(n))
    {
      PaddedPatternMatchesCodes(n);
      assert calls[n] == reqs[n - 1];
      assert BandNumbers[n - 1] == n;
    }
  }

  /** The script's steps: the granule and corner loops, then the vectorized `stich`. */
  method Beta(glob: string -> seq<string>, outline: string -> Outline, reproject: string -> Grid<Px>,
              shapeOf: DomainDef -> (nat, nat), root: string) returns (res: Result<Downscaled>)
    ensures res == BetaSpec(glob, outline, reproject, shapeOf, root)
  {
    var sc :- SceneOf(glob, outline, root);
    var d := ByResolution(sc.extent, 60);
    var calls := VectorizedCalls(NumberRequests(BandNumbers)).value;
    var bs :- StitchBands(glob, reproject, sc.gdirs, calls, shapeOf(d).0, shapeOf(d).1);
    return Success(Downscaled(d, bs));
  }
}
