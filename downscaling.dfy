/** `s2_downscale`: the granule scene of a Sentinel-2 product, a 60 m domain over its
    extent, and one stitched band per request on that domain. */
module Downscaling {
  import opened Python
  import opened Raster
  import opened Text
  import opened Bands
  import opened Mosaic
  import opened Domain

  /** A stitched product: the domain it lies on and its bands in order. */
  datatype Downscaled = Downscaled(domain: DomainDef, bands: seq<Band>)

  /** The `re.match(r'S2A', self.s_file)` guard: matching against no file name raises
      TypeError, a name starting with 'S2A' raises IOError. */
  function ProductPath(sFile: Option<string>): (r: Result<string>)
    ensures r.Success? <==> sFile.Some? && !StartsWith(sFile.value, "S2A")
    ensures r.Success? ==> r.value == sFile.value
    ensures r.Failure? ==> r.error == if sFile.None? then TypeError else IOError
  {
    if sFile.None? then Failure(TypeError)
    else if StartsWith(sFile.value, "S2A") then Failure(IOError)
    else Success(sFile.value)
  }

  /** The guard, the scene, the 60 m domain (`-tr 60 60`) and the stitched bands. */
  function DownscaleSpec(sFile: Option<string>, reqs: seq<BandRequest>, glob: string -> seq<string>,
                         outline: string -> Outline, reproject: string -> Grid<Px>,
                         shapeOf: DomainDef -> (nat, nat)): Result<Downscaled> {
    var root :- ProductPath(sFile);
    var sc :- SceneSpec(glob, outline, root);
    var d := ByResolution(sc.extent, 60);
    var bs :- StitchAllSpec(glob, reproject, sc.gdirs, reqs, shapeOf(d).0, shapeOf(d).1);
    Success(Downscaled(d, bs))
  }

  /** A downscaled product lies on the 60 m domain over the scene's extent and holds one
      band per request, in request order, named as requested and holding the mosaic of the
      requested file over the scene's granules. */
  lemma DownscaleBands(sFile: Option<string>, reqs: seq<BandRequest>, glob: string -> seq<string>,
                       outline: string -> Outline, reproject: string -> Grid<Px>, shapeOf: DomainDef -> (nat, nat))
    requires DownscaleSpec(sFile, reqs, glob, outline, reproject, shapeOf).Success?
    ensures sFile.Some? && !StartsWith(sFile.value, "S2A") && SceneSpec(glob, outline, sFile.value).Success?
    ensures var sc := SceneSpec(glob, outline, sFile.value).value;
      var out := DownscaleSpec(sFile, reqs, glob, outline, reproject, shapeOf).value;
      var (rows, cols) := shapeOf(ByResolution(sc.extent, 60));
      out.domain == ByResolution(sc.extent, 60) && |out.bands| == |reqs| &&
      forall i :: 0 <= i < |reqs| ==>
        StitchSpec(glob, reproject, sc.gdirs, reqs[i].file, rows, cols).Success? &&
        out.bands[i] == Band(reqs[i].name, StitchSpec(glob, reproject, sc.gdirs, reqs[i].file, rows, cols).value)
  {
    var sc := SceneSpec(glob, outline, sFile.value).value;
    var d := ByResolution(sc.extent, 60);
    StitchAllBands(glob, reproject, sc.gdirs, reqs, shapeOf(d).0, shapeOf(d).1);
  }

  /** The method: the granule and corner loops, then `stich`. */
  method Downscale(sFile: Option<string>, reqs: seq<BandRequest>, glob: string -> seq<string>,
                   outline: string -> Outline, reproject: string -> Grid<Px>,
                   shapeOf: DomainDef -> (nat, nat)) returns (res: Result<Downscaled>)
    ensures res == DownscaleSpec(sFile, reqs, glob, outline, reproject, shapeOf)
  {
    var root :- ProductPath(sFile);
    var sc :- SceneOf(glob, outline, root);
    var d := ByResolution(sc.extent, 60);
    var bs :- StitchBands(glob, reproject, sc.gdirs, reqs, shapeOf(d).0, shapeOf(d).1);
    return Success(Downscaled(d, bs));
  }

  /** `'*_B%s.jp2' % code` and `'Rrs_%s' % BANDS[code]['wavelength']` for each band code;
      KeyError for a code the table lacks. */
  function CodeRequests(codes: seq<string>): (r: Result<seq<BandRequest>>)
    ensures r.Success? <==> forall i :: 0 <= i < |codes| ==> codes[i] in CodesOf(BandTable)
    ensures r.Success? ==> |r.value| == |codes| && forall i :: 0 <= i < |codes| ==>
      LookupCode(codes[i]).Success? && r.value[i] == BandRequest(ImagePattern(codes[i]), RrsName(LookupCode(codes[i]).value.wavelength))
  {
    if forall i :: 0 <= i < |codes| ==> codes[i] in CodesOf(BandTable) then
      Success(seq(|codes|, i requires 0 <= i < |codes| =>
        BandRequest(ImagePattern(codes[i]), RrsName(LookupCode(codes[i]).value.wavelength))))
    else Failure(KeyError)
  }

  /** Requesting the sorted table codes stitches bands named after the Sentinel-2
      wavelengths in list order, band i from the image file of code i. */
  lemma TableRequests()
    ensures CodeRequests(SortedCodes()).Success?
    ensures |CodeRequests(SortedCodes()).value| == |Sentinel2|
    ensures forall i :: 0 <= i < |Sentinel2| ==>
      CodeRequests(SortedCodes()).value[i] == BandRequest(ImagePattern(BandTable[i].code), RrsName(Sentinel2[i]))
  {
    SortedCodesAreTableCodes();
    var cs := SortedCodes();
    var ts := CodesOf(BandTable);
    forall i | 0 <= i < |cs| ensures cs[i] in ts {
      assert cs[i] == ts[i];
    }
    var r := CodeRequests(cs);
    forall i | 0 <= i < |Sentinel2|
      ensures r.value[i] == BandRequest(ImagePattern(BandTable[i].code), RrsName(Sentinel2[i]))
    {
      LookupTableCode(i);
      assert cs[i] == ts[i] == BandTable[i].code;
      assert Sentinel2[i] == WavelengthsOf(BandTable)[i] == BandTable[i].wavelength;
    }
  }

  /** A code's pattern matches that band's image file in any granule. */
  lemma CodePatternMatches(prefix: string, code: string)
    ensures GlobMatch(prefix + "_B" + code + ".jp2", ImagePattern(code))
  {
    var f := prefix + "_B" + code + ".jp2";
    var t := ImagePattern(code)[1..];
    assert t == "_B" + code + ".jp2";
    assert f == prefix + t;
    assert f[|f| - |t|..] == t;
  }

  /** A band image file name `<prefix>_B<cc>.jp2` with a two-character band code. */
  predicate CodedImageName(f: string) {
    |f| >= 8 && f[|f| - 8..|f| - 6] == "_B" && f[|f| - 4..] == ".jp2"
  }

  lemma CodedName(prefix: string, code: string)
    requires |code| == 2
    ensures CodedImageName(prefix + "_B" + code + ".jp2")
  {
    var f := prefix + "_B" + code + ".jp2";
    assert f[|f| - 8..|f| - 6] == "_B";
    assert f[|f| - 4..] == ".jp2";
  }

  /** A pattern built from a wavelength of three or more digits matches no band image
      file: seven places from the end the file name has 'B' where the pattern has a
      digit. */
  lemma WavelengthPatternMisses(f: string, w: nat)
    requires CodedImageName(f) && w >= 100
    ensures !GlobMatch(f, ImagePattern(Decimal(w)))
  {
    var d := Decimal(w);
    DecimalLength(w);
    var t := ImagePattern(d)[1..];
    assert t == "_B" + d + ".jp2";
    assert f[|f| - 8..|f| - 6][1] == f[|f| - 7];
    assert t[|t| - 7] == d[|d| - 3];
    if |t| <= |f| {
      assert f[|f| - |t|..][|t| - 7] == f[|f| - 7];
    }
  }

  /** A glob over granule image directories that hold only band image files: whatever it
      returns for a band image pattern matches the pattern and is such a file. */
  ghost predicate CodedImagesOnly(glob: string -> seq<string>, gdir: string) {
    forall code, f :: f in glob(ImagePath(gdir, ImagePattern(code))) ==> GlobMatch(f, ImagePattern(code)) && CodedImageName(f)
  }

  /** Asking such a directory for a wavelength-named image finds nothing. */
  lemma WavelengthGlobEmpty(glob: string -> seq<string>, gdir: string, w: nat)
    requires CodedImagesOnly(glob, gdir) && w >= 100
    ensures glob(ImagePath(gdir, ImagePattern(Decimal(w)))) == []
  {
    var fs := glob(ImagePath(gdir, ImagePattern(Decimal(w))));
    if fs != [] {
      WavelengthPatternMisses(fs[0], w);
    }
  }

  /** What `s2_downscale` is evidently meant to do: stitch every table code in sorted
      order, naming each band after its wavelength. */
  function IntendedDownscale(sFile: Option<string>, glob: string -> seq<string>, outline: string -> Outline,
                             reproject: string -> Grid<Px>, shapeOf: DomainDef -> (nat, nat)): Result<Downscaled> {
    TableRequests();
    DownscaleSpec(sFile, CodeRequests(SortedCodes()).value, glob, outline, reproject, shapeOf)
  }

  /** The intended product has one band per Sentinel-2 wavelength, in list order, named
      `Rrs_<w>` and stitched from the image files of the matching band code. */
  lemma IntendedBands(sFile: Option<string>, glob: string -> seq<string>, outline: string -> Outline,
                      reproject: string -> Grid<Px>, shapeOf: DomainDef -> (nat, nat))
    requires IntendedDownscale(sFile, glob, outline, reproject, shapeOf).Success?
    ensures sFile.Some? && SceneSpec(glob, outline, sFile.value).Success?
    ensures var sc := SceneSpec(glob, outline, sFile.value).value;
      var out := IntendedDownscale(sFile, glob, outline, reproject, shapeOf).value;
      var (rows, cols) := shapeOf(ByResolution(sc.extent, 60));
      |out.bands| == |Sentinel2| &&
      forall i :: 0 <= i < |Sentinel2| ==>
        out.bands[i].name == RrsName(Sentinel2[i]) &&
        StitchSpec(glob, reproject, sc.gdirs, ImagePattern(BandTable[i].code), rows, cols) == Success(out.bands[i].grid)
  {
    TableRequests();
    var reqs := CodeRequests(SortedCodes()).value;
    assert IntendedDownscale(sFile, glob, outline, reproject, shapeOf) == DownscaleSpec(sFile, reqs, glob, outline, reproject, shapeOf);
    DownscaleBands(sFile, reqs, glob, outline, reproject, shapeOf);
    var sc := SceneSpec(glob, outline, sFile.value).value;
    var out := DownscaleSpec(sFile, reqs, glob, outline, reproject, shapeOf).value;
    var sh := shapeOf(ByResolution(sc.extent, 60));
    forall i | 0 <= i < |Sentinel2|
      ensures out.bands[i].name == RrsName(Sentinel2[i])
      ensures StitchSpec(glob, reproject, sc.gdirs, ImagePattern(BandTable[i].code), sh.0, sh.1) == Success(out.bands[i].grid)
    {
      assert reqs[i] == BandRequest(ImagePattern(BandTable[i].code), RrsName(Sentinel2[i]));
    }
  }
}
