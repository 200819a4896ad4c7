/** The data-preparation class of the `michigan` package: its construction, the MODIS
    geolocation (module Modis), the Sentinel-2 downscale and the granule survey. */
module MichiganData {
  import opened Python
  import opened Raster
  import opened Text
  import opened Bands
  import opened Mosaic
  import opened Domain
  import opened Granules
  import opened Downscaling

  /** `Data(m_file, s_file, domain)`: the two input products and the processing domain. */
  datatype Data = Data(mFile: Option<string>, sFile: Option<string>, domain: DomainDef)

  /** The constructor: ImportError unless at least one of the two file names is
      truthy; the domain defaults to the Sandy Bear Dunes domain. */
  function NewData(mFile: Option<string>, sFile: Option<string>, domain: Option<DomainDef>): (r: Result<Data>)
    ensures r.Failure? <==> !Truthy(mFile) && !Truthy(sFile)
    ensures r.Failure? ==> r.error == ImportError
    ensures r.Success? ==> r.value.mFile == mFile && r.value.sFile == sFile
    ensures r.Success? ==> r.value.domain == if domain.Some? then domain.value else SbdDomain
  {
    var d := if domain.Some? then domain.value else SbdDomain;
    if !Truthy(mFile) && !Truthy(sFile) then Failure(ImportError)
    else Success(Data(mFile, sFile, d))
  }

  /** Without a domain argument the data lie on the 122 km x 78 km Sandy Bear Dunes
      extent at 1952 x 1248 pixels. */
  lemma DefaultDomain(mFile: Option<string>, sFile: Option<string>)
    requires Truthy(mFile) || Truthy(sFile)
    ensures NewData(mFile, sFile, None).value.domain == BySize(SbdExtent, 1952, 1248)
  {
    SbdSize();
  }

  /** `stich(domain, bands, gdirs)` as written: band `b` is read from `*_B<b>.jp2` and
      named `Rrs_<b>`. */
  function StitchRequests(bands: seq<nat>): (reqs: seq<BandRequest>)
    ensures |reqs| == |bands|
  {
    seq(|bands|, i requires 0 <= i < |bands| => BandRequest(ImagePattern(Decimal(bands[i])), RrsName(bands[i])))
  }

  /** `stich`: one band per entry of `bands`, in order, each the mosaic of the file its
      number names, under the reflectance name of that number. */
  method Stich(glob: string -> seq<string>, reproject: string -> Grid<Px>, rows: nat, cols: nat,
               bands: seq<nat>, gdirs: seq<string>) returns (res: Result<seq<Band>>)
    ensures res == StitchAllSpec(glob, reproject, gdirs, StitchRequests(bands), rows, cols)
    ensures res.Success? ==> |res.value| == |bands| && forall i :: 0 <= i < |bands| ==>
      res.value[i].name == RrsName(bands[i]) &&
      StitchSpec(glob, reproject, gdirs, ImagePattern(Decimal(bands[i])), rows, cols) == Success(res.value[i].grid)
  {
    res := StitchBands(glob, reproject, gdirs, StitchRequests(bands), rows, cols);
    if res.Success? {
      StitchAllBands(glob, reproject, gdirs, StitchRequests(bands), rows, cols);
    }
  }

  /** `s2_downscale` as written: `stich` is handed the Sentinel-2 wavelengths, so each
      band's file pattern carries a wavelength where the granule files carry a band code. */
  function S2DownscaleAsWritten(data: Data, glob: string -> seq<string>, outline: string -> Outline,
                                reproject: string -> Grid<Px>, shapeOf: DomainDef -> (nat, nat)): Result<Downscaled> {
    DownscaleSpec(data.sFile, StitchRequests(Sentinel2), glob, outline, reproject, shapeOf)
  }

  /** On any product whose granule image directories hold only band images named by
      two-character codes, the downscale as written fails; once the product's scene is
      found, the failure is the IndexError of `glob(...)[0]`: the first wavelength
      pattern, `*_B443.jp2`, finds no file in the first granule. */
  lemma AsWrittenFindsNoImage(data: Data, glob: string -> seq<string>, outline: string -> Outline,
                              reproject: string -> Grid<Px>, shapeOf: DomainDef -> (nat, nat))
    requires forall d :: CodedImagesOnly(glob, d)
    ensures S2DownscaleAsWritten(data, glob, outline, reproject, shapeOf).Failure?
    ensures ProductPath(data.sFile).Success? && SceneSpec(glob, outline, data.sFile.value).Success? ==>
      S2DownscaleAsWritten(data, glob, outline, reproject, shapeOf) == Failure(IndexError)
  {
    var r := ProductPath(data.sFile);
    if r.Success? {
      var sc := SceneSpec(glob, outline, r.value);
      if sc.Success? {
        var gdirs := sc.value.gdirs;
        assert gdirs != [];
        var d := ByResolution(sc.value.extent, 60);
        var (rows, cols) := shapeOf(d);
        var reqs := StitchRequests(Sentinel2);
        WavelengthGlobEmpty(glob, gdirs[0], 443);
        assert reqs[0].file == ImagePattern(Decimal(443));
        var st := StitchSpec(glob, reproject, gdirs, reqs[0].file, rows, cols);
        assert st == Failure(IndexError);
        assert reqs[..1][..0] == [];
        assert StitchAllSpec(glob, reproject, gdirs, reqs[..1], rows, cols) == Failure(IndexError);
        FailureSticks(glob, reproject, gdirs, reqs, 1, rows, cols);
      }
    }
  }

  /** A file system in which every granule pattern and every two-character band image
      pattern matches one entry, named like the pattern: a granule pattern ends with '*',
      a band image path with `_B<cc>.jp2`. */
  predicate ProbeAnswers(p: string) {
    (|p| > 0 && p[|p| - 1] == '*') || CodedImageName(p)
  }

  const ProbeGlob: string -> seq<string> := p => if ProbeAnswers(p) then [p] else []
  const ProbeOutline: string -> Outline := f => Outline([0.0], [0.0])
  const ProbeReproject: string -> Grid<Px> := f => []
  const ProbeShape: DomainDef -> (nat, nat) := d => (0, 0)

  /** The path of a pattern joined under a directory ends with the pattern's last
      character. */
  lemma JoinedLast(a: string, b: string)
    requires |b| > 0
    ensures |PathJoin(a, b)| > 0 && PathJoin(a, b)[|PathJoin(a, b)| - 1] == b[|b| - 1]
  {
    PathJoinParts(a, b);
    if !(|b| > 0 && b[0] == '/') {
      var j := PathJoin(a, b);
      assert j[|j| - |b|..][|b| - 1] == j[|j| - 1];
    }
  }

  /** A band image pattern under a directory ends with the pattern. */
  lemma ImagePathEnds(d: string, code: string)
    ensures EndsWith(ImagePath(d, ImagePattern(code)), ImagePattern(code))
  {
    PathJoinParts(PathJoin(d, "IMG_DATA"), ImagePattern(code));
  }

  /** A two-character code gives a band image path. */
  lemma CodedPath(d: string, code: string)
    requires |code| == 2
    ensures CodedImageName(ImagePath(d, ImagePattern(code)))
  {
    var q := ImagePath(d, ImagePattern(code));
    var t := ImagePattern(code);
    ImagePathEnds(d, code);
    assert q[|q| - 9..] == t;
    assert q[|q| - 8..|q| - 6] == t[1..3];
    assert q[|q| - 4..] == t[5..];
  }

  lemma EndsWithTail(s: string, t: string)
    requires EndsWith(s, t) && |t| > 0
    ensures EndsWith(s, t[1..])
  {
    assert s[|s| - |t|..][1..] == s[|s| - |t[1..]|..];
  }

  /** The probe glob answers band image patterns only with coded band image names that
      match them. */
  lemma ProbeCodedOnly(d: string)
    ensures CodedImagesOnly(ProbeGlob, d)
  {
    forall code, f | f in ProbeGlob(ImagePath(d, ImagePattern(code)))
      ensures GlobMatch(f, ImagePattern(code)) && CodedImageName(f)
    {
      var q := ImagePath(d, ImagePattern(code));
      JoinedLast(PathJoin(d, "IMG_DATA"), ImagePattern(code));
      assert f == q && CodedImageName(q);
      ImagePathEnds(d, code);
      EndsWithTail(q, ImagePattern(code));
    }
  }

  /** Every granule directory of the probe product has a band-1 image. */
  lemma ProbeHasB01(d: string)
    ensures HasB01(ProbeGlob, d)
  {
    CodedPath(d, "01");
    assert B01Pattern(d) == ImagePath(d, ImagePattern("01"));
  }

  /** The probe product 'P' has a scene. */
  lemma ProbeScene()
    ensures SceneSpec(ProbeGlob, ProbeOutline, "P").Success?
  {
    var gdirs := GranuleOrder(ProbeGlob, "P", Domain.Granules);
    var gp := GranulePattern("P", Domain.Granules[0]);
    JoinedLast(PathJoin("P", "GRANULE"), "*_T" + Domain.Granules[0] + "_*");
    assert MatchesGranule(ProbeGlob, "P", Domain.Granules[0], gp);
    GranuleOrderMembers(ProbeGlob, "P", Domain.Granules, gp);
    assert gdirs != [];
    forall k | 0 <= k < |gdirs| ensures HasB01(ProbeGlob, gdirs[k]) {
      ProbeHasB01(gdirs[k]);
    }
    DerivedExtentSucceeds(ProbeGlob, ProbeOutline, gdirs);
  }

  /** Every band code of the table has its image in every granule directory of the
      probe product, so the intended downscale of 'P' succeeds. */
  lemma ProbeIntendedSucceeds()
    ensures IntendedDownscale(Some("P"), ProbeGlob, ProbeOutline, ProbeReproject, ProbeShape).Success?
  {
    ProbeScene();
    var sc := SceneSpec(ProbeGlob, ProbeOutline, "P").value;
    TableRequests();
    var reqs := CodeRequests(SortedCodes()).value;
    forall i | 0 <= i < |reqs| ensures StitchSpec(ProbeGlob, ProbeReproject, sc.gdirs, reqs[i].file, 0, 0).Success? {
      ProbeStitch(sc.gdirs, i);
      assert reqs[i].file == ImagePattern(BandTable[i].code);
    }
    StitchAllFailsIff(ProbeGlob, ProbeReproject, sc.gdirs, reqs, 0, 0);
  }

  lemma ProbeStitch(gdirs: seq<string>, i: nat)
    requires i < |BandTable|
    ensures StitchSpec(ProbeGlob, ProbeReproject, gdirs, ImagePattern(BandTable[i].code), 0, 0).Success?
  {
    var code := BandTable[i].code;
    CodesAreTwoDigits();
    assert |code| == 2 by {
      assert CodesOf(BandTable)[i] == code;
    }
    forall k | 0 <= k < |gdirs| ensures ProbeGlob(ImagePath(gdirs[k], ImagePattern(code))) != [] {
      CodedPath(gdirs[k], code);
    }
    LookupTilesSucceeds(ProbeGlob, ProbeReproject, gdirs, ImagePattern(code), 0, 0);
  }

  /** The discrepancy on one product: the downscale as written raises IndexError, while
      the intended downscale of the same product succeeds. */
  lemma AsWrittenCounterexample()
    ensures S2DownscaleAsWritten(Data(None, Some("P"), SbdDomain), ProbeGlob, ProbeOutline, ProbeReproject, ProbeShape)
      == Failure(IndexError)
    ensures IntendedDownscale(Some("P"), ProbeGlob, ProbeOutline, ProbeReproject, ProbeShape).Success?
  {
    forall d ensures CodedImagesOnly(ProbeGlob, d) {
      ProbeCodedOnly(d);
    }
    ProbeScene();
    assert ProductPath(Some("P")) == Success("P");
    AsWrittenFindsNoImage(Data(None, Some("P"), SbdDomain), ProbeGlob, ProbeOutline, ProbeReproject, ProbeShape);
    ProbeIntendedSucceeds();
  }

  /** The same product downscaled as intended: one band per band code; by the
      table lemmas each pattern matches that band's image file and each band is named
      after the band's wavelength. */
  method S2Downscale(data: Data, glob: string -> seq<string>, outline: string -> Outline,
                     reproject: string -> Grid<Px>, shapeOf: DomainDef -> (nat, nat)) returns (res: Result<Downscaled>)
    ensures res == IntendedDownscale(data.sFile, glob, outline, reproject, shapeOf)
  {
    TableRequests();
    res := Downscale(data.sFile, CodeRequests(SortedCodes()).value, glob, outline, reproject, shapeOf);
  }

  /** `s2_make_granules`: the 'S2A' guard, then the survey of every granule of the
      product. */
  function S2MakeGranulesSpec(data: Data, glob: string -> seq<string>, border: string -> Outline, reproject: string -> Grid<Px>,
                              shapeOf: DomainDef -> (nat, nat), watermask: DomainDef -> Grid<int>): Result<Products> {
    var root :- ProductPath(data.sFile);
    MakeGranulesSpec(glob, border, reproject, shapeOf, watermask, root)
  }

  method S2MakeGranules(data: Data, glob: string -> seq<string>, border: string -> Outline, reproject: string -> Grid<Px>,
                        shapeOf: DomainDef -> (nat, nat), watermask: DomainDef -> Grid<int>) returns (res: Result<Products>)
    ensures res == S2MakeGranulesSpec(data, glob, border, reproject, shapeOf, watermask)
  {
    var root :- ProductPath(data.sFile);
    res := MakeGranules(glob, border, reproject, shapeOf, watermask, root);
  }

  /** A survey succeeds only on a named product outside the 'S2A' prefix, with at least
      one granule, and then its labels are those of the granules in sorted order. */
  lemma S2MakeGranulesResult(data: Data, glob: string -> seq<string>, border: string -> Outline, reproject: string -> Grid<Px>,
                             shapeOf: DomainDef -> (nat, nat), watermask: DomainDef -> Grid<int>)
    requires S2MakeGranulesSpec(data, glob, border, reproject, shapeOf, watermask).Success?
    ensures data.sFile.Some? && !StartsWith(data.sFile.value, "S2A")
    ensures AllGranules(glob, data.sFile.value) != []
    ensures var gdirs := AllGranules(glob, data.sFile.value);
      var sv := S2MakeGranulesSpec(data, glob, border, reproject, shapeOf, watermask).value.survey;
      |sv.labels| == |gdirs| &&
      forall k :: 0 <= k < |gdirs| ==> HasB01(glob, gdirs[k]) && Success(sv.labels[k]) == GranuleLabel(glob(B01Pattern(gdirs[k]))[0])
  {
    var root := ProductPath(data.sFile);
    assert root.Success?;
    var run := MakeGranulesSpec(glob, border, reproject, shapeOf, watermask, root.value);
    assert S2MakeGranulesSpec(data, glob, border, reproject, shapeOf, watermask) == run;
    var gdirs := AllGranules(glob, data.sFile.value);
    var sv := SurveySpec(glob, border, gdirs);
    assert sv.Success? && gdirs != [];
    var e := ExtentOf(sv.value.lons, sv.value.lats);
    assert e.Success?;
    var ql := QuicklookSpec(glob, reproject, shapeOf, watermask, gdirs, e.value);
    assert ql.Success?;
    assert run.value.survey == sv.value;
    SurveyLabels(glob, border, gdirs, 0);
    forall k | 0 <= k < |gdirs|
      ensures HasB01(glob, gdirs[k]) && Success(sv.value.labels[k]) == GranuleLabel(glob(B01Pattern(gdirs[k]))[0])
    {
      SurveyLabels(glob, border, gdirs, k);
    }
  }
}
