/** The granule survey behind a product's map and quicklook: every granule directory in
    sorted order, its border and label, the extent of all borders, and the nearest-neighbour
    band-1 composite with the watermask's code-2 cells set to 0. */
module Granules {
  import opened Python
  import opened Raster
  import opened Text
  import opened Mosaic
  import opened Domain

  /** `b01file.split('_')[-2][1:]`: the second-to-last '_' field without its first
      character; a name without '_' has no such field (IndexError). */
  function GranuleLabel(path: string): (r: Result<string>)
    ensures r.Success? <==> '_' in path
  {
    var fields := Split(path, '_');
    SplitCount(path, '_');
    if |fields| < 2 then Failure(IndexError)
    else
      var f := fields[|fields| - 2];
      Success(if f == [] then [] else f[1..])
  }

  /** For a file named `<anything>_T<tile>_<band file>`, with no '_' in the tile or the
      band file name, the label is the tile. */
  lemma LabelOfTileName(prefix: string, tile: string, rest: string)
    requires '_' !in tile && '_' !in rest
    ensures GranuleLabel(prefix + "_T" + tile + "_" + rest) == Success(tile)
  {
    var t := "T" + tile;
    assert '_' !in t;
    var path := prefix + "_T" + tile + "_" + rest;
    assert path == prefix + ['_'] + (t + ['_'] + rest);
    SplitConcat(prefix, t + ['_'] + rest, '_');
    SplitConcat(t, rest, '_');
    SplitNoSep(t, '_');
    SplitNoSep(rest, '_');
    var fields := Split(path, '_');
    assert fields == Split(prefix, '_') + [t] + [rest];
    assert fields[|fields| - 2] == t;
  }

  /** `sorted(glob.glob(os.path.join(ifile, 'GRANULE', '*')))`: all granule directories. */
  function AllGranules(glob: string -> seq<string>, root: string): (gdirs: seq<string>)
    ensures Sorted(gdirs) && multiset(gdirs) == multiset(glob(PathJoin(PathJoin(root, "GRANULE"), "*")))
  {
    Sort(glob(PathJoin(PathJoin(root, "GRANULE"), "*")))
  }

  /** The lists the survey loop builds: all border points, the per-granule borders and
      the per-granule labels. */
  datatype Survey = Survey(lons: seq<real>, lats: seq<real>, lonVec: seq<seq<real>>, latVec: seq<seq<real>>, labels: seq<string>)

  /** What one granule contributes: the border of its band-1 image and that image's label;
      IndexError when it has no band-1 image or the image name has no '_'. */
  function SurveyEntry(glob: string -> seq<string>, border: string -> Outline, gdir: string): (r: Result<(Outline, string)>)
  {
    var f :- FirstMatch(glob, B01Pattern(gdir));
    var tileLabel :- GranuleLabel(f);
    Success((border(f), tileLabel))
  }

  /** Granule gdir has a band-1 image whose name holds a '_'. */
  predicate Labelled(glob: string -> seq<string>, gdir: string) {
    HasB01(glob, gdir) && '_' in glob(B01Pattern(gdir))[0]
  }

  /** A granule's entry exists exactly when it is labelled; it is then that image's border
      and label. */
  lemma EntryFacts(glob: string -> seq<string>, border: string -> Outline, gdir: string)
    ensures SurveyEntry(glob, border, gdir).Success? <==> Labelled(glob, gdir)
    ensures SurveyEntry(glob, border, gdir).Success? ==>
      SurveyEntry(glob, border, gdir).value.0 == OutlineOf(glob, border, gdir) &&
      Success(SurveyEntry(glob, border, gdir).value.1) == GranuleLabel(glob(B01Pattern(gdir))[0])
  {
  }

  function Extend(acc: Survey, o: Outline, tileLabel: string): Survey {
    Survey(acc.lons + o.lons, acc.lats + o.lats, acc.lonVec + [o.lons], acc.latVec + [o.lats], acc.labels + [tileLabel])
  }

  function SurveySpec(glob: string -> seq<string>, border: string -> Outline, gdirs: seq<string>): Result<Survey> {
    if gdirs == [] then Success(Survey([], [], [], [], []))
    else
      var acc :- SurveySpec(glob, border, gdirs[..|gdirs| - 1]);
      var e :- SurveyEntry(glob, border, gdirs[|gdirs| - 1]);
      Success(Extend(acc, e.0, e.1))
  }

  /** Entry k of the survey lists is granule gdir's border and label. */
  predicate EntryAt(glob: string -> seq<string>, border: string -> Outline, sv: Survey, k: nat, gdir: string) {
    k < |sv.lonVec| && k < |sv.latVec| && k < |sv.labels| &&
    SurveyEntry(glob, border, gdir).Success? &&
    sv.lonVec[k] == SurveyEntry(glob, border, gdir).value.0.lons &&
    sv.latVec[k] == SurveyEntry(glob, border, gdir).value.0.lats &&
    sv.labels[k] == SurveyEntry(glob, border, gdir).value.1
  }

  /** The survey succeeds exactly when every granule has a band-1 image with a label. */
  lemma {:induction false} SurveySucceeds(glob: string -> seq<string>, border: string -> Outline, gdirs: seq<string>)
    ensures SurveySpec(glob, border, gdirs).Success? <==> forall k :: 0 <= k < |gdirs| ==> Labelled(glob, gdirs[k])
  {
    if gdirs != [] {
      var p := gdirs[..|gdirs| - 1];
      var last := gdirs[|gdirs| - 1];
      SurveySucceeds(glob, border, p);
      EntryFacts(glob, border, last);
      assert SurveySpec(glob, border, gdirs).Success? <==>
        SurveySpec(glob, border, p).Success? && SurveyEntry(glob, border, last).Success?;
      if forall k :: 0 <= k < |gdirs| ==> Labelled(glob, gdirs[k]) {
        forall k | 0 <= k < |p| ensures Labelled(glob, p[k]) {
          assert p[k] == gdirs[k];
        }
      }
      if (forall k :: 0 <= k < |p| ==> Labelled(glob, p[k])) && Labelled(glob, last) {
        forall k | 0 <= k < |gdirs| ensures Labelled(glob, gdirs[k]) {
          if k < |p| {
            assert p[k] == gdirs[k];
          }
        }
      }
    }
  }

  /** The three per-granule lists have one entry per granule. */
  lemma {:induction false} SurveyLengths(glob: string -> seq<string>, border: string -> Outline, gdirs: seq<string>)
    requires SurveySpec(glob, border, gdirs).Success?
    ensures |SurveySpec(glob, border, gdirs).value.lonVec| == |gdirs|
    ensures |SurveySpec(glob, border, gdirs).value.latVec| == |gdirs|
    ensures |SurveySpec(glob, border, gdirs).value.labels| == |gdirs|
  {
    if gdirs != [] {
      var p := gdirs[..|gdirs| - 1];
      var acc := SurveySpec(glob, border, p);
      var e := SurveyEntry(glob, border, gdirs[|gdirs| - 1]);
      assert acc.Success? && e.Success?;
      SurveyLengths(glob, border, p);
      assert SurveySpec(glob, border, gdirs).value == Extend(acc.value, e.value.0, e.value.1);
    }
  }

  /** The three per-granule lists have one entry per granule, in granule order: its border
      lons, its border lats and its label. */
  lemma {:induction false} SurveyAligned(glob: string -> seq<string>, border: string -> Outline, gdirs: seq<string>, k: nat)
    requires SurveySpec(glob, border, gdirs).Success? && k < |gdirs|
    ensures |SurveySpec(glob, border, gdirs).value.lonVec| == |gdirs|
    ensures |SurveySpec(glob, border, gdirs).value.latVec| == |gdirs|
    ensures |SurveySpec(glob, border, gdirs).value.labels| == |gdirs|
    ensures EntryAt(glob, border, SurveySpec(glob, border, gdirs).value, k, gdirs[k])
  {
    SurveyLengths(glob, border, gdirs);
    var p := gdirs[..|gdirs| - 1];
    var acc := SurveySpec(glob, border, p);
    var e := SurveyEntry(glob, border, gdirs[|gdirs| - 1]);
    assert acc.Success? && e.Success?;
    var sv := Extend(acc.value, e.value.0, e.value.1);
    assert SurveySpec(glob, border, gdirs).value == sv;
    if k < |p| {
      SurveyAligned(glob, border, p, k);
      assert p[k] == gdirs[k];
      var a := acc.value;
      assert sv.lonVec[k] == a.lonVec[k] && sv.latVec[k] == a.latVec[k] && sv.labels[k] == a.labels[k];
    } else {
      SurveyLengths(glob, border, p);
      assert sv.lonVec[k] == e.value.0.lons && sv.latVec[k] == e.value.0.lats && sv.labels[k] == e.value.1;
    }
  }

  /** Label k of the survey is the label of granule k's band-1 image name. */
  lemma SurveyLabels(glob: string -> seq<string>, border: string -> Outline, gdirs: seq<string>, k: nat)
    requires SurveySpec(glob, border, gdirs).Success? && k < |gdirs|
    ensures |SurveySpec(glob, border, gdirs).value.labels| == |gdirs| && HasB01(glob, gdirs[k])
    ensures Success(SurveySpec(glob, border, gdirs).value.labels[k]) == GranuleLabel(glob(B01Pattern(gdirs[k]))[0])
  {
    SurveyAligned(glob, border, gdirs, k);
    EntryFacts(glob, border, gdirs[k]);
  }

  /** The survey's point lists are the corner lists of the same granules, so the extent
      derived from them contains every border point. */
  lemma {:induction false} SurveyPoints(glob: string -> seq<string>, border: string -> Outline, gdirs: seq<string>)
    requires SurveySpec(glob, border, gdirs).Success?
    ensures CornerSpec(glob, border, gdirs).Success?
    ensures SurveySpec(glob, border, gdirs).value.lons == CornerSpec(glob, border, gdirs).value.lons
    ensures SurveySpec(glob, border, gdirs).value.lats == CornerSpec(glob, border, gdirs).value.lats
  {
    if gdirs != [] {
      var p := gdirs[..|gdirs| - 1];
      var acc := SurveySpec(glob, border, p);
      var e := SurveyEntry(glob, border, gdirs[|gdirs| - 1]);
      assert acc.Success? && e.Success?;
      SurveyPoints(glob, border, p);
      assert SurveySpec(glob, border, gdirs).value == Extend(acc.value, e.value.0, e.value.1);
    }
  }

  /** The survey loop. */
  method SurveyGranules(glob: string -> seq<string>, border: string -> Outline, gdirs: seq<string>) returns (res: Result<Survey>)
    ensures res == SurveySpec(glob, border, gdirs)
  {
    var sv := Survey([], [], [], [], []);
    var i := 0;
    while i < |gdirs|
      invariant 0 <= i <= |gdirs|
      invariant SurveySpec(glob, border, gdirs[..i]) == Success(sv)
    {
      assert gdirs[..i + 1][..i] == gdirs[..i];
      var f := FirstMatch(glob, B01Pattern(gdirs[i]));
      if f.Failure? {
        assert SurveyEntry(glob, border, gdirs[i]).Failure?;
        SurveyFailureSticks(glob, border, gdirs, i + 1);
        return Failure(f.error);
      }
      var o := border(f.value);
      var tileLabel := GranuleLabel(f.value);
      if tileLabel.Failure? {
        assert SurveyEntry(glob, border, gdirs[i]) == Failure(tileLabel.error);
        SurveyFailureSticks(glob, border, gdirs, i + 1);
        return Failure(tileLabel.error);
      }
      assert SurveyEntry(glob, border, gdirs[i]) == Success((o, tileLabel.value));
      sv := Extend(sv, o, tileLabel.value);
      i := i + 1;
    }
    assert gdirs[..i] == gdirs;
    return Success(sv);
  }

  lemma {:induction false} SurveyFailureSticks(glob: string -> seq<string>, border: string -> Outline, gdirs: seq<string>, i: nat)
    requires i <= |gdirs| && SurveySpec(glob, border, gdirs[..i]).Failure?
    ensures SurveySpec(glob, border, gdirs) == SurveySpec(glob, border, gdirs[..i])
    decreases |gdirs| - i
  {
    if i < |gdirs| {
      var q := gdirs[..i + 1];
      assert q[..|q| - 1] == gdirs[..i];
      var acc := SurveySpec(glob, border, q[..|q| - 1]);
      assert acc.Failure?;
      assert SurveySpec(glob, border, q) == Failure(acc.error);
      SurveyFailureSticks(glob, border, gdirs, i + 1);
    } else {
      assert gdirs[..i] == gdirs;
    }
  }

  /** `s2array[wm == 2] = 0` on a grid value: the watermask has the grid's shape (numpy
      refuses a boolean index of another shape); the cells it marks 2 become 0 and every
      other cell keeps its value. */
  function ZeroAmbiguous(g: Grid<Px>, wm: Grid<int>): (z: Grid<Px>)
    requires |wm| == |g| && forall r :: 0 <= r < |g| ==> |wm[r]| == |g[r]|
    ensures |z| == |g| && forall r :: 0 <= r < |g| ==> |z[r]| == |g[r]|
    ensures forall r, c :: 0 <= r < |g| && 0 <= c < |g[r]| ==> z[r][c] == if wm[r][c] == 2 then Val(0.0) else g[r][c]
  {
    seq(|g|, r requires 0 <= r < |g| => seq(|g[r]|, c requires 0 <= c < |g[r]| =>
      if wm[r][c] == 2 then Val(0.0) else g[r][c]))
  }

  /** What the granule survey produces: the survey lists, the map's extent and the
      quicklook array. */
  datatype Products = Products(survey: Survey, extent: Extent, quicklook: Grid<Px>)

  /** The quicklook on the 1 km domain over an extent: band-1 composite in granule order,
      then watermask zeroing (IndexError when a granule has no band-1 image or when a
      reprojected band or the watermask is not of the domain's shape). */
  function QuicklookSpec(glob: string -> seq<string>, reproject: string -> Grid<Px>, shapeOf: DomainDef -> (nat, nat),
                         watermask: DomainDef -> Grid<int>, gdirs: seq<string>, e: Extent): Result<Grid<Px>> {
    var d := ByResolution(e, 1000);
    var (rows, cols) := shapeOf(d);
    var ts :- LookupTiles(glob, reproject, gdirs, "*_B01.jp2", rows, cols);
    var wm := watermask(d);
    if !Shaped(wm, rows, cols) then Failure(IndexError)
    else Success(ZeroAmbiguous(MosaicGrid(ts, rows, cols), wm))
  }

  /** The whole run: survey, extent (NameError with no granule), then the quicklook. */
  function MakeGranulesSpec(glob: string -> seq<string>, border: string -> Outline, reproject: string -> Grid<Px>,
                            shapeOf: DomainDef -> (nat, nat), watermask: DomainDef -> Grid<int>, root: string): Result<Products>
  {
    var gdirs := AllGranules(glob, root);
    var sv :- SurveySpec(glob, border, gdirs);
    var e :- if gdirs == [] then Failure(NameError) else ExtentOf(sv.lons, sv.lats);
    var ql :- QuicklookSpec(glob, reproject, shapeOf, watermask, gdirs, e);
    Success(Products(sv, e, ql))
  }

  /** Every quicklook cell is 0 where the watermask is 2 and otherwise the last valid
      band-1 value in granule order, or NaN when no granule is valid there. */
  lemma QuicklookCells(glob: string -> seq<string>, reproject: string -> Grid<Px>, shapeOf: DomainDef -> (nat, nat),
                       watermask: DomainDef -> Grid<int>, gdirs: seq<string>, e: Extent, r: nat, c: nat)
    requires QuicklookSpec(glob, reproject, shapeOf, watermask, gdirs, e).Success?
    requires r < shapeOf(ByResolution(e, 1000)).0 && c < shapeOf(ByResolution(e, 1000)).1
    ensures var (rows, cols) := shapeOf(ByResolution(e, 1000));
      var ts := LookupTiles(glob, reproject, gdirs, "*_B01.jp2", rows, cols);
      var ql := QuicklookSpec(glob, reproject, shapeOf, watermask, gdirs, e).value;
      var wm := watermask(ByResolution(e, 1000));
      ts.Success? && Shaped(wm, rows, cols) && Shaped(ql, rows, cols) &&
      ql[r][c] == if wm[r][c] == 2 then Val(0.0) else MosaicAt(ts.value, r, c)
  {
  }

  /** The extent of a successful run contains every granule's border. */
  lemma BordersInExtent(glob: string -> seq<string>, border: string -> Outline, reproject: string -> Grid<Px>,
                        shapeOf: DomainDef -> (nat, nat), watermask: DomainDef -> Grid<int>, root: string, k: nat)
    requires MakeGranulesSpec(glob, border, reproject, shapeOf, watermask, root).Success?
    requires k < |AllGranules(glob, root)|
    ensures HasB01(glob, AllGranules(glob, root)[k])
    ensures Covers(MakeGranulesSpec(glob, border, reproject, shapeOf, watermask, root).value.extent,
                   OutlineOf(glob, border, AllGranules(glob, root)[k]))
  {
    var gdirs := AllGranules(glob, root);
    var sv := SurveySpec(glob, border, gdirs);
    assert sv.Success? && gdirs != [];
    var e := ExtentOf(sv.value.lons, sv.value.lats);
    assert e.Success?;
    assert MakeGranulesSpec(glob, border, reproject, shapeOf, watermask, root).value.extent == e.value;
    SurveyPoints(glob, border, gdirs);
    CornersGathered(glob, border, gdirs, k);
  }

  /** The run as the source performs it: the survey loop, the extent, the composite loop
      over an all-NaN array, then the in-place watermask zeroing. */
  method MakeGranules(glob: string -> seq<string>, border: string -> Outline, reproject: string -> Grid<Px>,
                      shapeOf: DomainDef -> (nat, nat), watermask: DomainDef -> Grid<int>, root: string) returns (res: Result<Products>)
    ensures res == MakeGranulesSpec(glob, border, reproject, shapeOf, watermask, root)
  {
    var gdirs := AllGranules(glob, root);
    var sv :- SurveyGranules(glob, border, gdirs);
    if gdirs == [] {
      return Failure(NameError);
    }
    var e :- ExtentOf(sv.lons, sv.lats);
    var ql :- Quicklook(glob, reproject, shapeOf, watermask, gdirs, e);
    return Success(Products(sv, e, ql));
  }

  method Quicklook(glob: string -> seq<string>, reproject: string -> Grid<Px>, shapeOf: DomainDef -> (nat, nat),
                   watermask: DomainDef -> Grid<int>, gdirs: seq<string>, e: Extent) returns (res: Result<Grid<Px>>)
    ensures res == QuicklookSpec(glob, reproject, shapeOf, watermask, gdirs, e)
  {
    var d := ByResolution(e, 1000);
    var (rows, cols) := shapeOf(d);
    var ts :- LookupTiles(glob, reproject, gdirs, "*_B01.jp2", rows, cols);
    var s2array := Composite(ts, rows, cols);
    var wm := watermask(d);
    if !Shaped(wm, rows, cols) {
      return Failure(IndexError);
    }
    ghost var before := GridOf(s2array);
    ZeroWhereAmbiguous(s2array, wm);
    ZeroedGrid(GridOf(s2array), before, wm, rows, cols);
    return Success(GridOf(s2array));
  }

  lemma ZeroedGrid(g: Grid<Px>, m: Grid<Px>, wm: Grid<int>, rows: nat, cols: nat)
    requires Shaped(g, rows, cols) && Shaped(m, rows, cols) && Shaped(wm, rows, cols)
    requires forall r, c :: 0 <= r < rows && 0 <= c < cols ==> g[r][c] == if wm[r][c] == 2 then Val(0.0) else m[r][c]
    ensures g == ZeroAmbiguous(m, wm)
  {
    GridsEqual(g, ZeroAmbiguous(m, wm), rows, cols);
  }
}
