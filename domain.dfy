/** Domain derivation: the fixed Sandy Bear Dunes domain, the ordering of granule
    directories, and the bounding box of all granule corners. */
module Domain {
  import opened Python
  import opened Text
  import opened Mosaic

  /** A lon/lat bounding box, as passed to `-lle minlon minlat maxlon maxlat`. */
  datatype Extent = Extent(minLon: real, minLat: real, maxLon: real, maxLat: real)

  /** The Sandy Bear Dunes extent. */
  const SbdExtent := Extent(-86.3, 44.6, -85.2, 45.3)

  /** The four granules covering the Sandy Bear Dunes region. */
  const Granules: seq<string> := ["16TER", "16TFR", "16TEQ", "16TFQ"]

  /** Pixel size of the fixed domain, in metres. */
  const PixelSize: nat := 60

  /** A raster domain: an extent with a pixel count (`-ts width height`) or with a pixel
      size in metres (`-tr res res`). */
  datatype DomainDef = BySize(extent: Extent, width: nat, height: nat) | ByResolution(extent: Extent, metres: nat)

  /** `sbd_dom`: the Sandy Bear Dunes extent at the fixed size. */
  const SbdDomain: DomainDef := BySize(SbdExtent, 122 * (1000 / PixelSize), 78 * (1000 / PixelSize))

  /** `122 * (1000 / pixel_size), 78 * (1000 / pixel_size)` under Python 2 integer
      division: the domain is 122 km by 78 km in pixels of whole-number count per km. */
  function FixedSize(pixelSize: nat): (r: Result<(nat, nat)>)
    ensures r.Failure? <==> pixelSize == 0
    ensures r.Failure? ==> r.error == ZeroDivisionError
    ensures r.Success? ==> exists q: nat :: q * pixelSize <= 1000 < (q + 1) * pixelSize && r.value == (122 * q, 78 * q)
  {
    if pixelSize == 0 then Failure(ZeroDivisionError)
    else
      var q := 1000 / pixelSize;
      assert q * pixelSize <= 1000 < (q + 1) * pixelSize;
      Success((122 * q, 78 * q))
  }

  /** With 60 m pixels, 1000 / 60 truncates to 16: the domain is 1952 x 1248 pixels
      (not the 2033 x 1300 that true division would give). */
  lemma SbdSize()
    ensures FixedSize(PixelSize) == Success((1952, 1248))
    ensures SbdDomain == BySize(SbdExtent, 1952, 1248)
  {
  }

  function SeqMin(xs: seq<real>): (m: real)
    requires xs != []
    ensures m in xs && forall i :: 0 <= i < |xs| ==> m <= xs[i]
  {
    if |xs| == 1 then xs[0]
    else
      var m := SeqMin(xs[..|xs| - 1]);
      assert forall i :: 0 <= i < |xs| - 1 ==> xs[..|xs| - 1][i] == xs[i];
      if xs[|xs| - 1] < m then xs[|xs| - 1] else m
  }

  function SeqMax(xs: seq<real>): (m: real)
    requires xs != []
    ensures m in xs && forall i :: 0 <= i < |xs| ==> xs[i] <= m
  {
    if |xs| == 1 then xs[0]
    else
      var m := SeqMax(xs[..|xs| - 1]);
      assert forall i :: 0 <= i < |xs| - 1 ==> xs[..|xs| - 1][i] == xs[i];
      if xs[|xs| - 1] > m then xs[|xs| - 1] else m
  }

  /** `min(lons), min(lats), max(lons), max(lats)`: the tightest box holding every point;
      `min` of an empty list raises ValueError. */
  function ExtentOf(lons: seq<real>, lats: seq<real>): (r: Result<Extent>)
    ensures r.Success? <==> lons != [] && lats != []
    ensures r.Failure? ==> r.error == ValueError
    ensures r.Success? ==>
      r.value.minLon in lons && r.value.maxLon in lons && r.value.minLat in lats && r.value.maxLat in lats &&
      (forall i :: 0 <= i < |lons| ==> r.value.minLon <= lons[i] <= r.value.maxLon) &&
      (forall i :: 0 <= i < |lats| ==> r.value.minLat <= lats[i] <= r.value.maxLat)
  {
    if lons == [] || lats == [] then Failure(ValueError)
    else Success(Extent(SeqMin(lons), SeqMin(lats), SeqMax(lons), SeqMax(lats)))
  }

  /** `os.path.join(root, 'GRANULE', '*_T%s_*' % granule)` */
  function GranulePattern(root: string, granule: string): string {
    PathJoin(PathJoin(root, "GRANULE"), "*_T" + granule + "_*")
  }

  /** Each key's sorted matches, one block after the other, in key order. */
  function Blocks(matches: string -> seq<string>, keys: seq<string>): seq<string> {
    if keys == [] then []
    else Blocks(matches, keys[..|keys| - 1]) + Sort(matches(keys[|keys| - 1]))
  }

  /** The matches of each granule's pattern. */
  function GranuleMatches(glob: string -> seq<string>, root: string): string -> seq<string> {
    g => glob(GranulePattern(root, g))
  }

  /** The granule directories: for each granule in order, its sorted matches. */
  function GranuleOrder(glob: string -> seq<string>, root: string, gs: seq<string>): seq<string> {
    Blocks(GranuleMatches(glob, root), gs)
  }

  /** d is one of the matches of granule g's pattern. */
  predicate MatchesGranule(glob: string -> seq<string>, root: string, g: string, d: string) {
    d in glob(GranulePattern(root, g))
  }

  lemma SortMembers(s: seq<string>, d: string)
    ensures d in Sort(s) <==> d in s
  {
    assert d in multiset(Sort(s)) <==> d in multiset(s);
  }

  /** Some key matches d exactly when one of all but the last does or the last one does. */
  lemma MatchesSnoc(matches: string -> seq<string>, keys: seq<string>, d: string)
    requires keys != []
    ensures (exists i :: 0 <= i < |keys| && d in matches(keys[i])) <==>
      (exists i :: 0 <= i < |keys| - 1 && d in matches(keys[i])) || d in matches(keys[|keys| - 1])
  {
  }

  /** A string is in the blocks exactly when it is a match of one of the keys. */
  lemma {:induction false} BlocksMembers(matches: string -> seq<string>, keys: seq<string>, d: string)
    ensures d in Blocks(matches, keys) <==> exists i :: 0 <= i < |keys| && d in matches(keys[i])
  {
    if keys != [] {
      var p := keys[..|keys| - 1];
      var last := matches(keys[|keys| - 1]);
      BlocksMembers(matches, p, d);
      SortMembers(last, d);
      MatchesSnoc(matches, keys, d);
      assert forall i :: 0 <= i < |p| ==> p[i] == keys[i];
      assert Blocks(matches, keys) == Blocks(matches, p) + Sort(last);
    }
  }

  /** A directory is listed exactly when it matches one of the granules' patterns. */
  lemma GranuleOrderMembers(glob: string -> seq<string>, root: string, gs: seq<string>, d: string)
    ensures d in GranuleOrder(glob, root, gs) <==> exists i :: 0 <= i < |gs| && MatchesGranule(glob, root, gs[i], d)
  {
    BlocksMembers(GranuleMatches(glob, root), gs, d);
    assert forall i :: 0 <= i < |gs| ==> GranuleMatches(glob, root)(gs[i]) == glob(GranulePattern(root, gs[i]));
  }

  /** Each granule's block of directories appears sorted, right after the blocks of the
      granules listed before it. */
  lemma GranuleOrderBlock(glob: string -> seq<string>, root: string, gs: seq<string>, g: string)
    ensures GranuleOrder(glob, root, gs + [g]) == GranuleOrder(glob, root, gs) + Sort(glob(GranulePattern(root, g)))
    ensures Sorted(Sort(glob(GranulePattern(root, g))))
  {
    assert (gs + [g])[..|gs|] == gs;
  }

  /** `gdirs += sorted(glob.glob(...))` over the fixed granules. */
  method GranuleDirs(glob: string -> seq<string>, root: string, gs: seq<string>) returns (gdirs: seq<string>)
    ensures gdirs == GranuleOrder(glob, root, gs)
  {
    gdirs := [];
    var i := 0;
    while i < |gs|
      invariant 0 <= i <= |gs|
      invariant gdirs == GranuleOrder(glob, root, gs[..i])
    {
      assert gs[..i + 1][..i] == gs[..i];
      gdirs := gdirs + Sort(glob(GranulePattern(root, gs[i])));
      i := i + 1;
    }
    assert gs[..i] == gs;
  }

  /** An outline of a granule (`get_corners()` or `get_border()`): its lons and lats. */
  datatype Outline = Outline(lons: seq<real>, lats: seq<real>)

  /** `os.path.join(gdir, 'IMG_DATA', '*_B01.jp2')`: the band-1 image of a granule. */
  function B01Pattern(gdir: string): string {
    ImagePath(gdir, "*_B01.jp2")
  }

  /** The corner lists `lons += list(lon); lats += list(lat)` build over the granules;
      the first granule without a band-1 image raises IndexError. */
  function CornerSpec(glob: string -> seq<string>, outline: string -> Outline, gdirs: seq<string>): Result<Outline> {
    if gdirs == [] then Success(Outline([], []))
    else
      var acc :- CornerSpec(glob, outline, gdirs[..|gdirs| - 1]);
      var f :- FirstMatch(glob, B01Pattern(gdirs[|gdirs| - 1]));
      Success(Outline(acc.lons + outline(f).lons, acc.lats + outline(f).lats))
  }

  /** Granule k's directory has a band-1 image. */
  predicate HasB01(glob: string -> seq<string>, gdir: string) {
    glob(B01Pattern(gdir)) != []
  }

  /** The outline of a granule directory's band-1 image. */
  function OutlineOf(glob: string -> seq<string>, outline: string -> Outline, gdir: string): Outline
    requires HasB01(glob, gdir)
  {
    outline(glob(B01Pattern(gdir))[0])
  }

  /** Gathering fails exactly when some granule has no band-1 image. */
  lemma {:induction false} CornersSucceed(glob: string -> seq<string>, outline: string -> Outline, gdirs: seq<string>)
    ensures CornerSpec(glob, outline, gdirs).Success? <==> forall k :: 0 <= k < |gdirs| ==> HasB01(glob, gdirs[k])
  {
    if gdirs != [] {
      var p := gdirs[..|gdirs| - 1];
      CornersSucceed(glob, outline, p);
      assert forall k :: 0 <= k < |p| ==> p[k] == gdirs[k];
      assert CornerSpec(glob, outline, gdirs).Success? <==>
        CornerSpec(glob, outline, p).Success? && HasB01(glob, gdirs[|gdirs| - 1]);
    }
  }

  /** When gathering succeeds, every corner coordinate of every granule is in the
      gathered lists. */
  lemma {:induction false} CornersGathered(glob: string -> seq<string>, outline: string -> Outline, gdirs: seq<string>, k: nat)
    requires k < |gdirs| && CornerSpec(glob, outline, gdirs).Success?
    ensures HasB01(glob, gdirs[k])
    ensures forall x :: x in OutlineOf(glob, outline, gdirs[k]).lons ==> x in CornerSpec(glob, outline, gdirs).value.lons
    ensures forall y :: y in OutlineOf(glob, outline, gdirs[k]).lats ==> y in CornerSpec(glob, outline, gdirs).value.lats
  {
    var p := gdirs[..|gdirs| - 1];
    var acc := CornerSpec(glob, outline, p);
    assert acc.Success? && HasB01(glob, gdirs[|gdirs| - 1]);
    var o := OutlineOf(glob, outline, gdirs[|gdirs| - 1]);
    assert CornerSpec(glob, outline, gdirs).value == Outline(acc.value.lons + o.lons, acc.value.lats + o.lats);
    if k < |p| {
      CornersGathered(glob, outline, p, k);
      assert p[k] == gdirs[k];
    }
  }

  /** The loop gathering the corner coordinates of every granule, in order. */
  method GatherCorners(glob: string -> seq<string>, outline: string -> Outline, gdirs: seq<string>) returns (res: Result<Outline>)
    ensures res == CornerSpec(glob, outline, gdirs)
  {
    var lons: seq<real> := [];
    var lats: seq<real> := [];
    var i := 0;
    while i < |gdirs|
      invariant 0 <= i <= |gdirs|
      invariant CornerSpec(glob, outline, gdirs[..i]) == Success(Outline(lons, lats))
    {
      assert gdirs[..i + 1][..i] == gdirs[..i];
      var f := FirstMatch(glob, B01Pattern(gdirs[i]));
      if f.Failure? {
        CornerFailureSticks(glob, outline, gdirs, i + 1);
        return Failure(f.error);
      }
      var o := outline(f.value);
      lons := lons + o.lons;
      lats := lats + o.lats;
      i := i + 1;
    }
    assert gdirs[..i] == gdirs;
    return Success(Outline(lons, lats));
  }

  lemma {:induction false} CornerFailureSticks(glob: string -> seq<string>, outline: string -> Outline, gdirs: seq<string>, i: nat)
    requires i <= |gdirs| && CornerSpec(glob, outline, gdirs[..i]).Failure?
    ensures CornerSpec(glob, outline, gdirs) == CornerSpec(glob, outline, gdirs[..i])
    decreases |gdirs| - i
  {
    if i < |gdirs| {
      assert gdirs[..i + 1][..i] == gdirs[..i];
      CornerFailureSticks(glob, outline, gdirs, i + 1);
    } else {
      assert gdirs[..i] == gdirs;
    }
  }

  /** The extent handed to `Domain(..., '-lle ...')` after the corner loop: with no granule
      the loop variable `n` is never bound and the call raises NameError. */
  function DerivedExtent(glob: string -> seq<string>, outline: string -> Outline, gdirs: seq<string>): Result<Extent> {
    var o :- CornerSpec(glob, outline, gdirs);
    if gdirs == [] then Failure(NameError) else ExtentOf(o.lons, o.lats)
  }

  /** Every point of the outline lies in the extent. */
  predicate Covers(e: Extent, o: Outline) {
    (forall x :: x in o.lons ==> e.minLon <= x <= e.maxLon) &&
    (forall y :: y in o.lats ==> e.minLat <= y <= e.maxLat)
  }

  /** The derived extent contains every corner of every granule. */
  lemma ExtentCoversCorners(glob: string -> seq<string>, outline: string -> Outline, gdirs: seq<string>, k: nat)
    requires k < |gdirs| && DerivedExtent(glob, outline, gdirs).Success?
    ensures HasB01(glob, gdirs[k])
    ensures Covers(DerivedExtent(glob, outline, gdirs).value, OutlineOf(glob, outline, gdirs[k]))
  {
    CornersGathered(glob, outline, gdirs, k);
  }

  /** With no granule directory the derivation fails with NameError. */
  lemma NoGranuleFails(glob: string -> seq<string>, outline: string -> Outline)
    ensures DerivedExtent(glob, outline, []) == Failure(NameError)
  {
  }

  /** The gathered lists are at least as long as the first granule's outline. */
  lemma {:induction false} FirstOutlineGathered(glob: string -> seq<string>, outline: string -> Outline, gdirs: seq<string>)
    requires gdirs != [] && CornerSpec(glob, outline, gdirs).Success?
    ensures HasB01(glob, gdirs[0])
    ensures |OutlineOf(glob, outline, gdirs[0]).lons| <= |CornerSpec(glob, outline, gdirs).value.lons|
    ensures |OutlineOf(glob, outline, gdirs[0]).lats| <= |CornerSpec(glob, outline, gdirs).value.lats|
  {
    var p := gdirs[..|gdirs| - 1];
    var acc := CornerSpec(glob, outline, p);
    assert acc.Success? && HasB01(glob, gdirs[|gdirs| - 1]);
    var o := OutlineOf(glob, outline, gdirs[|gdirs| - 1]);
    assert CornerSpec(glob, outline, gdirs).value == Outline(acc.value.lons + o.lons, acc.value.lats + o.lats);
    if p != [] {
      FirstOutlineGathered(glob, outline, p);
      assert p[0] == gdirs[0];
    }
  }

  /** With directories that all have a band-1 image, and a first outline that is not
      empty, the derivation succeeds. */
  lemma DerivedExtentSucceeds(glob: string -> seq<string>, outline: string -> Outline, gdirs: seq<string>)
    requires gdirs != [] && forall k :: 0 <= k < |gdirs| ==> HasB01(glob, gdirs[k])
    requires OutlineOf(glob, outline, gdirs[0]).lons != [] && OutlineOf(glob, outline, gdirs[0]).lats != []
    ensures DerivedExtent(glob, outline, gdirs).Success?
  {
    CornersSucceed(glob, outline, gdirs);
    FirstOutlineGathered(glob, outline, gdirs);
  }

  /** What the downscaling code derives from a product before stitching: the granule
      directories in order and the extent of all their corners. */
  datatype Scene = Scene(gdirs: seq<string>, extent: Extent)

  function SceneSpec(glob: string -> seq<string>, outline: string -> Outline, root: string): Result<Scene> {
    var gdirs := GranuleOrder(glob, root, Granules);
    var e :- DerivedExtent(glob, outline, gdirs);
    Success(Scene(gdirs, e))
  }

  /** The granule loop and the corner loop, then the extent. */
  method SceneOf(glob: string -> seq<string>, outline: string -> Outline, root: string) returns (res: Result<Scene>)
    ensures res == SceneSpec(glob, outline, root)
  {
    var gdirs := GranuleDirs(glob, root, Granules);
    var o :- GatherCorners(glob, outline, gdirs);
    if gdirs == [] {
      return Failure(NameError);
    }
    var e :- ExtentOf(o.lons, o.lats);
    return Success(Scene(gdirs, e));
  }

  /** A derived scene lists exactly the directories matching the fixed granules, and its
      extent contains every corner of each of them. */
  lemma SceneProperties(glob: string -> seq<string>, outline: string -> Outline, root: string, d: string)
    requires SceneSpec(glob, outline, root).Success?
    ensures var sc := SceneSpec(glob, outline, root).value;
      d in sc.gdirs <==> exists i :: 0 <= i < |Granules| && MatchesGranule(glob, root, Granules[i], d)
    ensures var sc := SceneSpec(glob, outline, root).value;
      forall k :: 0 <= k < |sc.gdirs| ==> HasB01(glob, sc.gdirs[k]) && Covers(sc.extent, OutlineOf(glob, outline, sc.gdirs[k]))
  {
    GranuleOrderMembers(glob, root, Granules, d);
    var gdirs := GranuleOrder(glob, root, Granules);
    forall k | 0 <= k < |gdirs| ensures HasB01(glob, gdirs[k]) && Covers(DerivedExtent(glob, outline, gdirs).value, OutlineOf(glob, outline, gdirs[k])) {
      ExtentCoversCorners(glob, outline, gdirs, k);
    }
  }
}
