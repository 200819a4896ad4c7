/** The original downscale script: the granule scene, a 60 m domain with an all-zero base
    raster, and bands 1 to 11 stitched by a worker pool into one cube. */
module DownscaleScript {
  import opened Python
  import opened Raster
  import opened Text
  import opened Bands
  import opened Mosaic
  import opened Domain

  /** `range(1, 12)` */
  const BandNumbers: seq<nat> := seq(11, i => i + 1)

  /** `'*_B%02d.jp2' % band` */
  function BandFile(band: nat): string {
    ImagePattern(Pad2(band))
  }

  /** The image file pattern of each band, in band order. */
  function BandFiles(bands: seq<nat>): (files: seq<string>)
    ensures |files| == |bands| && forall i :: 0 <= i < |bands| ==> files[i] == BandFile(bands[i])
  {
    seq(|bands|, i requires 0 <= i < |bands| => BandFile(bands[i]))
  }

  /** `p.map(stich, bands)`: each band's mosaic, in band order; the first failing band is
      the error of the whole map. */
  function StackSpec(glob: string -> seq<string>, reproject: string -> Grid<Px>, gdirs: seq<string>,
                     files: seq<string>, rows: nat, cols: nat): Result<Cube> {
    if files == [] then Success([])
    else
      var cube :- StackSpec(glob, reproject, gdirs, files[..|files| - 1], rows, cols);
      var g :- StitchSpec(glob, reproject, gdirs, files[|files| - 1], rows, cols);
      Success(cube + [g])
  }

  /** The stack succeeds exactly when every band's mosaic does. */
  lemma {:induction false} StackSucceeds(glob: string -> seq<string>, reproject: string -> Grid<Px>, gdirs: seq<string>,
                                         files: seq<string>, rows: nat, cols: nat)
    ensures StackSpec(glob, reproject, gdirs, files, rows, cols).Success? <==>
      forall i :: 0 <= i < |files| ==> StitchSpec(glob, reproject, gdirs, files[i], rows, cols).Success?
  {
    if files != [] {
      var p := files[..|files| - 1];
      StackSucceeds(glob, reproject, gdirs, p, rows, cols);
      assert forall i :: 0 <= i < |p| ==> p[i] == files[i];
    }
  }

  /** A stack has one layer per band, in band order, each the mosaic of that band's image
      file and so on the domain's shape. */
  lemma {:induction false} StackLayers(glob: string -> seq<string>, reproject: string -> Grid<Px>, gdirs: seq<string>,
                                       files: seq<string>, rows: nat, cols: nat)
    requires StackSpec(glob, reproject, gdirs, files, rows, cols).Success?
    ensures var cube := StackSpec(glob, reproject, gdirs, files, rows, cols).value;
      |cube| == |files| && IsCube(cube, rows, cols) &&
      forall i :: 0 <= i < |files| ==> StitchSpec(glob, reproject, gdirs, files[i], rows, cols) == Success(cube[i])
  {
    if files != [] {
      var p := files[..|files| - 1];
      StackLayers(glob, reproject, gdirs, p, rows, cols);
      assert forall i :: 0 <= i < |p| ==> p[i] == files[i];
      var ts := LookupTiles(glob, reproject, gdirs, files[|files| - 1], rows, cols).value;
      assert Shaped(MosaicGrid(ts, rows, cols), rows, cols);
    }
  }

  lemma {:induction false} StackFailureSticks(glob: string -> seq<string>, reproject: string -> Grid<Px>, gdirs: seq<string>,
                                              files: seq<string>, rows: nat, cols: nat, i: nat)
    requires i <= |files| && StackSpec(glob, reproject, gdirs, files[..i], rows, cols).Failure?
    ensures StackSpec(glob, reproject, gdirs, files, rows, cols) == StackSpec(glob, reproject, gdirs, files[..i], rows, cols)
    decreases |files| - i
  {
    if i < |files| {
      assert files[..i + 1][..i] == files[..i];
      StackFailureSticks(glob, reproject, gdirs, files, rows, cols, i + 1);
    } else {
      assert files[..i] == files;
    }
  }

  /** The map, one band after the other. */
  method Stack(glob: string -> seq<string>, reproject: string -> Grid<Px>, gdirs: seq<string>,
               files: seq<string>, rows: nat, cols: nat) returns (res: Result<Cube>)
    ensures res == StackSpec(glob, reproject, gdirs, files, rows, cols)
  {
    var cube: Cube := [];
    var i := 0;
    while i < |files|
      invariant 0 <= i <= |files|
      invariant StackSpec(glob, reproject, gdirs, files[..i], rows, cols) == Success(cube)
    {
      assert files[..i + 1][..i] == files[..i];
      var g := StitchBand(glob, reproject, gdirs, files[i], rows, cols);
      if g.Failure? {
        StackFailureSticks(glob, reproject, gdirs, files, rows, cols, i + 1);
        return Failure(g.error);
      }
      cube := cube + [g.value];
      i := i + 1;
    }
    assert files[..i] == files;
    return Success(cube);
  }

  /** `np.zeros(d.shape(), np.int8)` */
  function ZeroRaster(rows: nat, cols: nat): (z: Grid<int>)
    ensures Shaped(z, rows, cols) && forall r, c :: 0 <= r < rows && 0 <= c < cols ==> z[r][c] == 0
  {
    seq(rows, r => seq(cols, c => 0))
  }

  /** What the script saves: the domain with its base raster, and the band cube. */
  datatype Output = Output(domain: DomainDef, base: Grid<int>, cube: Cube)

  function ScriptSpec(glob: string -> seq<string>, outline: string -> Outline, reproject: string -> Grid<Px>,
                      shapeOf: DomainDef -> (nat, nat), root: string): Result<Output> {
    var sc :- SceneSpec(glob, outline, root);
    var d := ByResolution(sc.extent, 60);
    var (rows, cols) := shapeOf(d);
    var cube :- StackSpec(glob, reproject, sc.gdirs, BandFiles(BandNumbers), rows, cols);
    Success(Output(d, ZeroRaster(rows, cols), cube))
  }

  /** A successful run gives the 60 m domain over the scene, an all-zero base raster of
      its shape, and an eleven-layer cube on that shape whose layer i is the mosaic of
      table band i + 1 over the scene's granules. */
  lemma ScriptLayers(glob: string -> seq<string>, outline: string -> Outline, reproject: string -> Grid<Px>,
                     shapeOf: DomainDef -> (nat, nat), root: string)
    requires ScriptSpec(glob, outline, reproject, shapeOf, root).Success?
    ensures SceneSpec(glob, outline, root).Success?
    ensures var sc := SceneSpec(glob, outline, root).value;
      var out := ScriptSpec(glob, outline, reproject, shapeOf, root).value;
      var (rows, cols) := shapeOf(ByResolution(sc.extent, 60));
      out.domain == ByResolution(sc.extent, 60) && Shaped(out.base, rows, cols) &&
      |out.cube| == 11 && IsCube(out.cube, rows, cols) &&
      forall i :: 0 <= i < 11 ==>
        StitchSpec(glob, reproject, sc.gdirs, ImagePattern(BandTable[i].code), rows, cols) == Success(out.cube[i])
  {
    var sc := SceneSpec(glob, outline, root).value;
    var d := ByResolution(sc.extent, 60);
    var (rows, cols) := shapeOf(d);
    StackLayers(glob, reproject, sc.gdirs, BandFiles(BandNumbers), rows, cols);
    forall i | 0 <= i < 11 ensures BandFile(BandNumbers[i]) == ImagePattern(BandTable[i].code) {
      PaddedPatternMatchesCodes(i + 1);
    }
  }

  /** The script's steps: the granule and corner loops, the base raster, the map. */
  method Script(glob: string -> seq<string>, outline: string -> Outline, reproject: string -> Grid<Px>,
                shapeOf: DomainDef -> (nat, nat), root: string) returns (res: Result<Output>)
    ensures res == ScriptSpec(glob, outline, reproject, shapeOf, root)
  {
    var sc :- SceneOf(glob, outline, root);
    var d := ByResolution(sc.extent, 60);
    var (rows, cols) := shapeOf(d);
    var base := ZeroRaster(rows, cols);
    var cube :- Stack(glob, reproject, sc.gdirs, BandFiles(BandNumbers), rows, cols);
    return Success(Output(d, base, cube));
  }
}
