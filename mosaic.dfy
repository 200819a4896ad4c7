/** The Mosaicker: tiles reprojected onto one domain are composited onto an all-NaN grid
    in a fixed granule order, each tile overwriting the cells where it is valid (> 0). */
module Mosaic {
  import opened Python
  import opened Raster
  import opened Text

  /** One tile's effect on one cell: `band_arr[bdata > 0] = bdata[bdata > 0]`. */
  function Overlay(prev: Px, tile: Px): Px {
    if Positive(tile) then tile else prev
  }

  predicate TilesShaped(ts: seq<Grid<Px>>, rows: nat, cols: nat) {
    forall k :: 0 <= k < |ts| ==> Shaped(ts[k], rows, cols)
  }

  predicate HasCell(ts: seq<Grid<Px>>, r: nat, c: nat) {
    forall k :: 0 <= k < |ts| ==> r < |ts[k]| && c < |ts[k][r]|
  }

  /** Cell (r, c) after compositing the tiles ts, in order, onto a NaN-filled grid. */
  function MosaicAt(ts: seq<Grid<Px>>, r: nat, c: nat): Px
    requires HasCell(ts, r, c)
  {
    if ts == [] then NaN else Overlay(MosaicAt(ts[..|ts| - 1], r, c), ts[|ts| - 1][r][c])
  }

  /** The whole composite of ts on a rows x cols domain. */
  function MosaicGrid(ts: seq<Grid<Px>>, rows: nat, cols: nat): (g: Grid<Px>)
    requires TilesShaped(ts, rows, cols)
    ensures Shaped(g, rows, cols)
  {
    seq(rows, r requires 0 <= r < rows => seq(cols, c requires 0 <= c < cols => MosaicAt(ts, r, c)))
  }

  /** A mosaic cell stays NaN exactly when no tile is valid there. */
  lemma {:induction false} MosaicNaNIff(ts: seq<Grid<Px>>, r: nat, c: nat)
    requires HasCell(ts, r, c)
    ensures MosaicAt(ts, r, c) == NaN <==> forall k :: 0 <= k < |ts| ==> !Positive(ts[k][r][c])
  {
    if ts != [] {
      var p := ts[..|ts| - 1];
      MosaicNaNIff(p, r, c);
      assert forall k :: 0 <= k < |p| ==> p[k] == ts[k];
    }
  }

  /** Last valid wins: the mosaic holds the value of the last tile that is valid at the
      cell, whatever the earlier tiles hold there. */
  lemma {:induction false} MosaicLastValidWins(ts: seq<Grid<Px>>, r: nat, c: nat, k: nat)
    requires HasCell(ts, r, c) && k < |ts| && Positive(ts[k][r][c])
    requires forall j :: k < j < |ts| ==> !Positive(ts[j][r][c])
    ensures MosaicAt(ts, r, c) == ts[k][r][c]
  {
    var p := ts[..|ts| - 1];
    if k < |ts| - 1 {
      assert forall j :: 0 <= j < |p| ==> p[j] == ts[j];
      MosaicLastValidWins(p, r, c, k);
    }
  }

  /** Every mosaic cell is NaN or valid data (> 0). */
  lemma {:induction false} MosaicValid(ts: seq<Grid<Px>>, r: nat, c: nat)
    requires HasCell(ts, r, c)
    ensures MosaicAt(ts, r, c) == NaN || Positive(MosaicAt(ts, r, c))
  {
    if ts != [] {
      MosaicValid(ts[..|ts| - 1], r, c);
    }
  }

  /** A single tile composited onto an empty grid gives the tile where it is valid and
      NaN elsewhere. */
  lemma MosaicSingle(t: Grid<Px>, r: nat, c: nat)
    requires r < |t| && c < |t[r]|
    ensures MosaicAt([t], r, c) == if Positive(t[r][c]) then t[r][c] else NaN
  {
    assert [t][..0] == [];
  }

  /** Composite tiles in order onto a freshly allocated all-NaN grid (`stich`'s inner loop). */
  method Composite(ts: seq<Grid<Px>>, rows: nat, cols: nat) returns (a: array2<Px>)
    requires TilesShaped(ts, rows, cols)
    ensures fresh(a) && a.Length0 == rows && a.Length1 == cols
    ensures GridOf(a) == MosaicGrid(ts, rows, cols)
  {
    a := new Px[rows, cols]((r, c) => NaN);
    var i := 0;
    while i < |ts|
      invariant 0 <= i <= |ts|
      invariant forall r, c :: 0 <= r < rows && 0 <= c < cols ==> a[r, c] == MosaicAt(ts[..i], r, c)
    {
      var t := ts[i];
      forall r, c | 0 <= r < rows && 0 <= c < cols && Positive(t[r][c]) {
        a[r, c] := t[r][c];
      }
      assert ts[..i + 1][..i] == ts[..i];
      i := i + 1;
    }
    assert ts[..i] == ts;
    GridsEqual(GridOf(a), MosaicGrid(ts, rows, cols), rows, cols);
  }

  /** `glob.glob(pattern)[0]`: the first match; IndexError when nothing matches. */
  function FirstMatch(glob: string -> seq<string>, pattern: string): (r: Result<string>)
    ensures r.Success? <==> glob(pattern) != []
    ensures r.Success? ==> r.value == glob(pattern)[0]
  {
    if glob(pattern) == [] then Failure(IndexError) else Success(glob(pattern)[0])
  }

  /** `os.path.join(gdir, 'IMG_DATA', file)` */
  function ImagePath(gdir: string, file: string): string {
    PathJoin(PathJoin(gdir, "IMG_DATA"), file)
  }

  /** The reprojected tile of every granule directory, in order, for one file pattern: the
      first failure in granule order is the result, and a tile whose shape is not the
      domain's fails the masked assignment with IndexError. */
  function LookupTiles(glob: string -> seq<string>, reproject: string -> Grid<Px>,
                       gdirs: seq<string>, file: string, rows: nat, cols: nat): (r: Result<seq<Grid<Px>>>)
    ensures r.Success? ==> |r.value| == |gdirs| && TilesShaped(r.value, rows, cols)
    ensures r.Success? ==> forall k :: 0 <= k < |gdirs| ==>
      glob(ImagePath(gdirs[k], file)) != [] && r.value[k] == reproject(glob(ImagePath(gdirs[k], file))[0])
    ensures r.Failure? ==> r.error == IndexError
  {
    if gdirs == [] then Success([])
    else
      var ts :- LookupTiles(glob, reproject, gdirs[..|gdirs| - 1], file, rows, cols);
      var f :- FirstMatch(glob, ImagePath(gdirs[|gdirs| - 1], file));
      var t := reproject(f);
      if !Shaped(t, rows, cols) then Failure(IndexError) else Success(ts + [t])
  }

  /** The lookup succeeds when every directory has a match whose reprojection lies on the
      domain's shape. */
  lemma {:induction false} LookupTilesSucceeds(glob: string -> seq<string>, reproject: string -> Grid<Px>,
                                               gdirs: seq<string>, file: string, rows: nat, cols: nat)
    requires forall k :: 0 <= k < |gdirs| ==>
      glob(ImagePath(gdirs[k], file)) != [] && Shaped(reproject(glob(ImagePath(gdirs[k], file))[0]), rows, cols)
    ensures LookupTiles(glob, reproject, gdirs, file, rows, cols).Success?
  {
    if gdirs != [] {
      var p := gdirs[..|gdirs| - 1];
      assert forall k :: 0 <= k < |p| ==> p[k] == gdirs[k];
      LookupTilesSucceeds(glob, reproject, p, file, rows, cols);
    }
  }

  /** The band mosaic `stich` builds for one file pattern. */
  function StitchSpec(glob: string -> seq<string>, reproject: string -> Grid<Px>,
                      gdirs: seq<string>, file: string, rows: nat, cols: nat): Result<Grid<Px>>
  {
    var ts :- LookupTiles(glob, reproject, gdirs, file, rows, cols);
    Success(MosaicGrid(ts, rows, cols))
  }

  /** One band mosaic: look up and reproject each granule's file, composite in order. */
  method StitchBand(glob: string -> seq<string>, reproject: string -> Grid<Px>,
                    gdirs: seq<string>, file: string, rows: nat, cols: nat) returns (res: Result<Grid<Px>>)
    ensures res == StitchSpec(glob, reproject, gdirs, file, rows, cols)
  {
    var ts :- LookupTiles(glob, reproject, gdirs, file, rows, cols);
    var a := Composite(ts, rows, cols);
    return Success(GridOf(a));
  }

  /** What one band of a stitched product is looked up by and named. */
  datatype BandRequest = BandRequest(file: string, name: string)

  /** The bands `stich` adds to its product, in request order; the first failing band
      aborts the whole product. */
  function StitchAllSpec(glob: string -> seq<string>, reproject: string -> Grid<Px>,
                         gdirs: seq<string>, reqs: seq<BandRequest>, rows: nat, cols: nat): Result<seq<Band>>
  {
    if reqs == [] then Success([])
    else
      var bs :- StitchAllSpec(glob, reproject, gdirs, reqs[..|reqs| - 1], rows, cols);
      var g :- StitchSpec(glob, reproject, gdirs, reqs[|reqs| - 1].file, rows, cols);
      Success(bs + [Band(reqs[|reqs| - 1].name, g)])
  }

  /** A stitched product fails exactly when some requested band fails. */
  lemma {:induction false} StitchAllFailsIff(glob: string -> seq<string>, reproject: string -> Grid<Px>,
                                             gdirs: seq<string>, reqs: seq<BandRequest>, rows: nat, cols: nat)
    ensures StitchAllSpec(glob, reproject, gdirs, reqs, rows, cols).Success? <==>
      forall i :: 0 <= i < |reqs| ==> StitchSpec(glob, reproject, gdirs, reqs[i].file, rows, cols).Success?
  {
    if reqs != [] {
      var p := reqs[..|reqs| - 1];
      StitchAllFailsIff(glob, reproject, gdirs, p, rows, cols);
      assert forall i :: 0 <= i < |p| ==> p[i] == reqs[i];
    }
  }

  /** A stitched product has exactly one band per request, in request order, each named as
      requested and holding that request's mosaic. */
  lemma {:induction false} StitchAllBands(glob: string -> seq<string>, reproject: string -> Grid<Px>,
                                          gdirs: seq<string>, reqs: seq<BandRequest>, rows: nat, cols: nat)
    requires StitchAllSpec(glob, reproject, gdirs, reqs, rows, cols).Success?
    ensures var bs := StitchAllSpec(glob, reproject, gdirs, reqs, rows, cols).value;
      |bs| == |reqs| && forall i :: 0 <= i < |reqs| ==>
        StitchSpec(glob, reproject, gdirs, reqs[i].file, rows, cols).Success? &&
        bs[i] == Band(reqs[i].name, StitchSpec(glob, reproject, gdirs, reqs[i].file, rows, cols).value)
  {
    if reqs != [] {
      var p := reqs[..|reqs| - 1];
      StitchAllBands(glob, reproject, gdirs, p, rows, cols);
      assert forall i :: 0 <= i < |p| ==> p[i] == reqs[i];
    }
  }

  /** Once a prefix of the requests fails, the whole product fails with that error. */
  lemma {:induction false} FailureSticks(glob: string -> seq<string>, reproject: string -> Grid<Px>,
                                         gdirs: seq<string>, reqs: seq<BandRequest>, i: nat, rows: nat, cols: nat)
    requires i <= |reqs|
    requires StitchAllSpec(glob, reproject, gdirs, reqs[..i], rows, cols).Failure?
    ensures StitchAllSpec(glob, reproject, gdirs, reqs, rows, cols) == StitchAllSpec(glob, reproject, gdirs, reqs[..i], rows, cols)
    decreases |reqs| - i
  {
    if i < |reqs| {
      assert reqs[..i + 1][..i] == reqs[..i];
      FailureSticks(glob, reproject, gdirs, reqs, i + 1, rows, cols);
    } else {
      assert reqs[..i] == reqs;
    }
  }

  /** `stich` over a list of band requests: one band mosaic per request, appended in order. */
  method StitchBands(glob: string -> seq<string>, reproject: string -> Grid<Px>,
                     gdirs: seq<string>, reqs: seq<BandRequest>, rows: nat, cols: nat) returns (res: Result<seq<Band>>)
    ensures res == StitchAllSpec(glob, reproject, gdirs, reqs, rows, cols)
  {
    var bands: seq<Band> := [];
    var i := 0;
    while i < |reqs|
      invariant 0 <= i <= |reqs|
      invariant StitchAllSpec(glob, reproject, gdirs, reqs[..i], rows, cols) == Success(bands)
    {
      assert reqs[..i + 1][..i] == reqs[..i];
      var g := StitchBand(glob, reproject, gdirs, reqs[i].file, rows, cols);
      if g.Failure? {
        FailureSticks(glob, reproject, gdirs, reqs, i + 1, rows, cols);
        return Failure(g.error);
      }
      bands := bands + [Band(reqs[i].name, g.value)];
      i := i + 1;
    }
    assert reqs[..i] == reqs;
    return Success(bands);
  }

  /** `s2array[wm == 2] = 0`: cells the watermask marks 2 become 0, no other cell changes. */
  method ZeroWhereAmbiguous(a: array2<Px>, wm: Grid<int>)
    requires Shaped(wm, a.Length0, a.Length1)
    modifies a
    ensures forall r, c :: 0 <= r < a.Length0 && 0 <= c < a.Length1 ==>
      a[r, c] == if wm[r][c] == 2 then Val(0.0) else old(a[r, c])
  {
    forall r, c | 0 <= r < a.Length0 && 0 <= c < a.Length1 && wm[r][c] == 2 {
      a[r, c] := Val(0.0);
    }
  }
}
