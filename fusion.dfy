/** The fusion setup and the band-pair loop shared by both fusion classes: the
    low-resolution file gives the negative-pixel mask and the pixel index, the
    high-resolution file gives the cube that runs through the stages, and `fusion` turns
    each MODIS band into a (low-resolution, fused) pair. */
module FusionCore {
  import opened Python
  import opened Raster
  import opened Bands
  import opened Hires

  /** The class constants: cloud threshold, noise floor and crop size. */
  datatype Constants = Constants(bMax: real, bMin: real, cutsize: nat)

  /** The keyword options of `__init__`. */
  datatype Options = Options(smooth: bool, skip: bool, log: bool, mask: bool, cut: bool, negativePx: bool)

  function StagesOf(o: Options): Stages {
    Stages(o.mask, o.smooth, o.skip, o.log, o.cut)
  }

  /** The fields `__init__` leaves on the object. */
  datatype FusionState = FusionState(lores: seq<Band>, negpix: Option<Grid<bool>>, index: Grid<Px>, cut: bool, hires: Cube, cutsize: nat)

  /** `self.loresfile[2] < 0`, taken only when negative pixels are tracked. */
  function NegPix(lores: seq<Band>, negativePx: bool): (r: Result<Option<Grid<bool>>>)
    ensures r.Success? <==> !negativePx || |lores| >= 2
    ensures r.Success? ==> (r.value.Some? <==> negativePx)
    ensures r.Success? && negativePx ==> r.value.value == BelowMask(lores[1].grid, 0.0)
  {
    if negativePx then
      var b2 :- BandNumber(lores, 2);
      Success(Some(BelowMask(b2, 0.0)))
    else Success(None)
  }

  /** What `__init__` computes, given the reprojected low-resolution file, the
      reprojected high-resolution file (None when no file is given: opening it raises
      TypeError), the filtered watermask and the optional depth mask. */
  function InitSpec(lores: seq<Band>, hiresFile: Option<seq<Band>>, opt: Options, k: Constants,
                    wmf: Grid<real>, depth: Option<Grid<bool>>, kernel: (Cube, nat, nat, nat) -> Px,
                    logf: real -> Px, rows: nat, cols: nat): Result<FusionState>
  {
    var negpix :- NegPix(lores, opt.negativePx);
    var index :- BandNamed(lores, "index");
    var file :- if hiresFile.None? then Failure(TypeError) else Success(hiresFile.value);
    var cube :- LookupBands(file, RrsNames(Sentinel2));
    var hires := Staged(cube, StagesOf(opt), Inputs(wmf, depth, negpix, kernel, logf), k.bMax, k.bMin, k.cutsize, rows, cols);
    if !opt.cut then Success(FusionState(lores, negpix, index, false, hires, k.cutsize))
    else if negpix.None? then Failure(AttributeError)
    else Success(FusionState(lores, Some(Window(negpix.value, k.cutsize)), Window(index, k.cutsize), true, hires, k.cutsize))
  }

  /** The shape agreement the fields keep: cube bands, negative-pixel mask and index all
      share one shape, the domain's or (after the crop) its top-left window. */
  predicate Valid(s: FusionState, rows: nat, cols: nat) {
    var h := if s.cut then Min(s.cutsize, rows) else rows;
    var w := if s.cut then Min(s.cutsize, cols) else cols;
    OnDomain(s.lores, rows, cols) && IsCube(s.hires, h, w) && Shaped(s.index, h, w) &&
    (s.negpix.Some? ==> Shaped(s.negpix.value, h, w))
  }

  /** With the crop on and negative pixels tracked, a successful setup keeps the
      low-resolution file, crops the negative pixels of band 2 and the 'index' band, and
      holds the staged reflectance cube of the high-resolution file. */
  lemma InitFields(lores: seq<Band>, hiresFile: Option<seq<Band>>, opt: Options, k: Constants,
                   wmf: Grid<real>, depth: Option<Grid<bool>>, kernel: (Cube, nat, nat, nat) -> Px,
                   logf: real -> Px, rows: nat, cols: nat)
    requires opt.cut && opt.negativePx
    requires InitSpec(lores, hiresFile, opt, k, wmf, depth, kernel, logf, rows, cols).Success?
    ensures hiresFile.Some? && |lores| >= 2 && BandNamed(lores, "index").Success?
    ensures LookupBands(hiresFile.value, RrsNames(Sentinel2)).Success?
    ensures |LookupBands(hiresFile.value, RrsNames(Sentinel2)).value| == 12
    ensures var s := InitSpec(lores, hiresFile, opt, k, wmf, depth, kernel, logf, rows, cols).value;
      var negpix := BelowMask(lores[1].grid, 0.0);
      s.lores == lores && s.cut && s.cutsize == k.cutsize && s.negpix == Some(Window(negpix, k.cutsize)) &&
      s.index == Window(BandNamed(lores, "index").value, k.cutsize) &&
      s.hires == Staged(LookupBands(hiresFile.value, RrsNames(Sentinel2)).value, StagesOf(opt),
                        Inputs(wmf, depth, Some(negpix), kernel, logf), k.bMax, k.bMin, k.cutsize, rows, cols)
  {
    var np := NegPix(lores, opt.negativePx);
    assert np == Success(Some(BelowMask(lores[1].grid, 0.0)));
    var index := BandNamed(lores, "index").value;
    assert hiresFile.Some?;
    var cube := LookupBands(hiresFile.value, RrsNames(Sentinel2)).value;
    assert |cube| == 12;
    var hires := Staged(cube, StagesOf(opt), Inputs(wmf, depth, np.value, kernel, logf), k.bMax, k.bMin, k.cutsize, rows, cols);
    assert InitSpec(lores, hiresFile, opt, k, wmf, depth, kernel, logf, rows, cols) ==
      Success(FusionState(lores, Some(Window(np.value.value, k.cutsize)), Window(index, k.cutsize), true, hires, k.cutsize));
  }

  /** A successful setup keeps cube, mask and index on one window. */
  lemma InitValid(lores: seq<Band>, hiresFile: Option<seq<Band>>, opt: Options, k: Constants,
                  wmf: Grid<real>, depth: Option<Grid<bool>>, kernel: (Cube, nat, nat, nat) -> Px,
                  logf: real -> Px, rows: nat, cols: nat)
    requires OnDomain(lores, rows, cols) && Shaped(wmf, rows, cols)
    requires hiresFile.Some? ==> OnDomain(hiresFile.value, rows, cols)
    requires depth.Some? ==> Shaped(depth.value, rows, cols)
    requires InitSpec(lores, hiresFile, opt, k, wmf, depth, kernel, logf, rows, cols).Success?
    ensures Valid(InitSpec(lores, hiresFile, opt, k, wmf, depth, kernel, logf, rows, cols).value, rows, cols)
    ensures InitSpec(lores, hiresFile, opt, k, wmf, depth, kernel, logf, rows, cols).value.negpix.Some? <==> opt.negativePx
  {
    var negpix := NegPix(lores, opt.negativePx).value;
    var index := BandNamed(lores, "index").value;
    var cube := LookupBands(hiresFile.value, RrsNames(Sentinel2)).value;
    ShapedLookup(hiresFile.value, RrsNames(Sentinel2), rows, cols);
    ShapedNamed(lores, "index", rows, cols);
    StagedShape(cube, StagesOf(opt), Inputs(wmf, depth, negpix, kernel, logf), k.bMax, k.bMin, k.cutsize, rows, cols);
    if opt.cut {
      WindowAgrees(index, rows, cols, k.cutsize);
      WindowAgrees(negpix.value, rows, cols, k.cutsize);
    }
  }

  lemma ShapedNamed(bs: seq<Band>, name: string, rows: nat, cols: nat)
    requires OnDomain(bs, rows, cols) && BandNamed(bs, name).Success?
    ensures Shaped(BandNamed(bs, name).value, rows, cols)
  {
    BandNamedFirst(bs, name);
    var i :| FirstWithName(bs, name, i) && BandNamed(bs, name).value == bs[i].grid;
  }

  lemma ShapedLookup(bs: seq<Band>, names: seq<string>, rows: nat, cols: nat)
    requires OnDomain(bs, rows, cols) && LookupBands(bs, names).Success?
    ensures IsCube(LookupBands(bs, names).value, rows, cols)
  {
    forall i | 0 <= i < |names| ensures Shaped(LookupBands(bs, names).value[i], rows, cols) {
      ShapedNamed(bs, names[i], rows, cols);
    }
  }

  /** The lores band `fusion` uses for one name: looked up, cropped like the cube when
      `cut`, and nulled at the negative-pixel cells (AttributeError when they were never
      computed). */
  function LoresBand(s: FusionState, name: string): Result<Grid<Px>> {
    var g :- BandNamed(s.lores, name);
    var w := if s.cut then Window(g, s.cutsize) else g;
    if s.negpix.None? then Failure(AttributeError) else Success(NullWhere(w, s.negpix.value))
  }

  /** In a valid state the lores band has the cube's shape, is NaN at every
      negative-pixel cell and equals the looked-up band everywhere else. */
  lemma LoresBandCells(s: FusionState, name: string, rows: nat, cols: nat)
    requires Valid(s, rows, cols) && LoresBand(s, name).Success?
    ensures var h := if s.cut then Min(s.cutsize, rows) else rows;
      var w := if s.cut then Min(s.cutsize, cols) else cols;
      var g := LoresBand(s, name).value;
      Shaped(g, h, w) && forall r, c :: 0 <= r < h && 0 <= c < w ==>
        g[r][c] == if s.negpix.value[r][c] then NaN else BandNamed(s.lores, name).value[r][c]
  {
    var g := BandNamed(s.lores, name).value;
    ShapedNamed(s.lores, name, rows, cols);
    if s.cut {
      WindowAgrees(g, rows, cols, s.cutsize);
    }
  }

  /** The two products of `fusion`: the nulled lores bands and the fused hires bands. */
  datatype Products = Products(lores: seq<Band>, fused: seq<Band>)

  /** The loop over band names for a given way of building each lores band: each name
      adds its lores band, then its fused band; the first name without a lores band
      stops the loop with that error. */
  function PairsOver(band: string -> Result<Grid<Px>>, hires: Cube, index: Grid<Px>, names: seq<string>,
                     fuse: (Cube, Grid<Px>, string, Grid<Px>) -> Grid<Px>): Result<Products> {
    if names == [] then Success(Products([], []))
    else
      var acc :- PairsOver(band, hires, index, names[..|names| - 1], fuse);
      var name := names[|names| - 1];
      var lo :- band(name);
      Success(Products(acc.lores + [Band(name, lo)], acc.fused + [Band(name, fuse(hires, lo, name, index))]))
  }

  /** The lores band of each name in state s. */
  function LoresOf(s: FusionState): string -> Result<Grid<Px>> {
    name => LoresBand(s, name)
  }

  /** The loop over band names of `fusion`. */
  function PairsSpec(s: FusionState, names: seq<string>, fuse: (Cube, Grid<Px>, string, Grid<Px>) -> Grid<Px>): Result<Products> {
    PairsOver(LoresOf(s), s.hires, s.index, names, fuse)
  }

  /** `fusion(m_wavelengths)`: one pair per wavelength of the chosen MODIS set, in set
      order; an unknown set name raises KeyError. */
  function FusionSpec(s: FusionState, sets: map<string, seq<nat>>, key: string,
                      fuse: (Cube, Grid<Px>, string, Grid<Px>) -> Grid<Px>): Result<Products> {
    var ws :- BandSet(sets, key);
    PairsSpec(s, RrsNames(ws), fuse)
  }

  /** The loop succeeds exactly when every name has a lores band. */
  lemma {:induction false} PairsOverSucceed(band: string -> Result<Grid<Px>>, hires: Cube, index: Grid<Px>, names: seq<string>,
                                            fuse: (Cube, Grid<Px>, string, Grid<Px>) -> Grid<Px>)
    ensures PairsOver(band, hires, index, names, fuse).Success? <==> forall i :: 0 <= i < |names| ==> band(names[i]).Success?
  {
    if names != [] {
      var q := names[..|names| - 1];
      var last := names[|names| - 1];
      PairsOverSucceed(band, hires, index, q, fuse);
      assert PairsOver(band, hires, index, names, fuse).Success? <==>
        PairsOver(band, hires, index, q, fuse).Success? && band(last).Success?;
      if forall i :: 0 <= i < |names| ==> band(names[i]).Success? {
        forall i | 0 <= i < |q| ensures band(q[i]).Success? {
          assert q[i] == names[i];
        }
      }
      if (forall i :: 0 <= i < |q| ==> band(q[i]).Success?) && band(last).Success? {
        forall i | 0 <= i < |names| ensures band(names[i]).Success? {
          if i < |q| {
            assert q[i] == names[i];
          }
        }
      }
    }
  }

  /** `fusion` succeeds exactly when every lores band can be built. */
  lemma PairsSucceed(s: FusionState, names: seq<string>, fuse: (Cube, Grid<Px>, string, Grid<Px>) -> Grid<Px>)
    ensures PairsSpec(s, names, fuse).Success? <==> forall i :: 0 <= i < |names| ==> LoresBand(s, names[i]).Success?
  {
    PairsOverSucceed(LoresOf(s), s.hires, s.index, names, fuse);
    assert forall i :: 0 <= i < |names| ==> LoresOf(s)(names[i]) == LoresBand(s, names[i]);
  }

  /** When the loop succeeds both products have one band per name, in name order: the
      name's lores band, and `fuse` of the cube with it. */
  lemma {:induction false} PairsOverAligned(band: string -> Result<Grid<Px>>, hires: Cube, index: Grid<Px>, names: seq<string>,
                                            fuse: (Cube, Grid<Px>, string, Grid<Px>) -> Grid<Px>)
    requires PairsOver(band, hires, index, names, fuse).Success?
    ensures var p := PairsOver(band, hires, index, names, fuse).value;
      |p.lores| == |names| && |p.fused| == |names| &&
      forall i :: 0 <= i < |names| ==>
        band(names[i]).Success? &&
        p.lores[i] == Band(names[i], band(names[i]).value) &&
        p.fused[i] == Band(names[i], fuse(hires, p.lores[i].grid, names[i], index))
  {
    if names != [] {
      var q := names[..|names| - 1];
      var acc := PairsOver(band, hires, index, q, fuse);
      assert acc.Success?;
      PairsOverAligned(band, hires, index, q, fuse);
      var name := names[|names| - 1];
      var lo := band(name);
      assert lo.Success?;
      var p := Products(acc.value.lores + [Band(name, lo.value)], acc.value.fused + [Band(name, fuse(hires, lo.value, name, index))]);
      assert PairsOver(band, hires, index, names, fuse).value == p;
      forall i | 0 <= i < |names|
        ensures band(names[i]).Success?
        ensures p.lores[i] == Band(names[i], band(names[i]).value)
        ensures p.fused[i] == Band(names[i], fuse(hires, p.lores[i].grid, names[i], index))
      {
        if i < |q| {
          assert q[i] == names[i] && p.lores[i] == acc.value.lores[i] && p.fused[i] == acc.value.fused[i];
        }
      }
    }
  }

  /** When `fusion` succeeds both products have one band per name, in name order, the
      i-th fused band being `fuse` of the cube and the i-th lores band. */
  lemma PairsAligned(s: FusionState, names: seq<string>, fuse: (Cube, Grid<Px>, string, Grid<Px>) -> Grid<Px>)
    requires PairsSpec(s, names, fuse).Success?
    ensures var p := PairsSpec(s, names, fuse).value;
      |p.lores| == |names| && |p.fused| == |names| &&
      forall i :: 0 <= i < |names| ==>
        LoresBand(s, names[i]).Success? &&
        p.lores[i] == Band(names[i], LoresBand(s, names[i]).value) &&
        p.fused[i] == Band(names[i], fuse(s.hires, p.lores[i].grid, names[i], s.index))
  {
    PairsOverAligned(LoresOf(s), s.hires, s.index, names, fuse);
    assert forall i :: 0 <= i < |names| ==> LoresOf(s)(names[i]) == LoresBand(s, names[i]);
  }

  /** `fusion(key)` fails with KeyError for a set it does not know; otherwise both
      products carry one band per wavelength of the set, in set order, named `Rrs_<w>`. */
  lemma FusionNames(s: FusionState, sets: map<string, seq<nat>>, key: string, fuse: (Cube, Grid<Px>, string, Grid<Px>) -> Grid<Px>)
    ensures key !in sets ==> FusionSpec(s, sets, key, fuse) == Failure(KeyError)
    ensures FusionSpec(s, sets, key, fuse).Success? ==> key in sets
    ensures FusionSpec(s, sets, key, fuse).Success? ==>
      var p := FusionSpec(s, sets, key, fuse).value;
      key in sets && |p.lores| == |sets[key]| && |p.fused| == |sets[key]| &&
      forall i :: 0 <= i < |sets[key]| ==> p.lores[i].name == RrsName(sets[key][i]) && p.fused[i].name == RrsName(sets[key][i])
  {
    if key in sets && FusionSpec(s, sets, key, fuse).Success? {
      PairsAligned(s, RrsNames(sets[key]), fuse);
    }
  }

  /** Once a prefix of the names fails, the loop fails with that error. */
  lemma {:induction false} PairsFailureSticks(band: string -> Result<Grid<Px>>, hires: Cube, index: Grid<Px>, names: seq<string>,
                                              fuse: (Cube, Grid<Px>, string, Grid<Px>) -> Grid<Px>, i: nat)
    requires i <= |names| && PairsOver(band, hires, index, names[..i], fuse).Failure?
    ensures PairsOver(band, hires, index, names, fuse) == PairsOver(band, hires, index, names[..i], fuse)
    decreases |names| - i
  {
    if i < |names| {
      assert names[..i + 1][..i] == names[..i];
      PairsFailureSticks(band, hires, index, names, fuse, i + 1);
    } else {
      assert names[..i] == names;
    }
  }

  /** The fusion object: its fields are set by `Create` and read by `FuseBands`. */
  class Fusion {
    const lores: seq<Band>
    var negpix: Option<Grid<bool>>
    var index: Grid<Px>
    const cut: bool
    var hires: Cube
    const cutsize: nat

    function State(): FusionState
      reads this
    {
      FusionState(lores, negpix, index, cut, hires, cutsize)
    }

    constructor (lores: seq<Band>, negpix: Option<Grid<bool>>, index: Grid<Px>, cut: bool, hires: Cube, cutsize: nat)
      ensures State() == FusionState(lores, negpix, index, cut, hires, cutsize)
    {
      this.lores := lores;
      this.negpix := negpix;
      this.index := index;
      this.cut := cut;
      this.hires := hires;
      this.cutsize := cutsize;
    }

    /** `__init__`: the high-resolution bands go into a 3-D array that the stages update;
        the crop then replaces the cube, the mask and the index by their windows. */
    static method Create(lores: seq<Band>, hiresFile: Option<seq<Band>>, opt: Options, k: Constants,
                         wmf: Grid<real>, depth: Option<Grid<bool>>, kernel: (Cube, nat, nat, nat) -> Px,
                         logf: real -> Px, rows: nat, cols: nat) returns (res: Result<Fusion>)
      requires OnDomain(lores, rows, cols) && Shaped(wmf, rows, cols)
      requires hiresFile.Some? ==> OnDomain(hiresFile.value, rows, cols)
      requires depth.Some? ==> Shaped(depth.value, rows, cols)
      ensures res.Success? <==> InitSpec(lores, hiresFile, opt, k, wmf, depth, kernel, logf, rows, cols).Success?
      ensures res.Failure? ==> res.error == InitSpec(lores, hiresFile, opt, k, wmf, depth, kernel, logf, rows, cols).error
      ensures res.Success? ==> fresh(res.value)
      ensures res.Success? ==> res.value.State() == InitSpec(lores, hiresFile, opt, k, wmf, depth, kernel, logf, rows, cols).value
    {
      var negpix :- NegPix(lores, opt.negativePx);
      var index :- BandNamed(lores, "index");
      if hiresFile.None? {
        return Failure(TypeError);
      }
      var cube :- LookupBands(hiresFile.value, RrsNames(Sentinel2));
      ShapedLookup(hiresFile.value, RrsNames(Sentinel2), rows, cols);
      if negpix.Some? {
        ShapedMask(lores, rows, cols);
      }
      var hires := StageCube(cube, StagesOf(opt), Inputs(wmf, depth, negpix, kernel, logf), k, rows, cols);
      if !opt.cut {
        var f := new Fusion(lores, negpix, index, false, hires, k.cutsize);
        return Success(f);
      }
      if negpix.None? {
        return Failure(AttributeError);
      }
      var f := new Fusion(lores, Some(Window(negpix.value, k.cutsize)), Window(index, k.cutsize), true, hires, k.cutsize);
      return Success(f);
    }

    /** `fusion(m_wavelengths)`: the band names of the chosen MODIS set, then the
        band-pair loop. */
    method FuseBands(sets: map<string, seq<nat>>, key: string, fuse: (Cube, Grid<Px>, string, Grid<Px>) -> Grid<Px>)
      returns (res: Result<Products>)
      ensures res == FusionSpec(State(), sets, key, fuse)
    {
      var ws :- BandSet(sets, key);
      res := PairLoop(State(), RrsNames(ws), fuse);
    }
  }

  /** The band-pair loop: for each name its lores band is appended to one product and its
      fused band to the other. */
  method PairLoop(s: FusionState, names: seq<string>, fuse: (Cube, Grid<Px>, string, Grid<Px>) -> Grid<Px>)
    returns (res: Result<Products>)
    ensures res == PairsSpec(s, names, fuse)
  {
    var nLores: seq<Band> := [];
    var nHires: seq<Band> := [];
    var i := 0;
    while i < |names|
      invariant 0 <= i <= |names|
      invariant PairsOver(LoresOf(s), s.hires, s.index, names[..i], fuse) == Success(Products(nLores, nHires))
    {
      assert names[..i + 1][..i] == names[..i];
      var lo := LoresBand(s, names[i]);
      assert LoresOf(s)(names[i]) == lo;
      if lo.Failure? {
        PairsFailureSticks(LoresOf(s), s.hires, s.index, names, fuse, i + 1);
        return Failure(lo.error);
      }
      nLores := nLores + [Band(names[i], lo.value)];
      nHires := nHires + [Band(names[i], fuse(s.hires, lo.value, names[i], s.index))];
      i := i + 1;
    }
    assert names[..i] == names;
    return Success(Products(nLores, nHires));
  }

  /** The cube goes into a new 3-D array (`np.array([...])`) that the stages update. */
  method StageCube(cube: Cube, st: Stages, inp: Inputs, k: Constants, rows: nat, cols: nat) returns (hires: Cube)
    requires |cube| > 7 && IsCube(cube, rows, cols) && Shaped(inp.wmf, rows, cols)
    requires inp.depth.Some? ==> Shaped(inp.depth.value, rows, cols)
    requires inp.negpix.Some? ==> Shaped(inp.negpix.value, rows, cols)
    ensures hires == Staged(cube, st, inp, k.bMax, k.bMin, k.cutsize, rows, cols)
  {
    var a := new Px[|cube|, rows, cols]((b: nat, r: nat, c: nat) =>
      if b < |cube| && r < |cube[b]| && c < |cube[b][r]| then cube[b][r][c] else NaN);
    CubeExt(CubeOf(a), cube, rows, cols);
    var h := RunStages(a, st, inp, k.bMax, k.bMin, k.cutsize);
    hires := CubeOf(h);
  }

  lemma ShapedMask(lores: seq<Band>, rows: nat, cols: nat)
    requires OnDomain(lores, rows, cols) && |lores| >= 2
    ensures Shaped(BelowMask(lores[1].grid, 0.0), rows, cols)
  {
  }
}
