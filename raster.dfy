/** Pixels, grids and spectral cubes as numpy holds them: a float pixel is NaN or a
    number, and every ordered comparison with NaN is false. */
module Raster {
  import opened Python

  datatype Px = NaN | Val(v: real)

  /** numpy `p > t` */
  predicate Above(p: Px, t: real) { p.Val? && p.v > t }

  /** numpy `p < t` */
  predicate Below(p: Px, t: real) { p.Val? && p.v < t }

  /** numpy `p >= t` */
  predicate AtLeast(p: Px, t: real) { p.Val? && p.v >= t }

  /** numpy `p == t` */
  predicate Equals(p: Px, t: real) { p.Val? && p.v == t }

  /** The mosaicking convention for "valid data present": `p > 0`. */
  predicate Positive(p: Px) { Above(p, 0.0) }

  /** A 2-D raster, row-major: g[r][c]. */
  type Grid<T> = seq<seq<T>>

  predicate Shaped<T>(g: Grid<T>, rows: nat, cols: nat) {
    |g| == rows && forall r :: 0 <= r < rows ==> |g[r]| == cols
  }

  /** The value of a 2-D array as a grid (what `add_band` and `np.array` copy). */
  function GridOf<T>(a: array2<T>): (g: Grid<T>)
    reads a
    ensures Shaped(g, a.Length0, a.Length1)
    ensures forall r, c :: 0 <= r < a.Length0 && 0 <= c < a.Length1 ==> g[r][c] == a[r, c]
  {
    seq(a.Length0, r requires 0 <= r < a.Length0 reads a =>
      seq(a.Length1, c requires 0 <= c < a.Length1 reads a => a[r, c]))
  }

  /** Two grids of one shape that agree cell by cell are equal. */
  lemma GridsEqual<T>(g: Grid<T>, h: Grid<T>, rows: nat, cols: nat)
    requires Shaped(g, rows, cols) && Shaped(h, rows, cols)
    requires forall r, c :: 0 <= r < rows && 0 <= c < cols ==> g[r][c] == h[r][c]
    ensures g == h
  {
    forall r | 0 <= r < rows ensures g[r] == h[r] {
    }
  }

  /** numpy `g[:n, :n]`: the top-left window, clipped to the grid. */
  function Window<T>(g: Grid<T>, n: nat): Grid<T> {
    seq(Min(n, |g|), r requires 0 <= r < Min(n, |g|) => g[r][..Min(n, |g[r]|)])
  }

  /** Cropping is a sub-window projection: the window has the clipped shape and agrees
      with the grid at every shared coordinate. */
  lemma WindowAgrees<T>(g: Grid<T>, rows: nat, cols: nat, n: nat)
    requires Shaped(g, rows, cols)
    ensures Shaped(Window(g, n), Min(n, rows), Min(n, cols))
    ensures forall r, c :: 0 <= r < Min(n, rows) && 0 <= c < Min(n, cols) ==>
      Window(g, n)[r][c] == g[r][c]
  {
  }

  /** numpy `g[m] = nan` on a copy: NaN where the mask holds, unchanged elsewhere. */
  function NullWhere(g: Grid<Px>, m: Grid<bool>): Grid<Px> {
    seq(|g|, r requires 0 <= r < |g| =>
      seq(|g[r]|, c requires 0 <= c < |g[r]| =>
        if r < |m| && c < |m[r]| && m[r][c] then NaN else g[r][c]))
  }

  /** A spectral cube, band-major like numpy's `[band, row, col]`. */
  type Cube = seq<Grid<Px>>

  predicate IsCube(x: Cube, rows: nat, cols: nat) {
    forall b :: 0 <= b < |x| ==> Shaped(x[b], rows, cols)
  }

  /** The value of a 3-D array as a cube. */
  function CubeOf(a: array3<Px>): (x: Cube)
    reads a
    ensures |x| == a.Length0 && IsCube(x, a.Length1, a.Length2)
    ensures forall b, r, c :: 0 <= b < a.Length0 && 0 <= r < a.Length1 && 0 <= c < a.Length2 ==>
      x[b][r][c] == a[b, r, c]
  {
    seq(a.Length0, b requires 0 <= b < a.Length0 reads a =>
      seq(a.Length1, r requires 0 <= r < a.Length1 reads a =>
        seq(a.Length2, c requires 0 <= c < a.Length2 reads a => a[b, r, c])))
  }

  /** Two cubes of one shape that agree at every cell are equal. */
  lemma CubeExt(x: Cube, y: Cube, rows: nat, cols: nat)
    requires |x| == |y| && IsCube(x, rows, cols) && IsCube(y, rows, cols)
    requires forall b, r, c :: 0 <= b < |x| && 0 <= r < rows && 0 <= c < cols ==> x[b][r][c] == y[b][r][c]
    ensures x == y
  {
    forall b | 0 <= b < |x| ensures x[b] == y[b] {
      forall r | 0 <= r < rows ensures x[b][r] == y[b][r] {
      }
    }
  }

  /** A named raster band, as `add_band(array, parameters={'name': ...})` stores it. */
  datatype Band = Band(name: string, grid: Grid<Px>)

  /** The names of a band list, in order. */
  function Names(bs: seq<Band>): (ns: seq<string>)
    ensures |ns| == |bs| && forall i :: 0 <= i < |bs| ==> ns[i] == bs[i].name
  {
    if bs == [] then [] else Names(bs[..|bs| - 1]) + [bs[|bs| - 1].name]
  }

  /** Adding a band adds its name. */
  lemma NamesSnoc(bs: seq<Band>, b: Band)
    ensures Names(bs + [b]) == Names(bs) + [b.name]
  {
    assert (bs + [b])[..|bs|] == bs;
  }

  /** Band i is the first band named name. */
  predicate FirstWithName(bs: seq<Band>, name: string, i: int) {
    0 <= i < |bs| && bs[i].name == name && forall j :: 0 <= j < i ==> bs[j].name != name
  }

  /** `n[name]`: the first band carrying that name; the raster library's band-not-found
      error when there is none. */
  function BandNamed(bs: seq<Band>, name: string): (r: Result<Grid<Px>>)
    ensures r.Success? <==> name in Names(bs)
  {
    if bs == [] then Failure(BandNotFound)
    else if bs[0].name == name then assert Names(bs)[0] == name; Success(bs[0].grid)
    else
      var r := BandNamed(bs[1..], name);
      assert name in Names(bs) <==> name in Names(bs[1..]) by {
        assert forall j :: 0 < j < |bs| ==> Names(bs)[j] == Names(bs[1..])[j - 1];
        if name in Names(bs) {
          var j :| 0 <= j < |bs| && Names(bs)[j] == name;
          assert Names(bs[1..])[j - 1] == name;
        }
      }
      r
  }

  /** A found band is the first band carrying the name. */
  lemma {:induction false} BandNamedFirst(bs: seq<Band>, name: string)
    requires BandNamed(bs, name).Success?
    ensures exists i :: FirstWithName(bs, name, i) && BandNamed(bs, name).value == bs[i].grid
  {
    if bs[0].name == name {
      assert FirstWithName(bs, name, 0);
    } else {
      BandNamedFirst(bs[1..], name);
      var i :| FirstWithName(bs[1..], name, i) && BandNamed(bs[1..], name).value == bs[1..][i].grid;
      assert forall j :: 0 <= j < |bs| - 1 ==> bs[1..][j] == bs[j + 1];
      assert FirstWithName(bs, name, i + 1);
    }
  }

  /** `n[k]` for a band number: numbering starts at 1. */
  function BandNumber(bs: seq<Band>, k: nat): (r: Result<Grid<Px>>)
    ensures r.Success? <==> 1 <= k <= |bs|
    ensures r.Success? ==> r.value == bs[k - 1].grid
  {
    if 1 <= k <= |bs| then Success(bs[k - 1].grid) else Failure(BandNotFound)
  }

  /** Bands looked up by name, in order (`[n[number(name)] for name in names]`); the first
      missing name fails the lookup. */
  function LookupBands(bs: seq<Band>, names: seq<string>): (r: Result<Cube>)
    ensures r.Success? <==> forall i :: 0 <= i < |names| ==> names[i] in Names(bs)
    ensures r.Success? ==> |r.value| == |names| && forall i :: 0 <= i < |names| ==> BandNamed(bs, names[i]) == Success(r.value[i])
  {
    if names == [] then Success([])
    else
      var p := names[..|names| - 1];
      assert forall i :: 0 <= i < |p| ==> p[i] == names[i];
      var x :- LookupBands(bs, p);
      var g :- BandNamed(bs, names[|names| - 1]);
      var cube := x + [g];
      assert forall i :: 0 <= i < |names| ==> BandNamed(bs, names[i]) == Success(cube[i]) by {
        forall i | 0 <= i < |names| ensures BandNamed(bs, names[i]) == Success(cube[i]) {
          if i < |p| {
            assert names[i] == p[i] && cube[i] == x[i];
          } else {
            assert i == |p| && cube[i] == g;
          }
        }
      }
      Success(cube)
  }

  /** Every band of a raster has the domain's shape (what reprojection onto a domain
      gives). */
  predicate OnDomain(bs: seq<Band>, rows: nat, cols: nat) {
    forall i :: 0 <= i < |bs| ==> Shaped(bs[i].grid, rows, cols)
  }
}
