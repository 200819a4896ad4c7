/** `modis_geo_location`: a MODIS swath gets a pixel-index band, is reprojected onto the
    processing domain, and the index band and the requested reflectance bands are copied,
    in that order, into the exported product. */
module Modis {
  import opened Python
  import opened Raster
  import opened Bands
  import opened Domain

  const TwoPow31: int := 0x8000_0000

  /** `astype('int32')`: two's-complement wrap-around to 32 bits. */
  function Int32(x: int): (y: int)
    ensures -TwoPow31 <= y < TwoPow31
    ensures (y - x) % (2 * TwoPow31) == 0
    ensures -TwoPow31 <= x < TwoPow31 ==> y == x
  {
    (x + TwoPow31) % (2 * TwoPow31) - TwoPow31
  }

  /** `np.arange(0, rows * cols).reshape((rows, cols)).astype('int32')` */
  function IndexMap(rows: nat, cols: nat): (m: Grid<int>)
    ensures Shaped(m, rows, cols)
  {
    seq(rows, r requires 0 <= r < rows => seq(cols, c requires 0 <= c < cols => Int32(r * cols + c)))
  }

  lemma RowMajorBound(rows: nat, cols: nat, r: nat, c: nat)
    requires r < rows && c < cols
    ensures r * cols + c < rows * cols
  {
    assert r * cols + c < (r + 1) * cols;
    assert (r + 1) * cols <= rows * cols;
  }

  lemma RowMajorLess(cols: nat, r1: nat, c1: nat, r2: nat, c2: nat)
    requires c1 < cols && r1 < r2
    ensures r1 * cols + c1 < r2 * cols + c2
  {
    assert (r1 + 1) * cols <= r2 * cols;
  }

  lemma RowMajorInjective(cols: nat, r1: nat, c1: nat, r2: nat, c2: nat)
    requires c1 < cols && c2 < cols && r1 * cols + c1 == r2 * cols + c2
    ensures r1 == r2 && c1 == c2
  {
    if r1 < r2 {
      RowMajorLess(cols, r1, c1, r2, c2);
    } else if r2 < r1 {
      RowMajorLess(cols, r2, c2, r1, c1);
    }
  }

  /** While the swath has at most 2^31 pixels the index map holds the row-major pixel
      number: every value lies in [0, rows*cols), it gives back its row and column, and no
      two pixels share a value. */
  lemma {:induction false} IndexMapCells(rows: nat, cols: nat, r: nat, c: nat)
    requires rows * cols <= TwoPow31 && r < rows && c < cols
    ensures IndexMap(rows, cols)[r][c] == r * cols + c
    ensures 0 <= IndexMap(rows, cols)[r][c] < rows * cols
    ensures IndexMap(rows, cols)[r][c] / cols == r && IndexMap(rows, cols)[r][c] % cols == c
  {
    RowMajorBound(rows, cols, r, c);
    assert IndexMap(rows, cols)[r][c] == Int32(r * cols + c);
    RowMajorDivMod(cols, r, c);
  }

  /** The row and column come back from a row-major number by division. */
  lemma RowMajorDivMod(cols: nat, r: nat, c: nat)
    requires c < cols
    ensures (r * cols + c) / cols == r && (r * cols + c) % cols == c
  {
    var idx := r * cols + c;
    var q := idx / cols;
    var m := idx % cols;
    assert idx == q * cols + m;
    RowMajorInjective(cols, q, m, r, c);
  }

  lemma IndexMapDistinct(rows: nat, cols: nat, r1: nat, c1: nat, r2: nat, c2: nat)
    requires rows * cols <= TwoPow31 && r1 < rows && c1 < cols && r2 < rows && c2 < cols
    requires IndexMap(rows, cols)[r1][c1] == IndexMap(rows, cols)[r2][c2]
    ensures r1 == r2 && c1 == c2
  {
    IndexMapCells(rows, cols, r1, c1);
    IndexMapCells(rows, cols, r2, c2);
    RowMajorInjective(cols, r1, c1, r2, c2);
  }

  /** Past 2^31 pixels the cast wraps: pixel number 2^31 is stored as -2^31. */
  lemma IndexMapWraps(rows: nat, cols: nat, r: nat, c: nat)
    requires r < rows && c < cols && r * cols + c == TwoPow31
    ensures IndexMap(rows, cols)[r][c] == -TwoPow31
  {
    assert IndexMap(rows, cols)[r][c] == Int32(TwoPow31);
  }

  /** `n.add_band(index, parameters={'name': 'index'})` */
  function IndexBand(rows: nat, cols: nat): Band {
    Band("index", seq(rows, r requires 0 <= r < rows => seq(cols, c requires 0 <= c < cols => Val(IndexMap(rows, cols)[r][c] as real))))
  }

  /** `bands = ['Rrs_%s' % w for w in ws]; bands.insert(0, 'index')` */
  function GeoBandNames(ws: seq<nat>): seq<string> {
    ["index"] + RrsNames(ws)
  }

  predicate Distinct<T(==)>(s: seq<T>) {
    forall i, j :: 0 <= i < j < |s| ==> s[i] != s[j]
  }

  /** The exported list is 'index' followed by one reflectance name per wavelength in
      order, and with distinct wavelengths no name is repeated. */
  lemma GeoBandNamesLayout(ws: seq<nat>)
    ensures |GeoBandNames(ws)| == |ws| + 1 && GeoBandNames(ws)[0] == "index"
    ensures forall i :: 0 <= i < |ws| ==> GeoBandNames(ws)[i + 1] == RrsName(ws[i])
    ensures Distinct(ws) ==> Distinct(GeoBandNames(ws))
  {
    var ns := GeoBandNames(ws);
    if Distinct(ws) {
      forall i, j | 0 <= i < j < |ns| ensures ns[i] != ns[j] {
        if i == 0 {
          assert ns[j][0] == 'R';
        } else {
          RrsNameInjective(ws[i - 1], ws[j - 1]);
        }
      }
    }
  }

  /** The export loop: each name's band is read from the reprojected raster and added
      under that name; the first missing name fails. */
  function ExportSpec(product: seq<Band>, names: seq<string>): Result<seq<Band>> {
    if names == [] then Success([])
    else
      var acc :- ExportSpec(product, names[..|names| - 1]);
      var g :- BandNamed(product, names[|names| - 1]);
      Success(acc + [Band(names[|names| - 1], g)])
  }

  /** The export succeeds exactly when every name is a band of the raster, and then holds
      one band per name, in order, carrying that name's first band. */
  lemma {:induction false} ExportSucceeds(product: seq<Band>, names: seq<string>)
    ensures ExportSpec(product, names).Success? <==> forall i :: 0 <= i < |names| ==> names[i] in Names(product)
  {
    if names != [] {
      var p := names[..|names| - 1];
      ExportSucceeds(product, p);
      var acc := ExportSpec(product, p);
      var g := BandNamed(product, names[|names| - 1]);
      if acc.Failure? {
        assert ExportSpec(product, names) == Failure(acc.error);
        var k :| 0 <= k < |p| && p[k] !in Names(product);
        assert p[k] == names[k];
      } else if g.Failure? {
        assert ExportSpec(product, names) == Failure(g.error);
      } else {
        assert ExportSpec(product, names) == Success(acc.value + [Band(names[|names| - 1], g.value)]);
        forall i | 0 <= i < |names| ensures names[i] in Names(product) {
          if i < |p| {
            assert p[i] == names[i];
          }
        }
      }
    }
  }

  lemma {:induction false} ExportBands(product: seq<Band>, names: seq<string>)
    requires ExportSpec(product, names).Success?
    ensures |ExportSpec(product, names).value| == |names|
    ensures Names(ExportSpec(product, names).value) == names
    ensures forall i :: 0 <= i < |names| ==> BandNamed(product, names[i]) == Success(ExportSpec(product, names).value[i].grid)
  {
    if names != [] {
      var p := names[..|names| - 1];
      var last := names[|names| - 1];
      var acc := ExportSpec(product, p).value;
      var g := BandNamed(product, last).value;
      var out := acc + [Band(last, g)];
      assert ExportSpec(product, names) == Success(out);
      ExportBands(product, p);
      NamesSnoc(acc, Band(last, g));
      FrontLast(names);
      forall i | 0 <= i < |names| ensures BandNamed(product, names[i]) == Success(out[i].grid) {
        if i < |p| {
          assert p[i] == names[i] && out[i] == acc[i];
        } else {
          assert names[i] == last && out[i].grid == g;
        }
      }
    }
  }

  lemma {:induction false} ExportFailureSticks(product: seq<Band>, names: seq<string>, i: nat)
    requires i <= |names| && ExportSpec(product, names[..i]).Failure?
    ensures ExportSpec(product, names) == ExportSpec(product, names[..i])
    decreases |names| - i
  {
    if i < |names| {
      assert names[..i + 1][..i] == names[..i];
      ExportFailureSticks(product, names, i + 1);
    } else {
      assert names[..i] == names;
    }
  }

  method ExportLoop(product: seq<Band>, names: seq<string>) returns (res: Result<seq<Band>>)
    ensures res == ExportSpec(product, names)
  {
    var out: seq<Band> := [];
    var i := 0;
    while i < |names|
      invariant 0 <= i <= |names|
      invariant ExportSpec(product, names[..i]) == Success(out)
    {
      assert names[..i + 1][..i] == names[..i];
      var g := BandNamed(product, names[i]);
      if g.Failure? {
        ExportFailureSticks(product, names, i + 1);
        return Failure(g.error);
      }
      out := out + [Band(names[i], g.value)];
      i := i + 1;
    }
    assert names[..i] == names;
    return Success(out);
  }

  /** An opened MODIS swath: its bands and its shape (`n.shape()`). */
  datatype Swath = Swath(bands: seq<Band>, rows: nat, cols: nat)

  /** The whole method: IOError without a MODIS file, otherwise the swath (opened and
      given GCP geolocation by `open`) gains the index band, is reprojected onto the
      domain, and the export loop copies 'index' and the reflectance bands. */
  function GeoLocationSpec(mFile: Option<string>, ws: seq<nat>, domain: DomainDef,
                           open: string -> Swath, reproject: (seq<Band>, DomainDef) -> seq<Band>): Result<seq<Band>> {
    if mFile.None? then Failure(IOError)
    else
      var n := open(mFile.value);
      var product := reproject(n.bands + [IndexBand(n.rows, n.cols)], domain);
      ExportSpec(product, GeoBandNames(ws))
  }

  /** A successful geolocation exports 'index' first and then `Rrs_<w>` for each
      wavelength in order, each band read from the reprojected raster. */
  lemma GeoLocationBands(mFile: Option<string>, ws: seq<nat>, domain: DomainDef,
                         open: string -> Swath, reproject: (seq<Band>, DomainDef) -> seq<Band>)
    requires GeoLocationSpec(mFile, ws, domain, open, reproject).Success?
    ensures mFile.Some?
    ensures var out := GeoLocationSpec(mFile, ws, domain, open, reproject).value;
      |out| == |ws| + 1 && out[0].name == "index" &&
      forall i :: 0 <= i < |ws| ==> out[i + 1].name == RrsName(ws[i])
  {
    var n := open(mFile.value);
    var product := reproject(n.bands + [IndexBand(n.rows, n.cols)], domain);
    ExportBands(product, GeoBandNames(ws));
    GeoBandNamesLayout(ws);
    var out := ExportSpec(product, GeoBandNames(ws)).value;
    assert Names(out) == GeoBandNames(ws);
    forall i | 0 <= i < |ws| ensures out[i + 1].name == RrsName(ws[i]) {
      assert Names(out)[i + 1] == out[i + 1].name;
    }
    assert Names(out)[0] == out[0].name;
  }

  method GeoLocation(mFile: Option<string>, ws: seq<nat>, domain: DomainDef,
                     open: string -> Swath, reproject: (seq<Band>, DomainDef) -> seq<Band>) returns (res: Result<seq<Band>>)
    ensures res == GeoLocationSpec(mFile, ws, domain, open, reproject)
  {
    if mFile.None? {
      return Failure(IOError);
    }
    var n := open(mFile.value);
    var product := reproject(n.bands + [IndexBand(n.rows, n.cols)], domain);
    res := ExportLoop(product, GeoBandNames(ws));
  }
}
