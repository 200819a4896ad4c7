/** Sensor band tables: the MODIS band sets, the Sentinel-2 wavelengths, the Sentinel-2
    band-code table and the band and file names derived from them. */
module Bands {
  import opened Python
  import opened Text

  /** `wavelengths['sentinel2']`, in nm. */
  const Sentinel2: seq<nat> := [443, 490, 560, 665, 705, 740, 783, 842, 945, 1375, 1610, 2190]

  const ModisFull: seq<nat> := [412, 443, 488, 531, 547, 555, 645, 667, 678]
  const Modis1km: seq<nat> := [412, 443, 488, 531, 645, 678]

  /** `wavelengths['modis']` of the full data-preparation class. */
  const ModisSets: map<string, seq<nat>> := map[
    "full" := ModisFull,
    "1x1km_bands" := Modis1km,
    "blue_off" := [443, 469, 488, 531, 547, 555, 645, 667, 678],
    "red_off" := [412, 443, 469, 488, 531, 547, 555, 645, 667],
    "blue_and_red_off" := [443, 469, 488, 531, 547, 555, 645, 667],
    "red_off_full" := [412, 443, 469, 488, 531, 547, 555],
    "1x1km_bands_2" := [443, 488, 531, 645, 678]
  ]

  /** `wavelengths['modis']` of the fusion-package data-preparation class. */
  const FuseModisSets: map<string, seq<nat>> := map["full" := ModisFull, "1x1km_bands" := Modis1km]

  /** `sets[key]`: KeyError for an unknown set name. */
  function BandSet(sets: map<string, seq<nat>>, key: string): (r: Result<seq<nat>>)
    ensures r.Success? <==> key in sets
    ensures r.Success? ==> r.value == sets[key]
  {
    if key in sets then Success(sets[key]) else Failure(KeyError)
  }

  /** One entry of the Sentinel-2 `BANDS` table. */
  datatype S2Band = S2Band(code: string, wavelength: nat, resolution: nat)

  /** `BANDS`, in code order ('8A' is not in the table). */
  const BandTable: seq<S2Band> := [
    S2Band("01", 443, 60), S2Band("02", 490, 10), S2Band("03", 560, 10),
    S2Band("04", 665, 10), S2Band("05", 705, 20), S2Band("06", 740, 20),
    S2Band("07", 783, 20), S2Band("08", 842, 10), S2Band("09", 945, 60),
    S2Band("10", 1375, 60), S2Band("11", 1610, 20), S2Band("12", 2190, 20)
  ]

  function CodesOf(t: seq<S2Band>): seq<string> {
    seq(|t|, i requires 0 <= i < |t| => t[i].code)
  }

  function WavelengthsOf(t: seq<S2Band>): seq<nat> {
    seq(|t|, i requires 0 <= i < |t| => t[i].wavelength)
  }

  /** `BANDS[code]`: KeyError for a code not in the table. */
  function LookupCode(code: string): (r: Result<S2Band>)
    ensures r.Success? <==> code in CodesOf(BandTable)
    ensures r.Success? ==> r.value in BandTable && r.value.code == code
  {
    LookupIn(BandTable, code)
  }

  function LookupIn(t: seq<S2Band>, code: string): (r: Result<S2Band>)
    ensures r.Success? <==> code in CodesOf(t)
    ensures r.Success? ==> r.value in t && r.value.code == code
  {
    if t == [] then Failure(KeyError)
    else if t[0].code == code then assert CodesOf(t)[0] == code; Success(t[0])
    else
      assert CodesOf(t) == [t[0].code] + CodesOf(t[1..]);
      LookupIn(t[1..], code)
  }

  /** Looking up the code of an entry no earlier entry shares gives that entry. */
  lemma {:induction false} LookupFirst(t: seq<S2Band>, i: nat)
    requires i < |t| && forall j :: 0 <= j < i ==> t[j].code != t[i].code
    ensures LookupIn(t, t[i].code) == Success(t[i])
  {
    if i > 0 {
      assert t[0].code != t[i].code;
      var u := t[1..];
      assert u[i - 1] == t[i];
      forall j | 0 <= j < i - 1 ensures u[j].code != u[i - 1].code {
        assert u[j] == t[j + 1];
      }
      LookupFirst(u, i - 1);
    }
  }

  /** Every table code is found, and gives its own entry back. */
  lemma LookupTableCode(i: nat)
    requires i < |BandTable|
    ensures LookupCode(BandTable[i].code) == Success(BandTable[i])
  {
    PaddedPatternMatchesCodes(i + 1);
    forall j | 0 <= j < i ensures BandTable[j].code != BandTable[i].code {
      PaddedPatternMatchesCodes(j + 1);
    }
    LookupFirst(BandTable, i);
  }

  /** `sorted(BANDS.keys())` */
  function SortedCodes(): seq<string> {
    Sort(CodesOf(BandTable))
  }

  /** The table is listed in code order, so sorting its keys gives '01'..'12' in table
      order, and the wavelengths in that order are the Sentinel-2 list. */
  lemma SortedCodesInTableOrder()
    ensures SortedCodes() == CodesOf(BandTable)
    ensures SortedCodes() == ["01", "02", "03", "04", "05", "06", "07", "08", "09", "10", "11", "12"]
    ensures WavelengthsOf(BandTable) == Sentinel2
  {
    CodesSorted();
    SortSorted(CodesOf(BandTable));
    CodesAreTwoDigits();
    TableWavelengths();
  }

  /** The two facts of the lemma above, without the literal code list. */
  lemma SortedCodesAreTableCodes()
    ensures SortedCodes() == CodesOf(BandTable)
    ensures WavelengthsOf(BandTable) == Sentinel2
  {
    SortedCodesInTableOrder();
  }

  lemma TableWavelengths()
    ensures WavelengthsOf(BandTable) == Sentinel2
  {
  }

  lemma CodesSorted()
    ensures Sorted(CodesOf(BandTable))
  {
    var cs := CodesOf(BandTable);
    CodesAreTwoDigits();
    AdjacentCons("11", ["12"]);
    AdjacentCons("10", ["11", "12"]);
    AdjacentCons("09", ["10", "11", "12"]);
    AdjacentCons("08", ["09", "10", "11", "12"]);
    AdjacentCons("07", ["08", "09", "10", "11", "12"]);
    AdjacentCons("06", ["07", "08", "09", "10", "11", "12"]);
    AdjacentCons("05", ["06", "07", "08", "09", "10", "11", "12"]);
    AdjacentCons("04", ["05", "06", "07", "08", "09", "10", "11", "12"]);
    AdjacentCons("03", ["04", "05", "06", "07", "08", "09", "10", "11", "12"]);
    AdjacentCons("02", ["03", "04", "05", "06", "07", "08", "09", "10", "11", "12"]);
    AdjacentCons("01", ["02", "03", "04", "05", "06", "07", "08", "09", "10", "11", "12"]);
    SortedPairwise(cs);
  }

  lemma CodesAreTwoDigits()
    ensures CodesOf(BandTable) == ["01", "02", "03", "04", "05", "06", "07", "08", "09", "10", "11", "12"]
  {
  }

  lemma TwoCharLeq(a: string, b: string)
    requires |a| == 2 && |b| == 2 && (a[0] < b[0] || (a[0] == b[0] && a[1] <= b[1]))
    ensures StrLeq(a, b)
  {
    assert a[1..][1..] == [];
  }

  predicate AdjacentLeq(s: seq<string>) {
    |s| < 2 || (StrLeq(s[0], s[1]) && AdjacentLeq(s[1..]))
  }

  lemma AdjacentCons(x: string, s: seq<string>)
    requires |x| == 2 && |s| > 0 && |s[0]| == 2 && (x[0] < s[0][0] || (x[0] == s[0][0] && x[1] <= s[0][1]))
    requires AdjacentLeq(s)
    ensures AdjacentLeq([x] + s)
  {
    TwoCharLeq(x, s[0]);
    assert ([x] + s)[1..] == s;
  }

  lemma {:induction false} SortedPairwise(s: seq<string>)
    requires AdjacentLeq(s)
    ensures Sorted(s)
  {
    if |s| >= 2 {
      SortedPairwise(s[1..]);
      forall i | 0 < i < |s| ensures StrLeq(s[i - 1], s[i]) {
        if i > 1 {
          assert s[i - 1] == s[1..][i - 2] && s[i] == s[1..][i - 1];
        }
      }
    }
  }

  predicate StrictlyIncreasing(s: seq<nat>) {
    forall i :: 0 < i < |s| ==> s[i - 1] < s[i]
  }

  /** The Sentinel-2 wavelengths are strictly increasing (so `sorted` leaves the list as
      it is and band i of the cube is the i-th shortest wavelength). */
  lemma Sentinel2Increasing()
    ensures StrictlyIncreasing(Sentinel2)
    ensures forall i, j :: 0 <= i < j < |Sentinel2| ==> Sentinel2[i] < Sentinel2[j]
  {
    assert StrictlyIncreasing(Sentinel2);
    IncreasingIsOrdered(Sentinel2);
  }

  lemma {:induction false} IncreasingIsOrdered(s: seq<nat>)
    requires StrictlyIncreasing(s)
    ensures forall i, j :: 0 <= i < j < |s| ==> s[i] < s[j]
  {
    if |s| > 1 {
      var p := s[..|s| - 1];
      IncreasingIsOrdered(p);
      forall i, j | 0 <= i < j < |s| ensures s[i] < s[j] {
        if j < |s| - 1 {
          assert s[i] == p[i] && s[j] == p[j];
        } else if i < j - 1 {
          assert s[i] == p[i] && s[j - 1] == p[j - 1];
        }
      }
    }
  }

  /** xs can be obtained from ys by deleting elements (an order-preserving subset). */
  predicate Subsequence(xs: seq<nat>, ys: seq<nat>)
    decreases |ys|
  {
    xs == [] || (ys != [] && (if xs[0] == ys[0] then Subsequence(xs[1..], ys[1..]) else Subsequence(xs, ys[1..])))
  }

  /** Every element of a subsequence occurs in the larger list. */
  lemma {:induction false} SubsequenceMembers(xs: seq<nat>, ys: seq<nat>)
    requires Subsequence(xs, ys)
    ensures forall x :: x in xs ==> x in ys
    decreases |ys|
  {
    if xs != [] {
      if xs[0] == ys[0] {
        SubsequenceMembers(xs[1..], ys[1..]);
        assert xs == [xs[0]] + xs[1..];
      } else {
        SubsequenceMembers(xs, ys[1..]);
      }
    }
  }

  /** The 1 km MODIS bands are an order-preserving subset of the full set. */
  lemma OneKmInFull()
    ensures Subsequence(Modis1km, ModisFull)
  {
    assert Subsequence([678], [678]);
    assert Subsequence([645, 678], [645, 667, 678]);
    assert Subsequence([531, 645, 678], [531, 547, 555, 645, 667, 678]);
  }

  /** `'Rrs_%s' % w` */
  function RrsName(w: nat): string {
    "Rrs_" + Decimal(w)
  }

  /** `['Rrs_%s' % w for w in ws]` */
  function RrsNames(ws: seq<nat>): seq<string> {
    seq(|ws|, i requires 0 <= i < |ws| => RrsName(ws[i]))
  }

  /** Band names follow their wavelengths one to one: distinct wavelengths give distinct
      names, and the name gives the wavelength back. */
  lemma RrsNameInjective(a: nat, b: nat)
    ensures RrsName(a) == RrsName(b) <==> a == b
  {
    if RrsName(a) == RrsName(b) {
      assert Decimal(a) == RrsName(a)[4..];
      assert Decimal(b) == RrsName(b)[4..];
      DecimalInjective(a, b);
    }
  }

  /** `'*_B%s.jp2' % code`: the image file of one band inside a granule's IMG_DATA. */
  function ImagePattern(code: string): string {
    "*_B" + code + ".jp2"
  }

  /** `'*_B%02d.jp2' % band` names band 1 as `*_B01.jp2`, matching the table's codes. */
  lemma PaddedPatternMatchesCodes(n: nat)
    requires 1 <= n <= 12
    ensures BandTable[n - 1].code == Pad2(n)
    ensures ImagePattern(Pad2(n)) == ImagePattern(BandTable[n - 1].code)
  {
    assert Pad2(n) == BandTable[n - 1].code;
  }
}
