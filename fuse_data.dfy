/** The data-preparation class of the `michigan_fuse` package: one input file, classified
    as MODIS or Sentinel-2 by its name, and the same geolocation and downscale steps. */
module FuseData {
  import opened Python
  import opened Raster
  import opened Bands
  import opened Domain
  import opened Modis
  import opened Downscaling
  import opened MichiganData

  /** The constructor: a file whose name starts with 'A' is the MODIS product, any other
      file the Sentinel-2 product; the other slot stays empty. */
  function Classify(ifile: string, domain: DomainDef): (d: Data)
    ensures d.domain == domain
    ensures d.mFile.Some? <==> StartsWith(ifile, "A")
    ensures d.sFile.Some? <==> !StartsWith(ifile, "A")
    ensures d.mFile.Some? ==> d.mFile.value == ifile
    ensures d.sFile.Some? ==> d.sFile.value == ifile
  {
    if StartsWith(ifile, "A") then Data(Some(ifile), None, domain) else Data(None, Some(ifile), domain)
  }

  /** `modis_geo_location` on the class's domain. */
  function FuseGeoLocation(data: Data, ws: seq<nat>, open: string -> Swath,
                           reproject: (seq<Band>, DomainDef) -> seq<Band>): Result<seq<Band>> {
    GeoLocationSpec(data.mFile, ws, data.domain, open, reproject)
  }

  /** Only a file classified as MODIS can be geolocated; any other fails with IOError. */
  lemma GeoLocationNeedsModis(ifile: string, domain: DomainDef, ws: seq<nat>, open: string -> Swath,
                              reproject: (seq<Band>, DomainDef) -> seq<Band>)
    ensures FuseGeoLocation(Classify(ifile, domain), ws, open, reproject).Success? ==> StartsWith(ifile, "A")
    ensures !StartsWith(ifile, "A") ==> FuseGeoLocation(Classify(ifile, domain), ws, open, reproject) == Failure(IOError)
  {
  }

  /** `s2_downscale` on the class's Sentinel-2 slot, with the band-code lookup the
      method evidently intends. */
  function FuseDownscale(data: Data, glob: string -> seq<string>, outline: string -> Outline,
                         reproject: string -> Grid<Px>, shapeOf: DomainDef -> (nat, nat)): Result<Downscaled> {
    IntendedDownscale(data.sFile, glob, outline, reproject, shapeOf)
  }

  /** A MODIS file leaves the Sentinel-2 slot empty, so the 'S2A' match inside the
      downscale raises TypeError; a Sentinel-2 file reaches the scene lookup. */
  lemma DownscaleNeedsSentinel(ifile: string, domain: DomainDef, glob: string -> seq<string>, outline: string -> Outline,
                               reproject: string -> Grid<Px>, shapeOf: DomainDef -> (nat, nat))
    ensures StartsWith(ifile, "A") ==> FuseDownscale(Classify(ifile, domain), glob, outline, reproject, shapeOf) == Failure(TypeError)
    ensures FuseDownscale(Classify(ifile, domain), glob, outline, reproject, shapeOf).Success? ==>
      !StartsWith(ifile, "A") && !StartsWith(ifile, "S2A") && SceneSpec(glob, outline, ifile).Success?
  {
    TableRequests();
    var d := Classify(ifile, domain);
    if FuseDownscale(d, glob, outline, reproject, shapeOf).Success? {
      DownscaleBands(d.sFile, CodeRequests(SortedCodes()).value, glob, outline, reproject, shapeOf);
    }
  }
}
