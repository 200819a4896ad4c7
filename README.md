# Michigan: Sentinel-2 / MODIS data preparation, fusion and Boreali processing

The system prepares satellite ocean-colour data over the Sandy Bear Dunes region of Lake
Michigan and fuses them:

- MODIS swaths get a pixel-index band, are reprojected onto a processing domain and the
  reflectance bands `Rrs_<w>` are exported (`modis_geo_location`);
- Sentinel-2 products are cut into granules, the granule directories of the four
  regional tiles are found, a 60 m domain is derived from their corners, and each band is
  stitched by compositing the reprojected granule images, the last valid (> 0) value
  winning (`stich`, `s2_downscale`, the downscale scripts);
- a granule survey builds border lists, labels and a band-1 quicklook (`s2_make_granules`,
  `01make_granules.py`);
- the fusion classes and script take a low-resolution MODIS product and a high-resolution
  Sentinel-2 cube, remove out-of-swath pixels, mask water/depth/clouds, optionally filter,
  skip the SWIR bands, log-scale and crop, and then fuse band by band;
- the Boreali processing class turns a product into `Rrsw_<w>` bands, a validity mask and
  concentration bands around the Boreali retrieval.

The Dafny model keeps the data as values: a pixel is `NaN` or a real (`Raster.Px`), grids
and cubes are sequences, bands are named grids. The in-place numpy steps (masked
assignments, compositing, the stage pipeline) are methods over `array2`/`array3` proved
against value-level functions. Every collaborator outside the core is a function-typed
parameter: `glob.glob`, Nansat opening, reprojection, `get_corners`/`get_border`,
`watermask`, `gaussian_filter`, `np.log10`, the Rrsw formula, `fuse` and
`Boreali.process`. Python exceptions are the `Python.Error` values of a `Result`.

Modules follow the sources: `Text`, `Raster`, `Bands`, `Mosaic`, `Domain`, `Bathymetry`,
`Hires` and `FusionCore` hold the shared pipeline; `MichiganData`, `Modis`, `Granules`,
`Downscaling`, `FuseData`, `MichiganFusion`, `FuseFusion`, `Michigan`, `FuseScript`,
`DownscaleScript`, `DownscaleBetaScript` and `DownscaleBeta` hold each source file's own
configuration and steps.

## Model

| member | source | states |
|---|---|---|
| Python.VectorizedCalls | downscale_beta.py:59-60 | `np.vectorize` without an output type raises ValueError on an empty list; otherwise the function is applied once more to the first element, then to every element in order |
| Text.Decimal | michigan/dataprep.py:103 | `'%s' % w` of a natural number is a non-empty digit string, with no leading zero unless the number is 0 |
| Text.DecimalRoundTrip | michigan/dataprep.py:103 | parsing the formatted number gives the number back |
| Text.DecimalInjective | michigan/dataprep.py:103-104 | distinct wavelengths are formatted as distinct strings |
| Text.DecimalLength | michigan/dataprep.py:129 | a wavelength of 100 or more formats to at least three digits |
| Text.Pad2 | scripts/03downscale.py:7 | `'%02d' % n` has at least two digits and still denotes n |
| Text.SplitFields | michigan/dataprep.py:211 | no field of `split(sep)` contains the separator |
| Text.SplitJoin | michigan/dataprep.py:211 | joining the fields of a split with the separator gives the string back |
| Text.SplitNoSep | michigan/dataprep.py:211 | a name without '_' is one field |
| Text.SplitConcat | michigan/dataprep.py:211 | splitting at one separator splits both sides independently |
| Text.SplitCount | michigan/dataprep.py:211 | a name has a second field (so `[-2]` exists) exactly when it contains '_' |
| Text.Sort | michigan/dataprep.py:185 | `sorted` gives a sorted permutation of its input |
| Text.SortSorted | michigan/dataprep.py:148 | sorting an already sorted list changes nothing |
| Text.PathJoinParts | michigan/dataprep.py:148 | POSIX `os.path.join`: an absolute second part replaces the first; otherwise the result starts with the first part and ends with the second |
| Bands.BandSet | michigan/fusion.py:143 | `wavelengths['modis'][key]` raises KeyError exactly for an unknown set and otherwise gives that set |
| Bands.LookupCode | scripts/03downscale_beta.py:25 | `BANDS[code]` raises KeyError exactly for a code not in the table and otherwise gives the entry of that code |
| Bands.LookupTableCode | michigan_fuse/dataprep.py:36-50 | every code of the table is found and gives its own entry |
| Bands.SortedCodesInTableOrder | scripts/03downscale_beta.py:36-50 | the sorted table keys are '01' to '12' in table order, and their wavelengths in that order are the Sentinel-2 list |
| Bands.Sentinel2Increasing | michigan/fusion.py:65-66 | the Sentinel-2 wavelengths are strictly increasing, so sorting them leaves the list as it is |
| Bands.OneKmInFull | michigan/dataprep.py:13-14 | the 1 km MODIS set is an order-preserving subset of the full set |
| Bands.RrsNameInjective | michigan/fusion.py:143 | `'Rrs_%s' % w` names equal exactly when the wavelengths are equal |
| Bands.PaddedPatternMatchesCodes | scripts/03downscale.py:7 | for band numbers 1 to 12 the padded pattern `*_B%02d.jp2` is the pattern of the table code of that band |
| Raster.WindowAgrees | michigan/fusion.py:136-140 | `g[:n, :n]` has the clipped shape and agrees with g at every shared cell |
| Raster.BandNamed | michigan/fusion.py:148 | `n[name]` succeeds exactly when a band carries the name |
| Raster.BandNamedFirst | michigan/fusion.py:148 | the band `n[name]` gives is the first band carrying the name |
| Raster.BandNumber | michigan/fusion.py:48 | `n[k]` succeeds exactly for 1 <= k <= band count and gives band k counted from 1 |
| Raster.LookupBands | michigan/fusion.py:65-68 | the named bands in name order; fails exactly when some name is missing |
| Mosaic.MosaicGrid | michigan/dataprep.py:127-135 | the composite of the tiles has the domain's shape |
| Mosaic.MosaicNaNIff | michigan/dataprep.py:127-135 | a composite cell stays NaN exactly when no tile is valid (> 0) there |
| Mosaic.MosaicLastValidWins | michigan/dataprep.py:128-135 | a composite cell holds the value of the last tile valid there, whatever earlier tiles hold |
| Mosaic.MosaicValid | michigan/dataprep.py:135 | every composite cell is NaN or valid data (> 0) |
| Mosaic.MosaicSingle | michigan/dataprep.py:127-135 | one tile on the all-NaN grid gives the tile where it is valid and NaN elsewhere |
| Mosaic.Composite | michigan/dataprep.py:127-135 | the compositing loop over a fresh all-NaN array builds exactly the composite |
| Mosaic.FirstMatch | michigan/dataprep.py:129 | `glob(...)[0]` raises IndexError exactly when nothing matches, otherwise gives the first match |
| Mosaic.LookupTiles | michigan/dataprep.py:128-134 | one reprojected tile per granule directory, in order, each of the domain's shape, each from the first match of that directory's pattern; every failure is an IndexError |
| Mosaic.LookupTilesSucceeds | michigan/dataprep.py:128-134 | the lookup succeeds when every directory has a match whose reprojection lies on the domain's shape |
| Mosaic.StitchBand | michigan/dataprep.py:126-135 | the per-band loop computes the band mosaic of its file pattern |
| Mosaic.StitchAllFailsIff | michigan/dataprep.py:124-137 | a stitched product fails exactly when some requested band fails |
| Mosaic.StitchAllBands | michigan/dataprep.py:123-139 | a stitched product has one band per request, in order, named as requested and holding that request's mosaic |
| Mosaic.FailureSticks | michigan/dataprep.py:124-137 | once a prefix of the requests fails, the whole product fails with that error |
| Mosaic.StitchBands | michigan/dataprep.py:123-139 | the band loop computes the stitched product |
| Mosaic.ZeroWhereAmbiguous | michigan/dataprep.py:249 | `s2array[wm == 2] = 0` sets exactly the watermask-2 cells to 0 and changes no other cell |
| Domain.FixedSize | michigan/dataprep.py:34 | `122 * (1000 / p), 78 * (1000 / p)` under integer division: ZeroDivisionError exactly for p = 0, otherwise 122 q and 78 q for the whole pixels per km q |
| Domain.SbdSize | michigan/dataprep.py:30-40 | with 60 m pixels the Sandy Bear Dunes domain is 1952 x 1248 pixels |
| Domain.SeqMin | michigan/dataprep.py:167-168 | `min` of a non-empty list is one of its elements and no element is smaller |
| Domain.SeqMax | michigan/dataprep.py:167-168 | `max` of a non-empty list is one of its elements and no element is larger |
| Domain.ExtentOf | michigan/dataprep.py:167-168 | the extent is the tightest box holding every point; ValueError exactly when a list is empty |
| Domain.BlocksMembers | michigan/dataprep.py:146-148 | a name is in the concatenated sorted blocks exactly when the matches of one of the keys hold it |
| Domain.GranuleOrderMembers | michigan/dataprep.py:146-148 | a directory is listed exactly when it matches one of the granules' patterns |
| Domain.GranuleOrderBlock | michigan/dataprep.py:147-148 | each granule's sorted matches follow the blocks of the granules before it |
| Domain.GranuleDirs | michigan/dataprep.py:146-148 | the granule loop builds the granule order |
| Domain.CornersSucceed | michigan/dataprep.py:155-157 | the corner loop fails exactly when some granule has no band-1 image |
| Domain.CornersGathered | michigan/dataprep.py:155-164 | every corner coordinate of every granule is in the gathered lists |
| Domain.GatherCorners | michigan/dataprep.py:152-164 | the corner loop computes the gathered lists |
| Domain.CornerFailureSticks | michigan/dataprep.py:155-157 | once a prefix of the granules fails, the corner loop fails with that error |
| Domain.ExtentCoversCorners | michigan/dataprep.py:155-168 | the derived extent contains every corner of every granule |
| Domain.NoGranuleFails | michigan/dataprep.py:167 | with no granule directory the unbound loop variable raises NameError |
| Domain.DerivedExtentSucceeds | michigan/dataprep.py:155-168 | directories that all have a band-1 image, the first with a non-empty outline, give an extent |
| Domain.SceneOf | michigan_fuse/dataprep.py:130-151 | the granule and corner loops compute the scene |
| Domain.SceneProperties | michigan_fuse/dataprep.py:130-151 | a scene lists exactly the directories matching the fixed granules, and its extent contains every corner of each |
| Bathymetry.BottomCell | michigan/fusion.py:98 | the depth is NaN exactly at land (h >= 0) and unknown cells, and elsewhere positive and equal to -h |
| Bathymetry.Bottom | michigan/fusion.py:92-99 | the depth field has the elevation grid's shape |
| Bathymetry.LandMask | michigan/fusion.py:104 | the land mask has the depth field's shape |
| Bathymetry.LandMaskOfBottom | michigan/fusion.py:101-105 | the land mask is 1 exactly where the elevation is >= 0 or unknown, NaN at every water cell |
| Bathymetry.HMaskSpec | michigan/fusion.py:107-114 | the depth-range mask has the depth field's shape |
| Bathymetry.HMaskCell | michigan/fusion.py:109-112 | depths deeper than h_max, or shallower than a given h_min, become mask_val; other cells are unchanged |
| Bathymetry.ApplyHMask | michigan/fusion.py:107-114 | the masked assignments in place compute the depth-range mask |
| Bathymetry.DepthMaskShaped | michigan/fusion.py:127-129 | the depth mask has the domain's shape |
| Bathymetry.DepthMaskCell | michigan/fusion.py:126-129 | a cell is depth-masked exactly when it is land, unknown or deeper than h_max |
| Hires.NullCellsAt | michigan/fusion.py:118 | `x[:, m] = nan` keeps the shape, writes NaN at exactly the masked cells of every band, and keeps every other cell |
| Hires.OutOfSwathCells | michigan/fusion.py:70 | where band 0 is exactly 0 every band becomes NaN; elsewhere nothing changes |
| Hires.MaskUnion | michigan/fusion.py:122-134 | the sequential mask equals the union of the watermask, depth and cloud tests on the original cube: masked cells are NaN in every band, others keep their values |
| Hires.MaskIdempotent | michigan/fusion.py:122-134 | masking twice with the same inputs is masking once |
| Hires.SmoothCube | michigan/fusion.py:116-120 | the filtered cube keeps the band count and shape |
| Hires.KeepBands | michigan/fusion.py:80-81 | `hires[0:5]` keeps the first bands unchanged, at most five |
| Hires.LogCube | michigan/fusion.py:83-85 | the transform keeps the band count |
| Hires.LogKeepsNaN | michigan/fusion.py:83-85 | the transform keeps the shape and every NaN cell |
| Hires.CropCube | michigan/fusion.py:137 | the crop keeps the band count |
| Hires.CropAgrees | michigan/fusion.py:136-140 | every cropped band has the clipped shape and agrees with the cube at every shared cell |
| Hires.CleanedShape | michigan/fusion.py:68-75 | out-of-swath removal and the mask keep the band count and the shape |
| Hires.RefinedShape | michigan/fusion.py:80-88 | keeping five bands, transforming and cropping give five bands when `skip` and the cropped shape when `cut` |
| Hires.StagedShape | michigan/fusion.py:68-90 | the stages keep the shape (cropped when `cut`) and the band count (five when `skip`) |
| Hires.LaterStagesKeepNaN | michigan/fusion.py:77-88 | skip, transform and crop keep a cell that is NaN in every band NaN |
| Hires.SwathCellMasked | michigan/fusion.py:70-75 | after out-of-swath removal and the optional mask, an out-of-swath cell is NaN in every band |
| Hires.SwathNullPersists | michigan/fusion.py:69-90 | without the filter, a cell that starts out of swath is NaN in every band of the final cube |
| Hires.MaskNullPersists | michigan/fusion.py:74-90 | with the mask and no filter, a watermask- or depth-selected cell is NaN in every band of the final cube |
| Hires.NullAt | michigan/fusion.py:118 | the in-place nulling computes `NullCells` of the old array |
| Hires.RemoveOutOfSwathInPlace | michigan/fusion.py:70 | the in-place out-of-swath removal computes `RemoveOutOfSwath` of the old array |
| Hires.MaskInPlace | michigan/fusion.py:122-134 | the in-place mask, each test reading the array as the previous left it, computes `MaskCube` of the old array |
| Hires.SmoothArray | michigan/fusion.py:116-120 | nulls the negative pixels in place and returns a fresh filtered array |
| Hires.KeepFirst | michigan/fusion.py:81 | a fresh array holding the first bands |
| Hires.LogBands | michigan/fusion.py:83-85 | the band-by-band loop computes the transform of the old array |
| Hires.CropArray | michigan/fusion.py:137 | a fresh array holding the top-left window |
| Hires.CleanInPlace | michigan/fusion.py:70-75 | out-of-swath removal and the optional mask in place |
| Hires.RunStages | michigan/fusion.py:68-90 | the stages in their fixed order compute `Staged` of the old array |
| Hires.Refine | michigan/fusion.py:80-88 | skip, transform and crop on the array |
| FusionCore.NegPix | michigan/fusion.py:47-48 | the negative-pixel mask exists exactly when tracked, is `band 2 < 0`, and needs a second band |
| FusionCore.InitValid | michigan/fusion.py:21-90 | a successful setup keeps cube, negative-pixel mask and index on one (cropped) shape, the mask present exactly when tracked |
| FusionCore.InitFields | michigan/fusion.py:44-90 | with the crop on and negative pixels tracked, a setup keeps the MODIS file, crops band 2's negative pixels and the 'index' band, and holds the staged reflectance cube of the Sentinel-2 file |
| FusionCore.LoresBandCells | michigan/fusion.py:148-153 | the lores band has the cube's shape, is NaN at every negative pixel and equals the looked-up band elsewhere |
| FusionCore.PairsOverSucceed | michigan/fusion.py:147-160 | for any way of building the lores bands, the loop succeeds exactly when every name has one |
| FusionCore.PairsOverAligned | michigan/fusion.py:147-160 | for any way of building the lores bands, both products have one band per name, in order, the fused one being `fuse` of the cube and the lores one |
| FusionCore.PairsSucceed | michigan/fusion.py:147-160 | the band loop succeeds exactly when every lores band can be built |
| FusionCore.PairsAligned | michigan/fusion.py:147-160 | both products have one band per name, in order, the i-th fused band being `fuse` of the cube and the i-th lores band |
| FusionCore.FusionNames | michigan/fusion.py:142-162 | an unknown set raises KeyError; otherwise both products carry `Rrs_<w>` for each wavelength of the set, in order |
| FusionCore.PairsFailureSticks | michigan/fusion.py:147-160 | once a prefix of the names fails, the loop fails with that error |
| FusionCore.Fusion.constructor | michigan/fusion.py:72-90 | the object holds the fields the setup leaves |
| FusionCore.Fusion.Create | michigan/fusion.py:21-90 | `__init__` fails exactly when the setup does, with its error, and otherwise leaves the setup's fields on a fresh object |
| FusionCore.Fusion.FuseBands | michigan/fusion.py:142-162 | `fusion(m_wavelengths)` on the object's fields computes the band pairs |
| FusionCore.PairLoop | michigan_fuse/fusion.py:100-111 | the band loop computes the pairs |
| FusionCore.StageCube | michigan_fuse/fusion.py:50-72 | the array built from the cube and run through the stages holds `Staged` of the cube |
| Granules.GranuleLabel | scripts/01make_granules.py:31 | `split('_')[-2][1:]` succeeds exactly when the name holds a '_' |
| Granules.LabelOfTileName | scripts/01make_granules.py:31 | a file named `<prefix>_T<tile>_<rest>` is labelled with its tile |
| Granules.AllGranules | scripts/01make_granules.py:5 | the granule directories are sorted and a permutation of the matches |
| Granules.EntryFacts | scripts/01make_granules.py:17-31 | a granule contributes an entry exactly when its band-1 image exists and has a label, and then its border and label |
| Granules.SurveySucceeds | scripts/01make_granules.py:14-31 | the survey succeeds exactly when every granule has a labelled band-1 image |
| Granules.SurveyLengths | scripts/01make_granules.py:14-31 | the border and label lists have one entry per granule |
| Granules.SurveyAligned | scripts/01make_granules.py:14-31 | the per-granule lists have one entry per granule, in granule order |
| Granules.SurveyLabels | scripts/01make_granules.py:14-31 | label k is the label of granule k's band-1 image name |
| Granules.SurveyPoints | scripts/01make_granules.py:14-25 | the survey's point lists are the corner lists of the same granules |
| Granules.SurveyGranules | scripts/01make_granules.py:7-31 | the survey loop computes the survey |
| Granules.SurveyFailureSticks | scripts/01make_granules.py:14-31 | once a prefix of the granules fails, the survey fails with that error |
| Granules.ZeroAmbiguous | scripts/01make_granules.py:69 | on a watermask of the grid's shape, exactly the cells marked 2 become 0 and every other cell keeps its value |
| Granules.QuicklookCells | scripts/01make_granules.py:51-69 | a quicklook cell is 0 where the watermask is 2, otherwise the last valid band-1 value in granule order, or NaN |
| Granules.BordersInExtent | scripts/01make_granules.py:14-36 | the extent of a successful run contains every granule's border |
| Granules.MakeGranules | scripts/01make_granules.py:5-69 | the survey loop, the extent, the composite loop and the in-place zeroing compute the run |
| Granules.Quicklook | scripts/01make_granules.py:51-69 | the composite loop and the zeroing compute the quicklook |
| Modis.Int32 | michigan/dataprep.py:99 | `astype('int32')` lands in [-2^31, 2^31), is congruent to its input modulo 2^32 and keeps values already in range |
| Modis.IndexMap | michigan/dataprep.py:99 | the index map has the swath's shape |
| Modis.IndexMapCells | michigan/dataprep.py:99 | up to 2^31 pixels each index is the row-major pixel number, below rows*cols, and gives back its row and column |
| Modis.IndexMapDistinct | michigan/dataprep.py:99-100 | up to 2^31 pixels no two pixels share an index |
| Modis.IndexMapWraps | michigan/dataprep.py:99 | pixel number 2^31 is stored as -2^31 |
| Modis.GeoBandNamesLayout | michigan/dataprep.py:103-104 | the export list is 'index' then `Rrs_<w>` per wavelength, with no repeat for distinct wavelengths |
| Modis.ExportSucceeds | michigan/dataprep.py:106-111 | the export loop succeeds exactly when every name is a band of the reprojected swath |
| Modis.ExportBands | michigan/dataprep.py:106-111 | the export has one band per name, in order, carrying that name's band |
| Modis.ExportFailureSticks | michigan/dataprep.py:107-110 | once a prefix of the names fails, the export fails with that error |
| Modis.ExportLoop | michigan/dataprep.py:106-113 | the export loop computes the exported bands |
| Modis.GeoLocationBands | michigan/dataprep.py:80-113 | a geolocation needs a MODIS file and exports 'index' then `Rrs_<w>` per wavelength, each read from the reprojected swath |
| Modis.GeoLocation | michigan/dataprep.py:80-113 | the method computes the geolocation |
| Downscaling.ProductPath | michigan/dataprep.py:143-144 | the 'S2A' guard: TypeError without a file name, IOError for a name starting with 'S2A', otherwise the name |
| Downscaling.DownscaleBands | michigan/dataprep.py:141-171 | a downscaled product lies on the 60 m domain over the scene and holds one band per request, in order, named as requested and holding its mosaic |
| Downscaling.Downscale | michigan/dataprep.py:141-171 | the method computes the downscale |
| Downscaling.CodeRequests | michigan_fuse/dataprep.py:113-121 | a pattern and a wavelength name per band code; KeyError exactly when a code is not in the table |
| Downscaling.TableRequests | michigan_fuse/dataprep.py:36-50 | the sorted table codes give bands named after the Sentinel-2 wavelengths in order, band i from code i's image |
| Downscaling.CodePatternMatches | michigan_fuse/dataprep.py:113 | a code's pattern matches that band's image file name |
| Downscaling.WavelengthPatternMisses | michigan/dataprep.py:129 | a pattern from a wavelength of three or more digits matches no band-code image file name |
| Downscaling.WavelengthGlobEmpty | michigan/dataprep.py:129 | a directory holding only band-code images returns nothing for a wavelength pattern |
| Downscaling.IntendedBands | michigan_fuse/dataprep.py:107-159 | the intended product has one band per Sentinel-2 wavelength, in order, named `Rrs_<w>` and stitched from the matching code's images |
| MichiganData.NewData | michigan/dataprep.py:63-78 | ImportError exactly when neither file name is truthy; otherwise both names kept and the domain defaulted |
| MichiganData.DefaultDomain | michigan/dataprep.py:69-72 | without a domain the data lie on the 1952 x 1248 Sandy Bear Dunes domain |
| MichiganData.Stich | michigan/dataprep.py:115-139 | one band per requested number, in order, named `Rrs_<b>` and holding the mosaic of `*_B<b>.jp2` |
| MichiganData.AsWrittenFindsNoImage | michigan/dataprep.py:171 | when band image patterns return only band-code image files, the downscale as written fails, and once the product's scene is found the failure is the IndexError of `glob(...)[0]` for `*_B443.jp2` |
| MichiganData.AsWrittenCounterexample | michigan/dataprep.py:128-171 | on one product with a band-code image for every table code, the downscale as written raises IndexError while the intended downscale succeeds |
| MichiganData.S2Downscale | michigan/dataprep.py:141-174 | the downscale, with band codes as intended, computes the intended product |
| MichiganData.S2MakeGranules | michigan/dataprep.py:176-249 | the guard, then the granule survey |
| MichiganData.S2MakeGranulesResult | michigan/dataprep.py:176-211 | a survey needs a file outside the 'S2A' prefix and a granule, and its labels are those of the granules in sorted order |
| FuseData.Classify | michigan_fuse/dataprep.py:57-70 | a name starting with 'A' fills only the MODIS slot, any other name only the Sentinel-2 slot |
| FuseData.GeoLocationNeedsModis | michigan_fuse/dataprep.py:72-80 | only a file classified as MODIS can be geolocated; any other gives IOError |
| FuseData.DownscaleNeedsSentinel | michigan_fuse/dataprep.py:125-128 | a MODIS file raises TypeError in the downscale; a success needs a Sentinel-2 name outside 'S2A' with a scene |
| FuseFusion.WatermaskApplies | michigan_fuse/fusion.py:80-83 | with the mask and no filter, every cell where the filtered watermask exceeds 1 is NaN in every kept band |
| FuseFusion.OnlyTwoSets | michigan_fuse/fusion.py:95-96 | only 'full' and '1x1km_bands' are known; 'blue_off' raises KeyError; 'full' agrees with the other package |
| MichiganFusion.DepthArgCells | michigan/fusion.py:126-129 | a depth limit applies exactly when `h_mask` is not 9999, and selects land, unknown and too-deep cells |
| MichiganFusion.DepthLimitApplies | michigan/fusion.py:122-129 | with the mask, no filter and a limit, every land, unknown or too-deep cell is NaN in every kept band |
| MichiganFusion.DefaultSetBands | michigan/fusion.py:142-143 | the 'full' set gives the nine pairs `Rrs_412` to `Rrs_678`, the 1 km set six, in wavelength order |
| MichiganFusion.FullSetPairs | michigan/fusion.py:142-143 | `fusion()` without argument runs the band loop over the nine 'full' wavelengths |
| Michigan.ProcessingInit | michigan/michigan.py:11-34 | with `fuse`, a TypeError leaves no input, other errors propagate and a result gives the fused product; without, the opened file, reprojected iff `reproject` |
| Michigan.MissingSentinelCaught | michigan/michigan.py:24-29 | with no Sentinel-2 file the setup raises TypeError and the object is left without input |
| Michigan.DefaultSetup | michigan/fusion.py:21-90 | `Fusion.__init__(m_file, s_file)` with its defaults crops to 2000 x 2000, keeps band 2's cropped negative pixels and the cropped index, and stages the cube with the mask and no depth limit, no filter, five bands, no log scale |
| Michigan.FusedInput | michigan/michigan.py:24-27 | a successful `Fusion.__init__(m_file, s_file)` with its defaults followed by `fusion()` gives the object nine bands `Rrs_412` to `Rrs_678`, each `fuse` of the staged, cropped cube with the cropped MODIS band nulled at negative pixels and the cropped index |
| Michigan.FusedRunWithoutSentinel | michigan/michigan.py:24-29 | with the defaults and no Sentinel-2 file the fused run raises TypeError and the object has no input |
| Michigan.RrswGrid | michigan/michigan.py:64 | the Rrsw band keeps the shape and every NaN cell |
| Michigan.SpectralLayout | michigan/michigan.py:63-73 | per wavelength, in order, `Rrsw_<w>` from its band, then in OSW mode `Rrs_<w>` itself |
| Michigan.MaskValues | michigan/michigan.py:76-80 | mask values are 0 or 64, and 64 exactly where the depth is known and band 2 is not -0.015534 |
| Michigan.BorealiMask | michigan/michigan.py:76-80 | the mask has band 2's shape |
| Michigan.ZerosLike | michigan/michigan.py:59 | `zeros_like` has the band's shape and is 0 everywhere |
| Michigan.FinishLayout | michigan/michigan.py:74-108 | after the spectral bands come 'mask', chl, tsm, doc, mse and 'mask' again; the retrieval gets the bottom depth exactly in OSW mode |
| Michigan.BorealiLayout | michigan/michigan.py:50-111 | a success needs a known set, band 2 and every reflectance band, and lays out the spectral bands and the six final bands |
| Michigan.SpectralLoop | michigan/michigan.py:62-72 | the band loop appends exactly the spectral bands `SpectralLayout` describes |
| Michigan.FinishSteps | michigan/michigan.py:73-111 | the mask, depth choice, retrieval and result bands give what `FinishLayout` describes |
| Michigan.BorealiProcessing | michigan/michigan.py:50-111 | the method computes the processing result, including every error path |
| FuseScript.ScriptMatchesClass | scripts/06fuse.py:21-73 | on a cube holding every Sentinel-2 band the script's setup equals the fusion class's setup with its settings, bMax 20 and no depth limit |
| FuseScript.ScriptPairs | scripts/06fuse.py:87-97 | three pairs in the order 667, 555, 488 nm, each cropped and nulled at negative pixels, fused from the staged cube |
| FuseScript.ScriptCube | scripts/06fuse.py:41-73 | the staged cube has five bands on the 2000 x 2000 window, NaN wherever the filtered watermask exceeds 1 |
| FuseScript.FuseRgb | scripts/06fuse.py:21-97 | the script computes its pairs |
| DownscaleScript.StackSucceeds | scripts/03downscale.py:58-63 | the band map succeeds exactly when every band's mosaic does |
| DownscaleScript.StackLayers | scripts/03downscale.py:54-63 | one layer per band, in order, each that band's mosaic on the domain's shape |
| DownscaleScript.StackFailureSticks | scripts/03downscale.py:61 | once a prefix of the bands fails, the map fails with that error |
| DownscaleScript.Stack | scripts/03downscale.py:54-63 | the band loop computes the stack |
| DownscaleScript.ZeroRaster | scripts/03downscale.py:47 | the base raster has the domain's shape and is 0 everywhere |
| DownscaleScript.ScriptLayers | scripts/03downscale.py:19-63 | the 60 m domain over the scene, a zero base raster and eleven layers, layer i the mosaic of table band i + 1 |
| DownscaleScript.Script | scripts/03downscale.py:19-63 | the script's steps compute its output |
| DownscaleBetaScript.Take | scripts/03downscale_beta.py:91 | `s[0:n]` keeps the first min(len, n) elements |
| DownscaleBetaScript.BetaRequests | scripts/03downscale_beta.py:17-25 | the first eleven sorted codes ask for table bands 1 to 11, named after their wavelengths |
| DownscaleBetaScript.StitchedBands | scripts/03downscale_beta.py:86-94 | twelve bands: the 443 nm band twice, then bands 1 to 11 in order, each named `Rrs_<w>` and stitched from its code's images |
| DownscaleBetaScript.NoBand12 | scripts/03downscale_beta.py:91 | no band of the product is named after 2190 nm |
| DownscaleBetaScript.BetaScriptSpec | scripts/03downscale_beta.py:58-95 | the result exists exactly when stitching succeeds, and is the stitched bands reprojected onto the Sandy Bear Dunes domain |
| DownscaleBetaScript.BetaScript | scripts/03downscale_beta.py:66-95 | the script's steps compute its result |
| DownscaleBeta.BetaBands | downscale_beta.py:12-60 | eleven bands: band 1 twice, then bands 1 to 10, band n named `Rrs_<n>` and stitched from table code n |
| DownscaleBeta.Beta | downscale_beta.py:31-60 | the script's steps compute its product |

## Left out

- Reading and writing files: every `print`, `export`, `write_map`, `plt.imsave` and `np.savez_compressed` is outside the model. Nansat objects are band lists, and the values they hold come from function parameters.
- Floating point: pixel values are reals, and NaN is the `Px.NaN` constructor with numpy's comparison rules. float32 rounding, including in the comparison with -0.015534 at michigan/michigan.py:76, is not modelled. Nor is the six-decimal rounding of the extent by `'-lle %f %f %f %f'` (michigan/dataprep.py:167 and 215, michigan_fuse/dataprep.py:150, scripts/03downscale.py:43, scripts/03downscale_beta.py:86, downscale_beta.py:53, scripts/01make_granules.py:35): domains keep the exact extent.
- Opaque numerics: the Gaussian filter, `np.log10`, the Rrsw formula, bilinear or nearest-neighbour resampling, `fuse` and `Boreali.process` are parameters.
- Hires.SmoothCube: states only the shape, because the filter is opaque. For the same reason SwathNullPersists and MaskNullPersists exclude the smoothing stage.
- Hires.LogCube: states only the band count; LogKeepsNaN adds the shape and the NaN cells, because the finite case is opaque.
- Threads, `Pool(7)`, `threads=` and GCP counts: `p.map` at scripts/03downscale.py:61 is a sequential map, and its error is that of the first failing band in band order.
- michigan/fusion.py:38-40 and 56-58: the `prepare_m` and `prepare_s` branches are not modelled. As written they raise TypeError: `modis_geo_location()` is called without wavelengths, and `Data.__init__` is handed the Sentinel-2 name as the MODIS file.
- michigan/fusion.py:33-34 sets `self.domain` only when no domain is given. The fusion setup receives files already reprojected onto the domain, so the AttributeError a given domain causes is not modelled.
- michigan/fusion.py:66 calls `.values()` on the Sentinel-2 list, which raises AttributeError. The model looks up the list itself; by Sentinel2Increasing, sorting the list leaves it unchanged.
- MichiganFusion.DepthArg: `h_mask is not 9999` at michigan/fusion.py:126 is an identity test. It is modelled as value inequality, the evident intent. As written, the default at line 22 and the literal at line 126 are constants of different code objects, so under CPython 2 they are distinct int objects. The test is therefore true on a default run too, and `get_h_mask(9999)` then nulls every land and unknown-bathymetry cell. The model applies no depth mask on default runs.
- Projections: every derived domain takes `n.vrt.get_projection()` of the last band image opened in the corner loop (michigan/dataprep.py:167 and 215, michigan_fuse/dataprep.py:150, scripts/03downscale.py:43, scripts/03downscale_beta.py:86, downscale_beta.py:53, scripts/01make_granules.py:35), and the Sandy Bear Dunes domain uses '+proj=latlong'. `Domain.DomainDef` carries no projection, so two domains with equal extents but different projections are the same value, and the dependence on the last granule is not captured.
- michigan/michigan.py:32 opens `self.m_file`, which is never set on that path. The model opens the `m_file` argument. The missing `self.domain` at line 34 becomes the given domain or the Sandy Bear Dunes domain.
- michigan/michigan.py:27 stores the `(n_lores, n_hires)` pair as the input. The model uses the fused high-resolution product.
- The `Boreali(...)` constructor at michigan/michigan.py:58 is not modelled, nor the unit and wavelength metadata of the added bands. The `np.where` mask at lines 76-80 is modelled for grids of equal shape, not for numpy broadcasting.
- michigan/michigan.py:36-48 `get_bottom`: the land and 10 m masks it computes and discards are not modelled; its depth field is `Bathymetry.Bottom`.
- FuseData.FuseDownscale: modelled as intended. As written, michigan_fuse/dataprep.py:107-123 raises NameError at the unbound `d` (line 116) or `n_obj` (line 121), looks up `BANDS` without `self.`, and is handed wavelengths at line 155.
- The final reprojection and export after stitching, at michigan/dataprep.py:172-174 and michigan_fuse/dataprep.py:157-159, are not modelled: Downscaling.DownscaleSpec ends with the stitched product on the 60 m domain. The reprojection at scripts/03downscale_beta.py:95 is modelled.
- Nansat renaming duplicate band names: the product keeps both bands of the same name. This affects the two 'mask' bands of `boreali_processing` and the repeated first band of the vectorized scripts.
- Downscaling.CodeRequests: the KeyError for an unknown code is raised before any band is stitched. The scripts would raise it after stitching that band. Every code used comes from the table, so no result differs.
- scripts/06fuse.py:7-8 build file names from undefined `sfile` and `mfile`; the model takes the opened products as inputs. The saving loop (75-85) and the plotting (99-169) are I/O.
- The `create_domain` stub at downscale_beta.py:27-28 does nothing and is not modelled.

## Findings

| source | as written | input that shows it | evidently intended | confidence | as-written member | corrected member |
|---|---|---|---|---|---|---|
| michigan/dataprep.py:171 | `s2_downscale` hands `stich` the Sentinel-2 wavelengths, so line 129 looks for `*_B443.jp2` | a product 'P' whose IMG_DATA directories answer each band image pattern only with `*_B<cc>.jp2` files with two-character codes: the glob for `*_B443.jp2` is empty and `[0]` raises IndexError, while stitching the table codes succeeds | stitch each band code and name the band after its wavelength, as michigan_fuse/dataprep.py:121 and scripts/03downscale_beta.py:25 do | not executed | MichiganData.AsWrittenCounterexample | Downscaling.IntendedBands |
