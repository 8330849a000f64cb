# Landsat Leaf Area Index pipeline, modelled in Dafny

The Earth Engine script `Landsat-LAI.js` computes a Leaf Area Index (LAI) series at 30 m for a study area. It works in four steps:

1. It merges the Landsat 8 and Landsat 9 Collection 2 Level 2 collections. It keeps the scenes acquired in 2023 that intersect the study area, sorts them by `system:time_start`, and keeps those with `CLOUD_COVER` below 10 %.
2. `scaleLst` converts digital numbers to surface reflectance (`SR_B?` bands) and to surface temperature (`ST_B*` bands). The scaled bands overwrite the raw ones.
3. `calcIndices` derives NDVI, EVI and LAI and appends them as the bands `ndvi`, `evi` and `lai`.
4. Each scene is reduced to its `lai` band.

The model is pure, like the script. A scene is a value (`Scenes.Scene`) made of:
- a map from band name to one pixel value (`Option<real>`, where `None` is a masked pixel);
- its acquisition time in milliseconds;
- its cloud cover;
- a flag for "intersects the study area".

Each stage is a Dafny function. The script's rebinding of `landsat` becomes function composition (`Pipeline.LaiCollection`). Reals are exact, so the decimal constants `0.0000275`, `-0.2`, `0.00341802`, `149.0`, `2.5`, `6`, `7.5`, `3.618` and `0.118` are represented exactly.

Modelling choices:
- Image selectors are read as regular expressions that must match the whole band name. `'SR_B.'` means `SR_B` followed by exactly one character. `'ST_B.*'` means the prefix `ST_B`.
- A pixel that is masked stays masked through every formula.
- The model makes a zero divisor give a masked pixel. This is a deliberate choice: the script does not show what Earth Engine returns there (its `divide` documents 0), and that value is not modelled.
- Band errors are per scene: the output is one `Result` per selected scene. A scene that lacks `SR_B5`, `SR_B4` or `SR_B2` fails with `MissingBand`. So does projecting a scene that has no `lai` band. A scene that already carries `ndvi`, `evi` or `lai` fails with `DuplicateBand`.
- The sort is a stable insertion sort: for every acquisition time, the scenes carrying it keep their input order (`Selection.SortStable`). So scenes with equal acquisition times keep their merge order: Landsat 8 first, then Landsat 9.
- The study period is 2023-01-01T00:00:00Z (1672531200000 ms) up to, but excluding, 2024-01-01T00:00:00Z (1704067200000 ms).

Two hand calculations that are easy to get wrong, stated as the script's expressions give them:
- Worked example. For SR_B2 = 0.1, SR_B4 = 0.2, SR_B5 = 0.4 the EVI divisor is not 1.65: the expression gives 0.4 + 1.2 − 0.75 + 1 = 1.85, so EVI is 0.5/1.85 (`Indices.WorkedExample`).
- Zero bands. Although one might expect SR_B4 = SR_B5 = 0 to leave EVI and LAI undefined, EVI's divisor is then 1 − 7.5·blue. EVI is 0 and LAI is −0.118 unless blue = 2/15 (`Indices.ZeroRedAndNir`).

## Model

| member | source | states |
|---|---|---|
| Scenes.IsOpticalBand | Landsat-LAI.js:47 | the selector `'SR_B.'`, read as a whole-name match: exactly five characters, starting `SR_B` |
| Scenes.IsThermalBand | Landsat-LAI.js:48 | the selector `'ST_B.*'`, read as a whole-name match: any name starting `ST_B` |
| Selection.StudyPeriodIsYear2023 | Landsat-LAI.js:28-29 | `startDate` is 2023-01-01T00:00Z: (2023 − 1970)·365 + 13 days after the epoch, counting the 13 leap years 1972..2020; `endDate` is 365 days later |
| Selection.InDateRange | Landsat-LAI.js:28-38 | `filterDate(startDate, endDate)` excludes its end: a scene acquired exactly at the end date fails |
| Selection.ClearEnough | Landsat-LAI.js:35-41 | `Filter.lt('CLOUD_COVER', cloudFilter)` is strict: a scene whose cloud cover equals the threshold fails |
| Selection.Filter | Landsat-LAI.js:38-41 | keeps exactly the scenes that satisfy the predicate, each output scene satisfies it, and the output is a subsequence (order kept) of the input |
| Selection.FilterCount | Landsat-LAI.js:38-41 | a filter keeps every occurrence of a wanted scene and none of an unwanted one (multiplicities) |
| Selection.FilterFilter | Landsat-LAI.js:38-39 | two filters in a row equal one filter by the conjunction |
| Selection.FilterSorted | Landsat-LAI.js:40-41 | the cloud filter applied after the sort keeps the ascending time order |
| Selection.Insert | Landsat-LAI.js:40 | inserting adds exactly one occurrence of the scene (multiset) |
| Selection.InsertSorted | Landsat-LAI.js:40 | inserting into a time-sorted collection keeps it sorted |
| Selection.SortByTime | Landsat-LAI.js:40 | `sort('system:time_start')` returns an ascending permutation of its input |
| Selection.FilterInsert | Landsat-LAI.js:38-41 | filtering commutes with inserting into a sorted collection |
| Selection.SortFilter | Landsat-LAI.js:38-41 | sorting then filtering equals filtering then sorting |
| Selection.Select | Landsat-LAI.js:35-41 | every selected scene lies in [startDate, endDate), intersects the study area and has cloud cover below the threshold; the selection is sorted by time. Its three filters are `DateFilter`, `BoundsFilter` and `CloudCoverFilter`, the lambda forms of `InDateRange`, the intersects-study-area flag and `ClearEnough` |
| Selection.SelectIsFilteredSort | Landsat-LAI.js:36-41 | the whole chain equals the sorted merge of L8 and L9 restricted to the wanted scenes |
| Selection.SelectMembership | Landsat-LAI.js:35-41 | a scene is selected if and only if it is in L8 or L9 and meets all three criteria |
| Selection.SelectCount | Landsat-LAI.js:36-41 | each wanted scene occurs in the selection as often as in L8 and L9 together; unwanted ones never occur |
| Selection.SelectIsSubsequenceOfSorted | Landsat-LAI.js:40-41 | the selection is a subsequence of the sorted merged collection |
| Selection.SelectTieOrder | Landsat-LAI.js:36-41 | two wanted scenes with equal time come out in merge order (Landsat 8 first); an earlier Landsat 9 scene comes out first |
| Selection.SortEqualTimesIdentity | Landsat-LAI.js:40 | sorting a collection whose scenes all share one acquisition time returns it unchanged |
| Selection.SortStable | Landsat-LAI.js:40 | the sort is stable: for every time t, the scenes acquired at t appear in the sorted collection in the same order as in the input |
| Selection.StartDateIncluded | Landsat-LAI.js:28-39 | a clear, in-area scene acquired exactly at the start date is selected (inclusive start) |
| Selection.BoundaryScenesRejected | Landsat-LAI.js:28-41 | a scene acquired exactly at the end date, or with exactly 10 % cloud cover, is rejected |
| Scenes.OpticalAndThermalDisjoint | Landsat-LAI.js:47-48 | no band name matches both scaling selectors, so the order of the two overwrites does not matter |
| Scenes.LandsatBandClassification | Landsat-LAI.js:47-48 | of the Level 2 band names, `SR_B1`..`SR_B7` match `SR_B.`, only `ST_B10` matches `ST_B.*`, and QA and other ST bands match neither |
| Scaling.ScaleOptical | Landsat-LAI.js:47 | `.multiply(0.0000275).add(-0.2)`: v·0.0000275 − 0.2; a 16-bit digital number (0..65535) maps into [−0.2, 1.6022125] |
| Scaling.ScaleThermal | Landsat-LAI.js:48 | `.multiply(0.00341802).add(149.0)`: v·0.00341802 + 149.0; a 16-bit digital number maps into [149, 372.9999407] kelvin |
| Scaling.ScalePixel | Landsat-LAI.js:47-48 | band arithmetic keeps the mask: the result is unmasked exactly when the input is |
| Scaling.UnscaleOptical | Landsat-LAI.js:47 | the reflectance conversion is invertible: every reflectance has a digital number that scales to it |
| Scaling.UnscaleThermal | Landsat-LAI.js:48 | the temperature conversion is invertible in the same way |
| Scaling.ScalingStrictlyIncreasing | Landsat-LAI.js:47-48 | both conversions are strictly increasing in the raw value |
| Scaling.ScaleBands | Landsat-LAI.js:47-51 | the band names are unchanged; each `SR_B?` value becomes v·0.0000275 − 0.2; each `ST_B*` value becomes v·0.00341802 + 149.0; every other band is unchanged; masked pixels stay masked |
| Scaling.ScaleImage | Landsat-LAI.js:46-52 | a scaled image has the scaled bands and the original time, cloud cover and footprint |
| Scaling.ScaleLst | Landsat-LAI.js:44-55 | `scaleLst` yields one scaled image per input image, in the same order |
| Scaling.UnscaleRecoversBands | Landsat-LAI.js:47-51 | applying the inverse conversion to a scaled band recovers the raw value |
| Scaling.ScaleTwiceDiffers | Landsat-LAI.js:47-58 | scaling is not idempotent: scaling twice changes every unmasked non-negative raw reflectance band again |
| Scaling.ScaleTwiceExample | Landsat-LAI.js:47-58 | a raw reflectance of 0 scales to −0.2 and, scaled again, to −0.2000055 |
| Indices.Divide | Landsat-LAI.js:67 | a quotient is defined exactly when both sides are unmasked and the divisor is non-zero, and then quotient × divisor = dividend |
| Indices.NormalizedDifference | Landsat-LAI.js:64-65 | NDVI is defined exactly when SR_B5 + SR_B4 ≠ 0, and then ndvi·(nir + red) = nir − red |
| Indices.Evi | Landsat-LAI.js:66-72 | EVI is defined exactly when nir + 6·red − 7.5·blue + 1 ≠ 0, and then evi times that divisor = 2.5·(nir − red) |
| Indices.Lai | Landsat-LAI.js:73-77 | LAI is defined exactly when EVI is |
| Indices.NdviBounds | Landsat-LAI.js:64-65 | with non-negative reflectances whose sum is positive, NDVI is defined and lies in [−1, 1] |
| Indices.NdviOutOfRangeExample | Landsat-LAI.js:47-65 | without a mask on negative reflectances, raw digital numbers 10000 (SR_B5) and 0 (SR_B4) give NDVI −2.2, outside [−1, 1] |
| Indices.NdviOutOfRangeIffOppositeSigns | Landsat-LAI.js:64-65 | with SR_B5 + SR_B4 ≠ 0, NDVI is defined, and it lies outside [−1, 1] exactly when the two reflectances have strictly opposite signs |
| Indices.LaiStrictlyIncreasing | Landsat-LAI.js:73-77 | LAI is strictly increasing in EVI |
| Indices.LaiNotClamped | Landsat-LAI.js:73-77 | LAI is not clamped: EVI 0 gives LAI −0.118 |
| Indices.IndicesError | Landsat-LAI.js:64-81 | a scene can be processed exactly when SR_B5, SR_B4 and SR_B2 are present and `ndvi`, `evi`, `lai` are absent; a reported missing band is one of the three inputs and is absent, a reported duplicate is one of the three outputs and is present |
| Indices.DeriveBands | Landsat-LAI.js:64-81 | on success the band names are the original ones plus `ndvi`, `evi` and `lai`; every original band keeps its value; the new bands hold NDVI(SR_B5, SR_B4), EVI(SR_B5, SR_B4, SR_B2) and 3.618·evi − 0.118; otherwise the first missing or clashing band is reported |
| Indices.CalcIndicesImage | Landsat-LAI.js:63-82 | an image succeeds exactly when its bands do, keeping its metadata |
| Indices.CalcIndices | Landsat-LAI.js:62-85 | `calcIndices` yields one result per input image, in the same order |
| Indices.SelectLai | Landsat-LAI.js:92-94 | the projection keeps exactly the band set {`lai`} with its value and the metadata, or fails with `MissingBand("lai")` if there is no such band |
| Indices.WorkedExample | Landsat-LAI.js:64-81 | SR_B2 = 0.1, SR_B4 = 0.2, SR_B5 = 0.4 give ndvi = 1/3, evi = 0.5/1.85 and lai = 3.618·0.5/1.85 − 0.118 |
| Indices.ZeroRedAndNir | Landsat-LAI.js:64-77 | with SR_B4 = SR_B5 = 0, NDVI is masked; EVI is masked exactly when blue = 2/15 and otherwise is 0, with LAI −0.118 |
| Pipeline.LaiCollection | Landsat-LAI.js:36-94 | the script's `lai` collection (selection, `scaleLst`, `calcIndices`, `select('lai')` composed): one result per selected scene, each success holding exactly the band set {`lai`}; see `LaiCollectionAt`, `LaiCollectionWanted`, `LaiCollectionSorted` |
| Pipeline.ExtractLai | Landsat-LAI.js:92-94 | applies the `lai` projection to each successful scene and passes earlier failures through, in order |
| Pipeline.ScaleKeepsIndicesError | Landsat-LAI.js:47-81 | scaling neither causes nor cures a band error in `calcIndices` |
| Pipeline.LaiCollectionAt | Landsat-LAI.js:36-94 | output i belongs to selected scene i; it fails exactly when that scene's bands make `calcIndices` fail; otherwise its band set is {`lai`}, its value is the LAI of the scaled raw SR_B5, SR_B4 and SR_B2, and its time and cloud cover are kept |
| Pipeline.LaiCollectionWanted | Landsat-LAI.js:35-94 | every successful output scene meets the date, area and cloud criteria |
| Pipeline.LaiCollectionSorted | Landsat-LAI.js:40-94 | the successful output scenes are in ascending acquisition order |

## Left out

- Map display: `Map.centerObject`, `Map.addLayer`, the painted outline, `limit(20)`, the display range and palette, and `print` (Landsat-LAI.js:19-25, 96-101). This is rendering only.
- Loading the study-area asset and the image collections (Landsat-LAI.js:15-16, 36-37). The collections are input sequences. The unused TOA collection `landsat9` is dropped.
- Geometry: the `filterBounds` intersection test is an abstract per-scene flag, not polygon arithmetic.
- The unused `timeDif` and the commented-out compositing interval (Landsat-LAI.js:30-31).
- Floating point. Values are exact reals, so IEEE rounding, NaN and infinities are not modelled. A scene is one pixel per band, not a 2-D raster with a projection.
- Earth Engine internals the script does not show:
  - masking rules inside `normalizedDifference` and `expression`, beyond "masked in, masked out". The model's own choice to mask a zero divisor stands in for Earth Engine's result there (its `divide` documents 0), which is not modelled. In particular the model does not mask negative inputs, so its NDVI leaves [−1, 1] exactly when one of SR_B5, SR_B4 scales to a negative value and the other to a positive one, e.g. any raw value below about 7273 next to one above it (`Indices.NdviOutOfRangeIffOppositeSigns`); `Indices.NdviOutOfRangeExample` shows −2.2. This is why `Indices.NdviBounds` requires non-negative reflectances;
  - the error `select` raises when a pattern matches no band;
  - the positional order of bands in an image;
  - regular-expression details such as `.` not matching a line break;
  - how `addBands` renames a clashing band (the model reports a clash as `DuplicateBand`);
  - how Earth Engine breaks ties between equal timestamps when sorting (the model keeps merge order, `Selection.SortStable`, `Selection.SelectTieOrder`).
- Selection.SortByTime: the tie-break of equal timestamps follows the stable insertion sort (`Selection.SortStable`), because Earth Engine does not document its own.
- Lazy, distributed evaluation of `col.map` (Landsat-LAI.js:46, 63, 92). The maps are ordinary sequence maps. Whether one failing scene aborts the whole collection is not visible in the script; the model isolates failures per scene.
- Catalog unavailability (a data-source error) is outside the model, because the catalog is not modelled.
