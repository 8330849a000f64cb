/**
 * The data model: one Landsat scene, reduced to a single pixel per band,
 * together with the scene metadata that the selection chain inspects.
 */
module Scenes {
  import opened Wrappers

  /** The value of one band at one pixel; `None` is a masked (no-data) pixel. */
  type Pixel = Option<real>

  /** An image's bands, by band name. */
  type Bands = map<string, Pixel>

  /**
   * A scene: its bands, its `system:time_start` (milliseconds since the
   * epoch), its `CLOUD_COVER` percentage, and whether its footprint
   * intersects the study area (the geometry test itself is not modelled).
   */
  datatype Scene = Scene(bands: Bands, timeStart: int, cloudCover: real, intersectsStudyArea: bool)

  /** Why a per-scene band operation could not be carried out. */
  datatype BandError =
    | MissingBand(name: string)    // a band the operation selects is absent
    | DuplicateBand(name: string)  // a band the operation appends is already present

  /**
   * The selector `'SR_B.'`, read as a regular expression that must match the
   * whole band name: the prefix `SR_B` followed by exactly one character.
   */
  predicate IsOpticalBand(name: string): (b: bool)
    ensures b <==> |name| == 5 && name[0] == 'S' && name[1] == 'R' && name[2] == '_' && name[3] == 'B'
  {
    |name| == 5 && "SR_B" <= name
  }

  /**
   * The selector `'ST_B.*'`, read as a whole-name regular expression: the
   * prefix `ST_B` followed by anything, including nothing.
   */
  predicate IsThermalBand(name: string): (b: bool)
    ensures b <==> |name| >= 4 && name[0] == 'S' && name[1] == 'T' && name[2] == '_' && name[3] == 'B'
  {
    "ST_B" <= name
  }

  /** No band is selected by both scaling selectors. */
  lemma OpticalAndThermalDisjoint(name: string)
    ensures !(IsOpticalBand(name) && IsThermalBand(name))
  {
  }

  /** The band names of every Landsat 8/9 Collection 2 Level 2 scene. */
  const LandsatL2BandNames: seq<string> :=
    ["SR_B1", "SR_B2", "SR_B3", "SR_B4", "SR_B5", "SR_B6", "SR_B7", "SR_QA_AEROSOL",
     "ST_B10", "ST_ATRAN", "ST_CDIST", "ST_DRAD", "ST_EMIS", "ST_EMSD", "ST_QA",
     "ST_TRAD", "ST_URAD", "QA_PIXEL", "QA_RADSAT"]

  /** On real Landsat band names the selectors pick the seven reflectance bands and `ST_B10`. */
  lemma LandsatBandClassification()
    ensures forall i :: 0 <= i < 7 ==> IsOpticalBand(LandsatL2BandNames[i])
    ensures forall i :: 7 <= i < |LandsatL2BandNames| ==> !IsOpticalBand(LandsatL2BandNames[i])
    ensures IsThermalBand(LandsatL2BandNames[8])
    ensures forall i :: 0 <= i < |LandsatL2BandNames| && i != 8 ==> !IsThermalBand(LandsatL2BandNames[i])
  {
  }
}
