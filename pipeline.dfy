/**
 * The script end to end: selection, `scaleLst`, `calcIndices`, and the
 * projection of every scene onto its `lai` band.
 */
module Pipeline {
  import opened Wrappers
  import opened Scenes
  import opened Selection
  import opened Scaling
  import opened Indices

  /** `lai = landsat.map(img => img.select('lai'))`, per scene, passing earlier failures on. */
  function ExtractLai(col: seq<Result<Scene, BandError>>): (r: seq<Result<Scene, BandError>>)
    ensures |r| == |col|
    ensures forall i :: 0 <= i < |col| && col[i].Err? ==> r[i] == col[i]
    ensures forall i :: 0 <= i < |col| && col[i].Ok? ==> r[i] == SelectLai(col[i].value)
  {
    seq(|col|, i requires 0 <= i < |col| => if col[i].Ok? then SelectLai(col[i].value) else col[i])
  }

  /** The collection `lai` of the script, computed from the two source collections. */
  function LaiCollection(cfg: Config, landsat8: seq<Scene>, landsat9: seq<Scene>): (r: seq<Result<Scene, BandError>>)
    ensures |r| == |Select(cfg, landsat8, landsat9)|
    ensures forall i :: 0 <= i < |r| && r[i].Ok? ==> r[i].value.bands.Keys == {LaiBand}
  {
    ExtractLai(CalcIndices(ScaleLst(Select(cfg, landsat8, landsat9))))
  }

  /** The LAI value the pipeline computes from a raw scene's digital numbers. */
  function RawLai(raw: Bands): Pixel
    requires NirBand in raw && RedBand in raw && BlueBand in raw
  {
    Lai(Evi(ScalePixel(ScaleOptical, raw[NirBand]),
            ScalePixel(ScaleOptical, raw[RedBand]),
            ScalePixel(ScaleOptical, raw[BlueBand])))
  }

  /** Scaling neither adds nor removes bands, so it never causes or cures a band error. */
  lemma ScaleKeepsIndicesError(bands: Bands)
    ensures IndicesError(ScaleBands(bands)) == IndicesError(bands)
  {
  }

  /**
   * What each output scene is: the i-th selected scene reduced to its `lai`
   * band, whose value is the LAI of its scaled reflectances, or the band
   * error that scene raised; metadata, and hence the order, are kept.
   */
  lemma LaiCollectionAt(cfg: Config, landsat8: seq<Scene>, landsat9: seq<Scene>, i: int)
    requires 0 <= i < |Select(cfg, landsat8, landsat9)|
    ensures var sel := Select(cfg, landsat8, landsat9);
      var out := LaiCollection(cfg, landsat8, landsat9);
      && |out| == |sel|
      && (out[i].Err? <==> IndicesError(sel[i].bands).Some?)
      && (out[i].Err? ==> out[i].error == IndicesError(sel[i].bands).value)
      && (out[i].Ok? ==>
            && out[i].value.bands.Keys == {LaiBand}
            && out[i].value.bands[LaiBand] == RawLai(sel[i].bands)
            && out[i].value.timeStart == sel[i].timeStart
            && out[i].value.cloudCover == sel[i].cloudCover)
  {
    var sel := Select(cfg, landsat8, landsat9);
    ScaleKeepsIndicesError(sel[i].bands);
    assert IsOpticalBand(NirBand) && IsOpticalBand(RedBand) && IsOpticalBand(BlueBand);
  }

  /** Every scene that comes out meets the three selection criteria. */
  lemma LaiCollectionWanted(cfg: Config, landsat8: seq<Scene>, landsat9: seq<Scene>, i: int)
    requires 0 <= i < |LaiCollection(cfg, landsat8, landsat9)|
    requires LaiCollection(cfg, landsat8, landsat9)[i].Ok?
    ensures Wanted(cfg, LaiCollection(cfg, landsat8, landsat9)[i].value)
  {
    LaiCollectionAt(cfg, landsat8, landsat9, i);
  }

  /** The scenes that come out are in ascending acquisition order. */
  lemma LaiCollectionSorted(cfg: Config, landsat8: seq<Scene>, landsat9: seq<Scene>, i: int, j: int)
    requires 0 <= i < j < |LaiCollection(cfg, landsat8, landsat9)|
    requires LaiCollection(cfg, landsat8, landsat9)[i].Ok? && LaiCollection(cfg, landsat8, landsat9)[j].Ok?
    ensures LaiCollection(cfg, landsat8, landsat9)[i].value.timeStart
         <= LaiCollection(cfg, landsat8, landsat9)[j].value.timeStart
  {
    LaiCollectionAt(cfg, landsat8, landsat9, i);
    LaiCollectionAt(cfg, landsat8, landsat9, j);
  }
}
