/**
 * `scaleLst`: converts Collection 2 Level 2 digital numbers to surface
 * reflectance (bands `SR_B?`) and to surface temperature in kelvin (bands
 * `ST_B*`), overwriting the unscaled bands.
 */
module Scaling {
  import opened Wrappers
  import opened Scenes

  /** Reflectance scale factor and offset. */
  const OpticalMultiplier: real := 0.0000275
  const OpticalOffset: real := -0.2

  /** Temperature scale factor and offset. */
  const ThermalMultiplier: real := 0.00341802
  const ThermalOffset: real := 149.0

  /** `.multiply(0.0000275).add(-0.2)` on one value. */
  function ScaleOptical(v: real): (r: real)
    ensures r == v * 0.0000275 - 0.2
    ensures 0.0 <= v <= 65535.0 ==> -0.2 <= r <= 1.6022125
  {
    v * OpticalMultiplier + OpticalOffset
  }

  /** `.multiply(0.00341802).add(149.0)` on one value. */
  function ScaleThermal(v: real): (r: real)
    ensures r == v * 0.00341802 + 149.0
    ensures 0.0 <= v <= 65535.0 ==> 149.0 <= r <= 372.9999407
  {
    v * ThermalMultiplier + ThermalOffset
  }

  /** Recovers the digital number from a reflectance: the inverse of `ScaleOptical`. */
  function UnscaleOptical(r: real): (v: real)
    ensures ScaleOptical(v) == r
  {
    (r - OpticalOffset) / OpticalMultiplier
  }

  /** Recovers the digital number from a temperature: the inverse of `ScaleThermal`. */
  function UnscaleThermal(t: real): (v: real)
    ensures ScaleThermal(v) == t
  {
    (t - ThermalOffset) / ThermalMultiplier
  }

  /** Band arithmetic on one pixel: a masked pixel stays masked. */
  function ScalePixel(f: real -> real, p: Pixel): (q: Pixel)
    ensures q.Some? <==> p.Some?
  {
    match p
    case None => None
    case Some(v) => Some(f(v))
  }

  /** Both conversions are strictly increasing, so they never merge two raw values. */
  lemma ScalingStrictlyIncreasing(v: real, w: real)
    requires v < w
    ensures ScaleOptical(v) < ScaleOptical(w)
    ensures ScaleThermal(v) < ScaleThermal(w)
  {
  }

  /**
   * One image of `scaleLst`: `img.addBands(opticalBands, null, true)` then
   * `.addBands(thermalBands, null, true)`, both computed from the unscaled image.
   */
  function ScaleBands(bands: Bands): (r: Bands)
    ensures r.Keys == bands.Keys
    ensures forall n :: n in bands && IsOpticalBand(n) ==> r[n] == ScalePixel(ScaleOptical, bands[n])
    ensures forall n :: n in bands && IsThermalBand(n) ==> r[n] == ScalePixel(ScaleThermal, bands[n])
    ensures forall n :: n in bands && !IsOpticalBand(n) && !IsThermalBand(n) ==> r[n] == bands[n]
  {
    var optical := map n | n in bands && IsOpticalBand(n) :: ScalePixel(ScaleOptical, bands[n]);
    var thermal := map n | n in bands && IsThermalBand(n) :: ScalePixel(ScaleThermal, bands[n]);
    forall n | n in bands ensures !(IsOpticalBand(n) && IsThermalBand(n)) {
      OpticalAndThermalDisjoint(n);
    }
    bands + optical + thermal
  }

  /** The scene-level transform: new band values, same metadata. */
  function ScaleImage(img: Scene): (r: Scene)
    ensures r.bands == ScaleBands(img.bands)
    ensures r.timeStart == img.timeStart && r.cloudCover == img.cloudCover
    ensures r.intersectsStudyArea == img.intersectsStudyArea
  {
    img.(bands := ScaleBands(img.bands))
  }

  /** `scaleLst(col)`: `col.map` of the image transform. */
  function ScaleLst(col: seq<Scene>): (r: seq<Scene>)
    ensures |r| == |col|
    ensures forall i :: 0 <= i < |col| ==> r[i] == ScaleImage(col[i])
  {
    seq(|col|, i requires 0 <= i < |col| => ScaleImage(col[i]))
  }

  /** Scaling is undone band by band by the inverse conversions. */
  lemma {:induction false} UnscaleRecoversBands(bands: Bands, n: string)
    requires n in bands && bands[n].Some?
    ensures IsOpticalBand(n) ==> UnscaleOptical(ScaleBands(bands)[n].value) == bands[n].value
    ensures IsThermalBand(n) ==> UnscaleThermal(ScaleBands(bands)[n].value) == bands[n].value
  {
  }

  /**
   * Scaling must be applied exactly once: scaling an already scaled scene
   * changes every unmasked reflectance band whose raw value is non-negative.
   */
  lemma ScaleTwiceDiffers(bands: Bands, n: string)
    requires n in bands && IsOpticalBand(n) && bands[n].Some? && bands[n].value >= 0.0
    ensures ScaleBands(ScaleBands(bands))[n] != ScaleBands(bands)[n]
  {
  }

  /** The example: a raw reflectance of 0 becomes -0.2, and -0.2000055 when scaled again. */
  lemma ScaleTwiceExample()
    ensures ScaleBands(map["SR_B4" := Some(0.0)])["SR_B4"] == Some(-0.2)
    ensures ScaleBands(ScaleBands(map["SR_B4" := Some(0.0)]))["SR_B4"] == Some(-0.2000055)
  {
    assert IsOpticalBand("SR_B4");
  }
}
