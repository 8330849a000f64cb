/**
 * `calcIndices`: derives NDVI, EVI and LAI from the scaled reflectance
 * bands and appends them to the image; then the LAI band is isolated.
 */
module Indices {
  import opened Wrappers
  import opened Scenes
  import opened Scaling

  /** The input bands: near infrared, red and blue of Landsat 8/9 OLI. */
  const NirBand: string := "SR_B5"
  const RedBand: string := "SR_B4"
  const BlueBand: string := "SR_B2"

  /** The names of the appended bands. */
  const NdviBand: string := "ndvi"
  const EviBand: string := "evi"
  const LaiBand: string := "lai"

  /** Division on pixels: masked when either side is masked or the divisor is zero. */
  function Divide(num: Pixel, den: Pixel): (q: Pixel)
    ensures q.Some? <==> num.Some? && den.Some? && den.value != 0.0
    ensures q.Some? ==> q.value * den.value == num.value
  {
    if num.Some? && den.Some? && den.value != 0.0 then Some(num.value / den.value) else None
  }

  /** `normalizedDifference([a, b])`: (a - b) / (a + b). */
  function NormalizedDifference(a: Pixel, b: Pixel): (r: Pixel)
    ensures r.Some? <==> a.Some? && b.Some? && a.value + b.value != 0.0
    ensures r.Some? ==> r.value * (a.value + b.value) == a.value - b.value
  {
    match (a, b)
    case (Some(x), Some(y)) => Divide(Some(x - y), Some(x + y))
    case _ => None
  }

  /** `2.5 * ((nir - red) / (nir + 6 * red - 7.5 * blue + 1))`. */
  function Evi(nir: Pixel, red: Pixel, blue: Pixel): (r: Pixel)
    ensures r.Some? <==> nir.Some? && red.Some? && blue.Some?
                         && nir.value + 6.0 * red.value - 7.5 * blue.value + 1.0 != 0.0
    ensures r.Some? ==> r.value * (nir.value + 6.0 * red.value - 7.5 * blue.value + 1.0)
                        == 2.5 * (nir.value - red.value)
  {
    match (nir, red, blue)
    case (Some(n), Some(r), Some(b)) =>
      var q := Divide(Some(n - r), Some(n + 6.0 * r - 7.5 * b + 1.0));
      if q.Some? then Some(2.5 * q.value) else None
    case _ => None
  }

  /** `3.618 * evi - 0.118`, not clamped. */
  function Lai(evi: Pixel): (r: Pixel)
    ensures r.Some? <==> evi.Some?
  {
    match evi
    case None => None
    case Some(e) => Some(3.618 * e - 0.118)
  }

  /** NDVI lies in [-1, 1] when both reflectances are non-negative and not both zero. */
  lemma NdviBounds(nir: real, red: real)
    requires nir >= 0.0 && red >= 0.0 && nir + red > 0.0
    ensures NormalizedDifference(Some(nir), Some(red)).Some?
    ensures -1.0 <= NormalizedDifference(Some(nir), Some(red)).value <= 1.0
  {
  }

  /**
   * Without a mask on negative reflectances, NDVI can leave [-1, 1]: raw
   * digital numbers 10000 (near infrared) and 0 (red) give -2.2.
   */
  lemma NdviOutOfRangeExample()
    ensures NormalizedDifference(Some(ScaleOptical(10000.0)), Some(ScaleOptical(0.0))) == Some(-2.2)
  {
  }

  /**
   * NDVI leaves [-1, 1] exactly when the two reflectances have strictly
   * opposite signs.
   */
  lemma {:induction false} NdviOutOfRangeIffOppositeSigns(nir: real, red: real)
    requires nir + red != 0.0
    ensures NormalizedDifference(Some(nir), Some(red)).Some?
    ensures var d := NormalizedDifference(Some(nir), Some(red)).value;
      !(-1.0 <= d <= 1.0) <==> (nir < 0.0 < red || red < 0.0 < nir)
  {
    var d := NormalizedDifference(Some(nir), Some(red)).value;
    var s := nir + red;
    var lo, hi := 1.0 - d, 1.0 + d;
    assert lo * s == 2.0 * red;
    assert hi * s == 2.0 * nir;
    SignOfProduct(lo, s);
    SignOfProduct(hi, s);
  }

  /** The sign of a product with a non-zero factor `s` follows the other factor. */
  lemma SignOfProduct(x: real, s: real)
    requires s != 0.0
    ensures x * s > 0.0 <==> (x > 0.0 && s > 0.0) || (x < 0.0 && s < 0.0)
    ensures x * s < 0.0 <==> (x > 0.0 && s < 0.0) || (x < 0.0 && s > 0.0)
  {
    if x > 0.0 && s > 0.0 { assert x * s > 0.0; }
  }

  /** LAI is strictly increasing in EVI and can be negative. */
  lemma LaiStrictlyIncreasing(e1: real, e2: real)
    requires e1 < e2
    ensures Lai(Some(e1)).value < Lai(Some(e2)).value
  {
  }

  /** Without clamping, an EVI of zero gives LAI -0.118. */
  lemma LaiNotClamped()
    ensures Lai(Some(0.0)) == Some(-0.118)
  {
  }

  /** Is every input band of `calcIndices` present, and none of its output bands? */
  function IndicesError(bands: Bands): (e: Option<BandError>)
    ensures e.None? <==> NirBand in bands && RedBand in bands && BlueBand in bands
                         && NdviBand !in bands && EviBand !in bands && LaiBand !in bands
    ensures e.Some? && e.value.MissingBand? ==> e.value.name in {NirBand, RedBand, BlueBand} && e.value.name !in bands
    ensures e.Some? && e.value.DuplicateBand? ==> e.value.name in {NdviBand, EviBand, LaiBand} && e.value.name in bands
  {
    if NirBand !in bands then Some(MissingBand(NirBand))
    else if RedBand !in bands then Some(MissingBand(RedBand))
    else if BlueBand !in bands then Some(MissingBand(BlueBand))
    else if NdviBand in bands then Some(DuplicateBand(NdviBand))
    else if EviBand in bands then Some(DuplicateBand(EviBand))
    else if LaiBand in bands then Some(DuplicateBand(LaiBand))
    else None
  }

  /**
   * One image of `calcIndices`: `img.addBands(ndvi).addBands(evi).addBands(lai)`,
   * where `lai` is computed from the `evi` band.
   */
  function DeriveBands(bands: Bands): (r: Result<Bands, BandError>)
    ensures r.Err? <==> IndicesError(bands).Some?
    ensures r.Err? ==> r.error == IndicesError(bands).value
    ensures r.Ok? ==> r.value.Keys == bands.Keys + {NdviBand, EviBand, LaiBand}
    ensures r.Ok? ==> forall n :: n in bands ==> r.value[n] == bands[n]
    ensures r.Ok? ==> r.value[NdviBand] == NormalizedDifference(bands[NirBand], bands[RedBand])
    ensures r.Ok? ==> r.value[EviBand] == Evi(bands[NirBand], bands[RedBand], bands[BlueBand])
    ensures r.Ok? ==> r.value[LaiBand] == Lai(r.value[EviBand])
  {
    match IndicesError(bands)
    case Some(e) => Err(e)
    case None =>
      var ndvi := NormalizedDifference(bands[NirBand], bands[RedBand]);
      var evi := Evi(bands[NirBand], bands[RedBand], bands[BlueBand]);
      var lai := Lai(evi);
      Ok(bands[NdviBand := ndvi][EviBand := evi][LaiBand := lai])
  }

  /** The scene-level transform of `calcIndices`: new bands, same metadata. */
  function CalcIndicesImage(img: Scene): (r: Result<Scene, BandError>)
    ensures r.Ok? <==> DeriveBands(img.bands).Ok?
    ensures r.Err? ==> r.error == DeriveBands(img.bands).error
    ensures r.Ok? ==> r.value == img.(bands := DeriveBands(img.bands).value)
  {
    match DeriveBands(img.bands)
    case Err(e) => Err(e)
    case Ok(b) => Ok(img.(bands := b))
  }

  /** `calcIndices(col)`: `col.map` of the image transform, each scene failing on its own. */
  function CalcIndices(col: seq<Scene>): (r: seq<Result<Scene, BandError>>)
    ensures |r| == |col|
    ensures forall i :: 0 <= i < |col| ==> r[i] == CalcIndicesImage(col[i])
  {
    seq(|col|, i requires 0 <= i < |col| => CalcIndicesImage(col[i]))
  }

  /** `img.select('lai')`: only the `lai` band, same metadata. */
  function SelectLai(img: Scene): (r: Result<Scene, BandError>)
    ensures r.Err? <==> LaiBand !in img.bands
    ensures r.Err? ==> r.error == MissingBand(LaiBand)
    ensures r.Ok? ==> r.value.bands.Keys == {LaiBand} && r.value.bands[LaiBand] == img.bands[LaiBand]
    ensures r.Ok? ==> r.value.timeStart == img.timeStart && r.value.cloudCover == img.cloudCover
    ensures r.Ok? ==> r.value.intersectsStudyArea == img.intersectsStudyArea
  {
    if LaiBand in img.bands then Ok(img.(bands := map[LaiBand := img.bands[LaiBand]])) else Err(MissingBand(LaiBand))
  }

  /** The worked example: SR_B2 = 0.1, SR_B4 = 0.2, SR_B5 = 0.4. */
  lemma WorkedExample()
    ensures var r := DeriveBands(map[BlueBand := Some(0.1), RedBand := Some(0.2), NirBand := Some(0.4)]);
      && r.Ok?
      && r.value[NdviBand] == Some(1.0 / 3.0)
      && r.value[EviBand] == Some(0.5 / 1.85)
      && r.value[LaiBand] == Some(3.618 * (0.5 / 1.85) - 0.118)
  {
  }

  /**
   * Red and near infrared both zero: NDVI is masked, but EVI's divisor is
   * 1 - 7.5 * blue, so EVI and LAI stay defined unless blue is 2/15.
   */
  lemma ZeroRedAndNir(blue: real)
    ensures var r := DeriveBands(map[BlueBand := Some(blue), RedBand := Some(0.0), NirBand := Some(0.0)]);
      && r.Ok?
      && r.value[NdviBand] == None
      && (r.value[EviBand] == None <==> blue == 2.0 / 15.0)
      && (blue != 2.0 / 15.0 ==> r.value[EviBand] == Some(0.0) && r.value[LaiBand] == Some(-0.118))
  {
  }
}
