/**
 * Decision logic of the Google Earth Engine backend: the per-pixel
 * deforestation mask and the area it flags, the alert rule over the area
 * Earth Engine reports, the fire rule over the FIRMS pixel count, and the
 * monthly trend. Every Earth Engine query and its getInfo() is a parameter.
 */
module GeeDetection {
  import opened Wrappers
  import opened DetectionCommon

  const DefaultDaysBack: int := 30
  const DefaultNdviThreshold: real := 0.3
  const DefaultMinAreaHa: real := 0.5
  const DefaultFireDaysBack: int := 7
  const DefaultTrendMonths: int := 12

  // ---------------------------------------------------------------------------
  // Deforestation mask
  // ---------------------------------------------------------------------------

  /** One pixel of the two composites: previous and recent NDVI, and its area in square metres. */
  datatype Pixel = Pixel(ndviPrevious: real, ndviRecent: real, areaM2: real)

  /** deforestation_mask: the change exceeds the threshold and the pixel was vegetated before. */
  predicate DeforestedPixel(ndviChange: real, ndviPrevious: real, ndviThreshold: real)
  {
    ndviChange > ndviThreshold && ndviPrevious > VegetatedFloor
  }

  predicate Flagged(p: Pixel, ndviThreshold: real)
  {
    DeforestedPixel(p.ndviPrevious - p.ndviRecent, p.ndviPrevious, ndviThreshold)
  }

  /** The mask multiplied by the pixel area, summed over the boundary. */
  function MaskedAreaM2(pixels: seq<Pixel>, ndviThreshold: real): real
  {
    if pixels == [] then 0.0
    else
      var last := pixels[|pixels| - 1];
      MaskedAreaM2(pixels[..|pixels| - 1], ndviThreshold) + (if Flagged(last, ndviThreshold) then last.areaM2 else 0.0)
  }

  function TotalAreaM2(pixels: seq<Pixel>): real
  {
    if pixels == [] then 0.0 else TotalAreaM2(pixels[..|pixels| - 1]) + pixels[|pixels| - 1].areaM2
  }

  /** Square metres to hectares, as the source divides by 10000. */
  function Hectares(areaM2: real): real
  {
    areaM2 / 10000.0
  }

  /** The flagged area is never negative and never more than the whole boundary. */
  lemma {:induction false} MaskedAreaBounds(pixels: seq<Pixel>, ndviThreshold: real)
    requires forall p :: p in pixels ==> p.areaM2 >= 0.0
    ensures 0.0 <= MaskedAreaM2(pixels, ndviThreshold) <= TotalAreaM2(pixels)
  {
    if pixels != [] {
      var prefix := pixels[..|pixels| - 1];
      assert pixels == prefix + [pixels[|pixels| - 1]];
      forall p | p in prefix
        ensures p.areaM2 >= 0.0
      {
        assert p in pixels;
      }
      MaskedAreaBounds(prefix, ndviThreshold);
      assert pixels[|pixels| - 1] in pixels;
    }
  }

  /** With no flagged pixel the flagged area is zero. */
  lemma {:induction false} NoFlaggedPixelNoArea(pixels: seq<Pixel>, ndviThreshold: real)
    requires forall p :: p in pixels ==> !Flagged(p, ndviThreshold)
    ensures MaskedAreaM2(pixels, ndviThreshold) == 0.0
  {
    if pixels != [] {
      var prefix := pixels[..|pixels| - 1];
      assert pixels == prefix + [pixels[|pixels| - 1]];
      forall p | p in prefix
        ensures !Flagged(p, ndviThreshold)
      {
        assert p in pixels;
      }
      NoFlaggedPixelNoArea(prefix, ndviThreshold);
      assert pixels[|pixels| - 1] in pixels;
    }
  }

  /**
   * Under a uniform change (every pixel with the same two NDVI values) the
   * mask flags either the whole boundary or nothing.
   */
  lemma {:induction false} UniformChangeAllOrNothing(pixels: seq<Pixel>, previous: real, recent: real,
                                                     ndviThreshold: real)
    requires forall p :: p in pixels ==> p.ndviPrevious == previous && p.ndviRecent == recent
    ensures MaskedAreaM2(pixels, ndviThreshold)
         == if DeforestedPixel(previous - recent, previous, ndviThreshold) then TotalAreaM2(pixels) else 0.0
  {
    if pixels != [] {
      var prefix := pixels[..|pixels| - 1];
      assert pixels == prefix + [pixels[|pixels| - 1]];
      forall p | p in prefix
        ensures p.ndviPrevious == previous && p.ndviRecent == recent
      {
        assert p in pixels;
      }
      UniformChangeAllOrNothing(prefix, previous, recent, ndviThreshold);
      assert pixels[|pixels| - 1] in pixels;
    }
  }

  // ---------------------------------------------------------------------------
  // Deforestation result
  // ---------------------------------------------------------------------------

  /**
   * What the getInfo() calls of detect_deforestation return for the two
   * windows: boundary area, flagged area (both in hectares), the two mean
   * NDVIs, and the centroid of the flagged pixels if one was found.
   */
  datatype EarthEngineReadings = EarthEngineReadings(
    boundaryAreaHa: real,
    deforestationAreaHa: Option<real>,
    meanNdviPrevious: Option<real>,
    meanNdviRecent: Option<real>,
    centroid: Option<Coordinates>)

  /** The results dict of detect_deforestation; `severity` is None where the key is absent. */
  datatype DeforestationResult = DeforestationResult(
    customerId: string,
    boundaryName: string,
    analysisDate: int,
    periodPrevious: Period,
    periodRecent: Period,
    boundaryAreaHa: real,
    deforestationAreaHa: Option<real>,
    meanNdviPrevious: Option<real>,
    meanNdviRecent: Option<real>,
    ndviChangeThreshold: real,
    alertTriggered: bool,
    centroid: Option<Coordinates>,
    severity: Option<Severity>)

  /** The alert condition of detect_deforestation as a predicate on the reported area. */
  predicate AlertRule(areaHa: Option<real>, minAreaHa: real)
  {
    areaHa.Some? && areaHa.value != 0.0 && areaHa.value >= minAreaHa
  }

  /**
   * detect_deforestation: builds the results dict with no alert and no
   * centroid, then raises the alert when the flagged area is present, non-zero
   * and at least minAreaHa, and only then records severity and centroid.
   */
  method DetectDeforestation(customerId: string, boundaryName: string, today: int, daysBack: int,
                             ndviThreshold: real, minAreaHa: real,
                             query: ComparisonWindows -> EarthEngineReadings)
    returns (results: DeforestationResult)
    ensures ComparisonWindows(results.periodPrevious, results.periodRecent) == ComparisonPeriods(today, daysBack)
    ensures var e := query(ComparisonPeriods(today, daysBack));
      && results.boundaryAreaHa == e.boundaryAreaHa
      && results.deforestationAreaHa == e.deforestationAreaHa
      && results.meanNdviPrevious == e.meanNdviPrevious
      && results.meanNdviRecent == e.meanNdviRecent
      && results.centroid == (if results.alertTriggered then e.centroid else None)
    ensures results.alertTriggered <==> AlertRule(results.deforestationAreaHa, minAreaHa)
    ensures results.severity ==
      if results.alertTriggered then Some(ClassifySeverity(results.deforestationAreaHa.value)) else None
    ensures results.customerId == customerId && results.boundaryName == boundaryName
    ensures results.analysisDate == today && results.ndviChangeThreshold == ndviThreshold
  {
    var windows := ComparisonPeriods(today, daysBack);
    var readings := query(windows);
    results := DeforestationResult(customerId, boundaryName, today, windows.previous, windows.recent,
                                   readings.boundaryAreaHa, readings.deforestationAreaHa,
                                   readings.meanNdviPrevious, readings.meanNdviRecent, ndviThreshold,
                                   false, None, None);
    var area := results.deforestationAreaHa;
    if AlertRule(area, minAreaHa) {
      results := results.(alertTriggered := true);
      results := results.(severity := Some(ClassifySeverity(area.value)));
      if readings.centroid.Some? {
        results := results.(centroid := readings.centroid);
      }
    }
  }

  /** When no pixel is flagged, the reported area is zero and no alert can follow, whatever minAreaHa is. */
  lemma NoFlaggedPixelNoAlert(pixels: seq<Pixel>, ndviThreshold: real, minAreaHa: real)
    requires forall p :: p in pixels ==> !Flagged(p, ndviThreshold)
    ensures !AlertRule(Some(Hectares(MaskedAreaM2(pixels, ndviThreshold))), minAreaHa)
  {
    NoFlaggedPixelNoArea(pixels, ndviThreshold);
  }

  // ---------------------------------------------------------------------------
  // Fire hotspots
  // ---------------------------------------------------------------------------

  /** The results dict of detect_fire_hotspots; `severity` is None where the key is absent. */
  datatype FireResult = FireResult(
    customerId: string,
    boundaryName: string,
    analysisDate: int,
    period: Period,
    fireDetections: int,
    alertTriggered: bool,
    severity: Option<Severity>)

  /**
   * detect_fire_hotspots: `fireCount` is the summed FIRMS pixel count (None
   * when the reduction yields no value, which the source replaces by 0).
   */
  method DetectFireHotspots(customerId: string, boundaryName: string, today: int, daysBack: int,
                            fireCount: Option<int>)
    returns (results: FireResult)
    ensures results.period == Period(today - daysBack, today)
    ensures results.fireDetections == (if fireCount.Some? then fireCount.value else 0)
    ensures results.alertTriggered <==> results.fireDetections > 0
    ensures results.severity == FireSeverity(results.fireDetections)
    ensures results.customerId == customerId && results.boundaryName == boundaryName
    ensures results.analysisDate == today
  {
    var countValue := if fireCount.Some? && fireCount.value != 0 then fireCount.value else 0;
    results := FireResult(customerId, boundaryName, today, Period(today - daysBack, today), countValue, false, None);
    if results.fireDetections != 0 && results.fireDetections > 0 {
      results := results.(alertTriggered := true);
      results := results.(severity := Some(if results.fireDetections >= 5 then Critical else High));
    }
  }

  // ---------------------------------------------------------------------------
  // Monthly trend
  // ---------------------------------------------------------------------------

  /** What the statistics and image-count getInfo() calls of one window yield, or the error they raised. */
  datatype TrendFetch =
    | Fetched(meanNdvi: Option<real>, minNdvi: Option<real>, maxNdvi: Option<real>, imageCount: nat)
    | FetchFailed(message: string)

  /** One entry of the trend: a reading, or the record of an error with no mean. */
  datatype TrendEntry =
    | Reading(customerId: string, month: Period, meanNdvi: Option<real>, minNdvi: Option<real>,
              maxNdvi: Option<real>, imageCount: nat)
    | Failure(customerId: string, month: Period, error: string)

  /** The `mean_ndvi` field every entry carries. */
  function MeanOf(e: TrendEntry): Option<real>
  {
    if e.Reading? then e.meanNdvi else None
  }

  function EntryFor(customerId: string, window: Period, f: TrendFetch): TrendEntry
  {
    match f
    case Fetched(mean, min, max, count) => Reading(customerId, window, mean, min, max, count)
    case FetchFailed(message) => Failure(customerId, window, message)
  }

  /**
   * calculate_ndvi_trend: one entry per window, newest first; a window whose
   * queries raised still yields an entry, with no mean.
   */
  method CalculateNdviTrend(customerId: string, today: int, monthsBack: int, fetch: Period -> TrendFetch)
    returns (results: seq<TrendEntry>)
    ensures |results| == TrendLength(monthsBack)
    ensures forall i :: 0 <= i < |results| ==>
      results[i] == EntryFor(customerId, TrendWindow(today, i), fetch(TrendWindow(today, i)))
    ensures forall i :: 0 <= i < |results| ==>
      results[i].month == TrendWindow(today, i) && results[i].customerId == customerId
      && (fetch(TrendWindow(today, i)).FetchFailed? ==> MeanOf(results[i]) == None)
  {
    results := [];
    for i := 0 to TrendLength(monthsBack)
      invariant |results| == i
      invariant forall k :: 0 <= k < i ==>
        results[k] == EntryFor(customerId, TrendWindow(today, k), fetch(TrendWindow(today, k)))
    {
      var monthEnd := today - TrendWindowDays * i;
      var monthStart := monthEnd - TrendWindowDays;
      var window := Period(monthStart, monthEnd);
      var stats := fetch(window);
      if stats.Fetched? {
        results := results + [Reading(customerId, window, stats.meanNdvi, stats.minNdvi, stats.maxNdvi, stats.imageCount)];
      } else {
        results := results + [Failure(customerId, window, stats.message)];
      }
    }
  }
}
