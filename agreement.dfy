/**
 * How the two backends' deforestation rules relate: the Earth Engine pixel
 * mask applies, pixel by pixel, the same test the Sentinel Hub backend
 * applies to the period means, and the two alert rules coincide for a
 * positive minimum area.
 */
module BackendAgreement {
  import opened Wrappers
  import SH = SentinelHubDetection
  import Gee = GeeDetection

  /** The mask predicate and the mean-based loss test are the same condition. */
  lemma MaskMatchesMeanRule(previous: real, recent: real, ndviThreshold: real)
    ensures Gee.DeforestedPixel(previous - recent, previous, ndviThreshold)
        <==> SH.SignificantLoss(previous, recent, ndviThreshold)
  {
  }

  /**
   * Over a boundary of positive area whose pixels all show the same two NDVI
   * values, Earth Engine flags a positive area exactly when the Sentinel Hub
   * decision produces an area estimate for those means.
   */
  lemma UniformBoundaryAgreement(pixels: seq<Gee.Pixel>, previous: real, recent: real,
                                 boundaryAreaHa: real, ndviThreshold: real, minAreaHa: real)
    requires forall p :: p in pixels ==> p.ndviPrevious == previous && p.ndviRecent == recent
    requires Gee.TotalAreaM2(pixels) > 0.0
    ensures Gee.MaskedAreaM2(pixels, ndviThreshold) > 0.0
        <==> SH.Decide(Some(previous), Some(recent), boundaryAreaHa, ndviThreshold, minAreaHa).areaHa.Some?
  {
    Gee.UniformChangeAllOrNothing(pixels, previous, recent, ndviThreshold);
  }

  /**
   * The Earth Engine rule additionally refuses a zero area; for a positive
   * minimum area that extra test never matters and both rules read "area at
   * least minAreaHa".
   */
  lemma AlertRulesAgree(areaHa: Option<real>, minAreaHa: real)
    ensures Gee.AlertRule(areaHa, minAreaHa) ==> areaHa.Some? && areaHa.value >= minAreaHa
    ensures minAreaHa > 0.0 ==>
      (Gee.AlertRule(areaHa, minAreaHa) <==> areaHa.Some? && areaHa.value >= minAreaHa)
    ensures !Gee.AlertRule(Some(0.0), minAreaHa)
  {
  }
}
