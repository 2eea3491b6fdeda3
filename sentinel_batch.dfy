/**
 * The Sentinel Hub batch scanner: per customer, a loop over the boundaries
 * that tallies processing units, scanned boundaries and alerts; per run, the
 * customer filter and the totals. The detectors, the history insert and the
 * alert delivery are parameters.
 */
module SentinelHubBatch {
  import opened Wrappers
  import opened DetectionCommon
  import opened Scanning
  import SH = SentinelHubDetection

  /** Hectares assumed for a boundary record without a `hectares` key. */
  const DefaultHectares: real := 1000.0

  /** Python's int() of a number: truncation toward zero. */
  function Truncate(x: real): (n: int)
    ensures x >= 0.0 ==> n as real <= x < n as real + 1.0
    ensures x < 0.0 ==> n as real - 1.0 < x <= n as real
  {
    if x >= 0.0 then x.Floor else -((-x).Floor)
  }

  /**
   * The processing-unit estimate of one boundary and one period: 0.8 units per
   * 100 hectares, truncated, and never less than one.
   */
  function EstimatedPu(hectares: Option<real>): (pu: int)
    ensures pu >= 1
    ensures var h := if hectares.Some? then hectares.value else DefaultHectares;
      (h / 100.0 * 0.8 < 1.0 ==> pu == 1)
      && (h / 100.0 * 0.8 >= 1.0 ==> pu as real <= h / 100.0 * 0.8 < pu as real + 1.0)
  {
    var h := if hectares.Some? then hectares.value else DefaultHectares;
    var estimate := Truncate(h / 100.0 * 0.8);
    if estimate > 1 then estimate else 1
  }

  /** A boundary without an area is estimated at 8 units per period. */
  lemma DefaultBoundaryPu()
    ensures EstimatedPu(None) == 8
  {
    assert DefaultHectares / 100.0 * 0.8 == 8.0;
  }

  /** A larger boundary is never estimated at fewer units. */
  lemma EstimatedPuMonotone(h1: real, h2: real)
    requires h1 <= h2
    ensures EstimatedPu(Some(h1)) <= EstimatedPu(Some(h2))
  {
    var x1, x2 := h1 / 100.0 * 0.8, h2 / 100.0 * 0.8;
    assert x1 <= x2;
    if x1 >= 1.0 {
      assert Truncate(x1) as real <= x1 <= x2 < Truncate(x2) as real + 1.0;
    }
  }

  /** pu_used of a scan over `bs`: two periods' estimate per boundary, whatever the detectors do. */
  function PuUsed(bs: seq<Boundary>): int
  {
    if bs == [] then 0 else PuUsed(bs[..|bs| - 1]) + EstimatedPu(bs[|bs| - 1].hectares) * 2
  }

  lemma PuUsedExtend(bs: seq<Boundary>, i: int)
    requires 0 <= i < |bs|
    ensures PuUsed(bs[..i + 1]) == PuUsed(bs[..i]) + EstimatedPu(bs[i].hectares) * 2
  {
    assert bs[..i + 1][..i] == bs[..i];
  }

  lemma {:induction false} PuUsedLowerBound(bs: seq<Boundary>)
    ensures PuUsed(bs) >= 2 * |bs|
  {
    if bs != [] {
      PuUsedLowerBound(bs[..|bs| - 1]);
    }
  }

  /** The report a scan reads from a deforestation result; the history row is written for a non-zero recent mean. */
  function DeforestView(r: SH.DeforestationResult): (rep: DeforestReport)
    ensures rep.writesHistory <==> r.meanNdviRecent.Some? && r.meanNdviRecent.value != 0.0
  {
    DeforestReport(r.alertTriggered, r.severity, r.deforestationAreaHa, r.coordinates,
                   r.meanNdviRecent.Some? && r.meanNdviRecent.value != 0.0)
  }

  function FireView(r: SH.FireResult): FireReport
  {
    FireReport(r.alertTriggered, r.severity)
  }

  function Backend(detect: Boundary -> Option<SH.DeforestationResult>,
                   detectFire: Boundary -> Option<SH.FireResult>,
                   saveHistory: Boundary -> bool,
                   deliver: Alert -> Delivery): Services<SH.DeforestationResult, SH.FireResult>
  {
    Services(detect, DeforestView, detectFire, FireView, saveHistory, deliver)
  }

  /** The results dict scan_customer returns. */
  datatype CustomerScanResult = CustomerScanResult(
    customerId: string,
    customerName: string,
    boundariesScanned: nat,
    alertsTriggered: nat,
    alerts: seq<Alert>,
    puUsed: int)

  /**
   * What scanning customer `c` yields: the counters agree with the alert
   * list, at most every boundary is scanned, at most two alerts come from
   * each boundary, and at least two units are charged per boundary.
   */
  function CustomerScan(c: Customer, sv: Services<SH.DeforestationResult, SH.FireResult>): (r: CustomerScanResult)
    ensures r.customerId == c.id && r.customerName == c.name
    ensures r.alertsTriggered == |r.alerts|
    ensures r.boundariesScanned <= |c.boundaries|
    ensures |r.alerts| <= 2 * |c.boundaries|
    ensures r.puUsed >= 2 * |c.boundaries|
  {
    ScannedCountBound(c.boundaries, sv.detect);
    ScanAlertsBound(c, c.boundaries, sv);
    PuUsedLowerBound(c.boundaries);
    var alerts := ScanAlerts(c, c.boundaries, sv);
    CustomerScanResult(c.id, c.name, ScannedCount(c.boundaries, sv.detect), |alerts|, alerts,
                       PuUsed(c.boundaries))
  }

  /**
   * The deforestation part of one boundary's scan: the boundary counts as
   * scanned once the detector returns; a non-zero recent mean is written to
   * the history first, and a triggered result becomes an alert that is kept
   * only when its delivery completes.
   */
  method ScanDeforestation(c: Customer, boundary: Boundary,
                           detect: Boundary -> Option<SH.DeforestationResult>,
                           detectFire: Boundary -> Option<SH.FireResult>,
                           saveHistory: Boundary -> bool, deliver: Alert -> Delivery)
    returns (scanned: bool, added: seq<Alert>)
    ensures scanned <==> detect(boundary).Some?
    ensures added == Step(c, boundary, Backend(detect, detectFire, saveHistory, deliver), Deforestation)
  {
    scanned := false;
    added := [];
    var deforest := detect(boundary);
    if deforest.Some? {
      var result := deforest.value;
      scanned := true;
      var historySaved := true;
      if result.meanNdviRecent.Some? && result.meanNdviRecent.value != 0.0 {
        historySaved := saveHistory(boundary);
      }
      if historySaved && result.alertTriggered {
        var alert := DeforestationAlert(c, boundary, DeforestView(result));
        var outcome := deliver(alert);
        if outcome.Delivered? {
          alert := alert.(alertId := outcome.alertId);
          added := [alert];
        }
      }
    }
  }

  /** The fire part of one boundary's scan: a triggered result becomes an alert kept only when delivered. */
  method ScanFire(c: Customer, boundary: Boundary,
                  detect: Boundary -> Option<SH.DeforestationResult>,
                  detectFire: Boundary -> Option<SH.FireResult>,
                  saveHistory: Boundary -> bool, deliver: Alert -> Delivery)
    returns (added: seq<Alert>)
    ensures added == Step(c, boundary, Backend(detect, detectFire, saveHistory, deliver), Fire)
  {
    added := [];
    var fire := detectFire(boundary);
    if fire.Some? && fire.value.alertTriggered {
      var alert := FireAlert(c, boundary, FireView(fire.value));
      var outcome := deliver(alert);
      if outcome.Delivered? {
        alert := alert.(alertId := outcome.alertId);
        added := [alert];
      }
    }
  }

  /**
   * One pass of scan_customer's loop body: charge the boundary's estimated
   * processing units for both requests, run the deforestation and the fire
   * scan, count a boundary whose detector returned, and count and append
   * each delivered alert.
   */
  method ScanBoundary(c: Customer, boundary: Boundary,
                      detect: Boundary -> Option<SH.DeforestationResult>,
                      detectFire: Boundary -> Option<SH.FireResult>,
                      saveHistory: Boundary -> bool, deliver: Alert -> Delivery,
                      boundariesScanned: nat, alertsTriggered: nat, alerts: seq<Alert>, puUsed: int)
    returns (boundariesScanned': nat, alertsTriggered': nat, alerts': seq<Alert>, puUsed': int)
    ensures boundariesScanned' == boundariesScanned + (if detect(boundary).Some? then 1 else 0)
    ensures alerts' == alerts + BoundaryAlerts(c, boundary, Backend(detect, detectFire, saveHistory, deliver))
    ensures alertsTriggered' == alertsTriggered + |alerts'| - |alerts|
    ensures puUsed' == puUsed + EstimatedPu(boundary.hectares) * 2
  {
    boundariesScanned', alertsTriggered', alerts' := boundariesScanned, alertsTriggered, alerts;
    var estimatedPu := EstimatedPu(boundary.hectares);
    puUsed' := puUsed + estimatedPu * 2;

    var scanned, deforestationAlert := ScanDeforestation(c, boundary, detect, detectFire, saveHistory, deliver);
    if scanned {
      boundariesScanned' := boundariesScanned' + 1;
    }
    if deforestationAlert != [] {
      alertsTriggered' := alertsTriggered' + 1;
      alerts' := alerts' + deforestationAlert;
    }

    var fireAlert := ScanFire(c, boundary, detect, detectFire, saveHistory, deliver);
    if fireAlert != [] {
      alertsTriggered' := alertsTriggered' + 1;
      alerts' := alerts' + fireAlert;
    }
  }

  /**
   * scan_customer: one pass over the boundaries. The unit estimate is charged
   * before detection, so whatever the detectors do; each delivered alert
   * increments the counter and is appended to the list.
   */
  method ScanCustomer(c: Customer, detect: Boundary -> Option<SH.DeforestationResult>,
                      detectFire: Boundary -> Option<SH.FireResult>,
                      saveHistory: Boundary -> bool, deliver: Alert -> Delivery)
    returns (results: CustomerScanResult)
    ensures results == CustomerScan(c, Backend(detect, detectFire, saveHistory, deliver))
  {
    ghost var sv := Backend(detect, detectFire, saveHistory, deliver);
    var boundariesScanned: nat := 0;
    var alertsTriggered: nat := 0;
    var alerts: seq<Alert> := [];
    var puUsed := 0;
    for i := 0 to |c.boundaries|
      invariant boundariesScanned == ScannedCount(c.boundaries[..i], detect)
      invariant alerts == ScanAlerts(c, c.boundaries[..i], sv)
      invariant alertsTriggered == |alerts|
      invariant puUsed == PuUsed(c.boundaries[..i])
    {
      ScannedCountExtend(c.boundaries, i, detect);
      PuUsedExtend(c.boundaries, i);
      ScanAlertsExtend(c, c.boundaries, i, sv);
      boundariesScanned, alertsTriggered, alerts, puUsed :=
        ScanBoundary(c, c.boundaries[i], detect, detectFire, saveHistory, deliver,
                     boundariesScanned, alertsTriggered, alerts, puUsed);
    }
    assert c.boundaries[..|c.boundaries|] == c.boundaries;
    results := CustomerScanResult(c.id, c.name, boundariesScanned, alertsTriggered, alerts, puUsed);
  }

  /** The per-customer results of a run, in customer order. */
  function ScanAll(cs: seq<Customer>, sv: Services<SH.DeforestationResult, SH.FireResult>): (rs: seq<CustomerScanResult>)
    ensures |rs| == |cs|
    ensures forall k :: 0 <= k < |cs| ==> rs[k] == CustomerScan(cs[k], sv)
  {
    if cs == [] then [] else ScanAll(cs[..|cs| - 1], sv) + [CustomerScan(cs[|cs| - 1], sv)]
  }

  function TotalAlerts(rs: seq<CustomerScanResult>): int
  {
    if rs == [] then 0 else TotalAlerts(rs[..|rs| - 1]) + rs[|rs| - 1].alertsTriggered
  }

  function TotalPu(rs: seq<CustomerScanResult>): int
  {
    if rs == [] then 0 else TotalPu(rs[..|rs| - 1]) + rs[|rs| - 1].puUsed
  }

  /** Scanning one more customer appends its result, and the totals grow by its counters. */
  lemma ScanAllExtend(cs: seq<Customer>, i: int, sv: Services<SH.DeforestationResult, SH.FireResult>)
    requires 0 <= i < |cs|
    ensures ScanAll(cs[..i + 1], sv) == ScanAll(cs[..i], sv) + [CustomerScan(cs[i], sv)]
    ensures var rs := ScanAll(cs[..i], sv); var r := CustomerScan(cs[i], sv);
      TotalAlerts(rs + [r]) == TotalAlerts(rs) + r.alertsTriggered
      && TotalPu(rs + [r]) == TotalPu(rs) + r.puUsed
  {
    assert cs[..i + 1][..i] == cs[..i];
    var rs := ScanAll(cs[..i], sv);
    var r := CustomerScan(cs[i], sv);
    assert (rs + [r])[..|rs|] == rs;
  }

  /** The alerts a run lists in its summary: each result's alerts, in result order. */
  function AllAlerts(rs: seq<CustomerScanResult>): seq<Alert>
  {
    if rs == [] then [] else AllAlerts(rs[..|rs| - 1]) + rs[|rs| - 1].alerts
  }

  /** The boundaries of all customers of a run. */
  function TotalBoundaries(cs: seq<Customer>): int
  {
    if cs == [] then 0 else TotalBoundaries(cs[..|cs| - 1]) + |cs[|cs| - 1].boundaries|
  }

  /**
   * Over the results of a run, total_alerts is the number of alerts listed,
   * at most two per boundary, and total_pu is at least two units per boundary.
   */
  lemma {:induction false} RunTotals(cs: seq<Customer>, sv: Services<SH.DeforestationResult, SH.FireResult>)
    ensures TotalAlerts(ScanAll(cs, sv)) == |AllAlerts(ScanAll(cs, sv))|
    ensures TotalAlerts(ScanAll(cs, sv)) <= 2 * TotalBoundaries(cs)
    ensures TotalPu(ScanAll(cs, sv)) >= 2 * TotalBoundaries(cs)
  {
    if cs != [] {
      var prefix := cs[..|cs| - 1];
      RunTotals(prefix, sv);
      var rs := ScanAll(cs, sv);
      assert rs[..|rs| - 1] == ScanAll(prefix, sv);
      var last := CustomerScan(cs[|cs| - 1], sv);
      assert rs[|rs| - 1] == last;
    }
  }

  /** What run_batch_scan computes: all per-customer results and the two totals. */
  datatype BatchScan = BatchScan(results: seq<CustomerScanResult>, totalAlerts: int, totalPu: int)

  function BatchOf(cs: seq<Customer>, sv: Services<SH.DeforestationResult, SH.FireResult>): BatchScan
  {
    var rs := ScanAll(cs, sv);
    BatchScan(rs, TotalAlerts(rs), TotalPu(rs))
  }

  /** The loop of run_batch_scan over the selected customers: scan each, collect the results, sum alerts and units. */
  method ScanCustomers(selected: seq<Customer>,
                       detect: Boundary -> Option<SH.DeforestationResult>,
                       detectFire: Boundary -> Option<SH.FireResult>,
                       saveHistory: Boundary -> bool, deliver: Alert -> Delivery)
    returns (batch: BatchScan)
    ensures batch == BatchOf(selected, Backend(detect, detectFire, saveHistory, deliver))
  {
    ghost var sv := Backend(detect, detectFire, saveHistory, deliver);
    var allResults: seq<CustomerScanResult> := [];
    var totalAlerts := 0;
    var totalPu := 0;
    for i := 0 to |selected|
      invariant allResults == ScanAll(selected[..i], sv)
      invariant totalAlerts == TotalAlerts(allResults)
      invariant totalPu == TotalPu(allResults)
    {
      ScanAllExtend(selected, i, sv);
      var result := ScanCustomer(selected[i], detect, detectFire, saveHistory, deliver);
      allResults := allResults + [result];
      totalAlerts := totalAlerts + result.alertsTriggered;
      totalPu := totalPu + result.puUsed;
    }
    assert selected[..|selected|] == selected;
    batch := BatchScan(allResults, totalAlerts, totalPu);
  }

  /**
   * run_batch_scan: a non-empty `customerId` keeps the matching customers
   * only, and a run with none of them stops with None; otherwise every
   * selected customer is scanned.
   */
  method RunBatchScan(customers: seq<Customer>, customerId: Option<string>,
                      detect: Boundary -> Option<SH.DeforestationResult>,
                      detectFire: Boundary -> Option<SH.FireResult>,
                      saveHistory: Boundary -> bool, deliver: Alert -> Delivery)
    returns (r: Option<BatchScan>)
    ensures r.None? <==> Selected(customers, customerId).None?
    ensures r.Some? ==>
      r.value == BatchOf(Selected(customers, customerId).value, Backend(detect, detectFire, saveHistory, deliver))
  {
    var selected := customers;
    if customerId.Some? && customerId.value != "" {
      selected := FilterCustomers(customers, customerId.value);
      if selected == [] {
        return None;
      }
    }
    var batch := ScanCustomers(selected, detect, detectFire, saveHistory, deliver);
    r := Some(batch);
  }
}
