/**
 * The Earth Engine batch scanner: per customer, a loop over the boundaries
 * that tallies scanned boundaries and alerts; per run, the customer filter
 * and the alert total. This backend writes no NDVI history and charges no
 * processing units.
 */
module GeeBatch {
  import opened Wrappers
  import opened DetectionCommon
  import opened Scanning
  import Gee = GeeDetection

  /** The report a scan reads from a deforestation result; the alert location is the centroid. */
  function DeforestView(r: Gee.DeforestationResult): (rep: DeforestReport)
    ensures !rep.writesHistory && rep.coordinates == r.centroid
  {
    DeforestReport(r.alertTriggered, r.severity, r.deforestationAreaHa, r.centroid, false)
  }

  function FireView(r: Gee.FireResult): FireReport
  {
    FireReport(r.alertTriggered, r.severity)
  }

  function Backend(detect: Boundary -> Option<Gee.DeforestationResult>,
                   detectFire: Boundary -> Option<Gee.FireResult>,
                   deliver: Alert -> Delivery): Services<Gee.DeforestationResult, Gee.FireResult>
  {
    Services(detect, DeforestView, detectFire, FireView, _ => true, deliver)
  }

  /** The results dict scan_customer returns. */
  datatype CustomerScanResult = CustomerScanResult(
    customerId: string,
    customerName: string,
    boundariesScanned: nat,
    alertsTriggered: nat,
    alerts: seq<Alert>)

  /**
   * What scanning customer `c` yields: the counter agrees with the alert
   * list, at most every boundary is scanned and at most two alerts come from
   * each boundary.
   */
  function CustomerScan(c: Customer, sv: Services<Gee.DeforestationResult, Gee.FireResult>): (r: CustomerScanResult)
    ensures r.customerId == c.id && r.customerName == c.name
    ensures r.alertsTriggered == |r.alerts|
    ensures r.boundariesScanned <= |c.boundaries|
    ensures |r.alerts| <= 2 * |c.boundaries|
  {
    ScannedCountBound(c.boundaries, sv.detect);
    ScanAlertsBound(c, c.boundaries, sv);
    var alerts := ScanAlerts(c, c.boundaries, sv);
    CustomerScanResult(c.id, c.name, ScannedCount(c.boundaries, sv.detect), |alerts|, alerts)
  }

  /**
   * The deforestation part of one boundary's scan: the boundary counts as
   * scanned once the detector returns, and a triggered result becomes an
   * alert, located at the centroid, kept only when its delivery completes.
   */
  method ScanDeforestation(c: Customer, boundary: Boundary,
                           detect: Boundary -> Option<Gee.DeforestationResult>,
                           detectFire: Boundary -> Option<Gee.FireResult>,
                           deliver: Alert -> Delivery)
    returns (scanned: bool, added: seq<Alert>)
    ensures scanned <==> detect(boundary).Some?
    ensures added == Step(c, boundary, Backend(detect, detectFire, deliver), Deforestation)
  {
    scanned := false;
    added := [];
    var deforest := detect(boundary);
    if deforest.Some? {
      var result := deforest.value;
      scanned := true;
      if result.alertTriggered {
        var alert := DeforestationAlert(c, boundary, DeforestView(result));
        var outcome := deliver(alert);
        if outcome.Delivered? {
          alert := alert.(alertId := outcome.alertId);
          added := [alert];
        }
      }
    }
  }

  /** The fire part of one boundary's scan: a triggered result becomes an alert kept only when delivered. */
  method ScanFire(c: Customer, boundary: Boundary,
                  detect: Boundary -> Option<Gee.DeforestationResult>,
                  detectFire: Boundary -> Option<Gee.FireResult>,
                  deliver: Alert -> Delivery)
    returns (added: seq<Alert>)
    ensures added == Step(c, boundary, Backend(detect, detectFire, deliver), Fire)
  {
    added := [];
    var fire := detectFire(boundary);
    if fire.Some? && fire.value.alertTriggered {
      var alert := FireAlert(c, boundary, FireView(fire.value));
      var outcome := deliver(alert);
      if outcome.Delivered? {
        alert := alert.(alertId := outcome.alertId);
        added := [alert];
      }
    }
  }

  /**
   * One pass of scan_customer's loop body: run the deforestation and the fire
   * scan, count a boundary whose detector returned, and count and append each
   * delivered alert.
   */
  method ScanBoundary(c: Customer, boundary: Boundary,
                      detect: Boundary -> Option<Gee.DeforestationResult>,
                      detectFire: Boundary -> Option<Gee.FireResult>, deliver: Alert -> Delivery,
                      boundariesScanned: nat, alertsTriggered: nat, alerts: seq<Alert>)
    returns (boundariesScanned': nat, alertsTriggered': nat, alerts': seq<Alert>)
    ensures boundariesScanned' == boundariesScanned + (if detect(boundary).Some? then 1 else 0)
    ensures alerts' == alerts + BoundaryAlerts(c, boundary, Backend(detect, detectFire, deliver))
    ensures alertsTriggered' == alertsTriggered + |alerts'| - |alerts|
  {
    boundariesScanned', alertsTriggered', alerts' := boundariesScanned, alertsTriggered, alerts;
    var scanned, deforestationAlert := ScanDeforestation(c, boundary, detect, detectFire, deliver);
    if scanned {
      boundariesScanned' := boundariesScanned' + 1;
    }
    if deforestationAlert != [] {
      alertsTriggered' := alertsTriggered' + 1;
      alerts' := alerts' + deforestationAlert;
    }

    var fireAlert := ScanFire(c, boundary, detect, detectFire, deliver);
    if fireAlert != [] {
      alertsTriggered' := alertsTriggered' + 1;
      alerts' := alerts' + fireAlert;
    }
  }

  /** scan_customer: one pass over the boundaries; each delivered alert increments the counter and is appended. */
  method ScanCustomer(c: Customer, detect: Boundary -> Option<Gee.DeforestationResult>,
                      detectFire: Boundary -> Option<Gee.FireResult>, deliver: Alert -> Delivery)
    returns (results: CustomerScanResult)
    ensures results == CustomerScan(c, Backend(detect, detectFire, deliver))
  {
    ghost var sv := Backend(detect, detectFire, deliver);
    var boundariesScanned: nat := 0;
    var alertsTriggered: nat := 0;
    var alerts: seq<Alert> := [];
    for i := 0 to |c.boundaries|
      invariant boundariesScanned == ScannedCount(c.boundaries[..i], detect)
      invariant alerts == ScanAlerts(c, c.boundaries[..i], sv)
      invariant alertsTriggered == |alerts|
    {
      ScannedCountExtend(c.boundaries, i, detect);
      ScanAlertsExtend(c, c.boundaries, i, sv);
      boundariesScanned, alertsTriggered, alerts :=
        ScanBoundary(c, c.boundaries[i], detect, detectFire, deliver, boundariesScanned, alertsTriggered, alerts);
    }
    assert c.boundaries[..|c.boundaries|] == c.boundaries;
    results := CustomerScanResult(c.id, c.name, boundariesScanned, alertsTriggered, alerts);
  }

  /** The per-customer results of a run, in customer order. */
  function ScanAll(cs: seq<Customer>, sv: Services<Gee.DeforestationResult, Gee.FireResult>): (rs: seq<CustomerScanResult>)
    ensures |rs| == |cs|
    ensures forall k :: 0 <= k < |cs| ==> rs[k] == CustomerScan(cs[k], sv)
  {
    if cs == [] then [] else ScanAll(cs[..|cs| - 1], sv) + [CustomerScan(cs[|cs| - 1], sv)]
  }

  function TotalAlerts(rs: seq<CustomerScanResult>): int
  {
    if rs == [] then 0 else TotalAlerts(rs[..|rs| - 1]) + rs[|rs| - 1].alertsTriggered
  }

  /** Scanning one more customer appends its result, and the total grows by its counter. */
  lemma ScanAllExtend(cs: seq<Customer>, i: int, sv: Services<Gee.DeforestationResult, Gee.FireResult>)
    requires 0 <= i < |cs|
    ensures ScanAll(cs[..i + 1], sv) == ScanAll(cs[..i], sv) + [CustomerScan(cs[i], sv)]
    ensures var rs := ScanAll(cs[..i], sv); var r := CustomerScan(cs[i], sv);
      TotalAlerts(rs + [r]) == TotalAlerts(rs) + r.alertsTriggered
  {
    assert cs[..i + 1][..i] == cs[..i];
    var rs := ScanAll(cs[..i], sv);
    var r := CustomerScan(cs[i], sv);
    assert (rs + [r])[..|rs|] == rs;
  }

  /** The alerts a run lists in its summary: each result's alerts, in result order. */
  function AllAlerts(rs: seq<CustomerScanResult>): seq<Alert>
  {
    if rs == [] then [] else AllAlerts(rs[..|rs| - 1]) + rs[|rs| - 1].alerts
  }

  /** The boundaries of all customers of a run. */
  function TotalBoundaries(cs: seq<Customer>): int
  {
    if cs == [] then 0 else TotalBoundaries(cs[..|cs| - 1]) + |cs[|cs| - 1].boundaries|
  }

  /** Over the results of a run, total_alerts is the number of alerts listed, at most two per boundary. */
  lemma {:induction false} RunTotals(cs: seq<Customer>, sv: Services<Gee.DeforestationResult, Gee.FireResult>)
    ensures TotalAlerts(ScanAll(cs, sv)) == |AllAlerts(ScanAll(cs, sv))|
    ensures TotalAlerts(ScanAll(cs, sv)) <= 2 * TotalBoundaries(cs)
  {
    if cs != [] {
      var prefix := cs[..|cs| - 1];
      RunTotals(prefix, sv);
      var rs := ScanAll(cs, sv);
      assert rs[..|rs| - 1] == ScanAll(prefix, sv);
      var last := CustomerScan(cs[|cs| - 1], sv);
      assert rs[|rs| - 1] == last;
    }
  }

  /** What run_batch_scan computes: all per-customer results and the alert total. */
  datatype BatchScan = BatchScan(results: seq<CustomerScanResult>, totalAlerts: int)

  function BatchOf(cs: seq<Customer>, sv: Services<Gee.DeforestationResult, Gee.FireResult>): BatchScan
  {
    var rs := ScanAll(cs, sv);
    BatchScan(rs, TotalAlerts(rs))
  }

  /** The loop of run_batch_scan over the selected customers: scan each, collect the results, sum the alerts. */
  method ScanCustomers(selected: seq<Customer>,
                       detect: Boundary -> Option<Gee.DeforestationResult>,
                       detectFire: Boundary -> Option<Gee.FireResult>, deliver: Alert -> Delivery)
    returns (batch: BatchScan)
    ensures batch == BatchOf(selected, Backend(detect, detectFire, deliver))
  {
    ghost var sv := Backend(detect, detectFire, deliver);
    var allResults: seq<CustomerScanResult> := [];
    var totalAlerts := 0;
    for i := 0 to |selected|
      invariant allResults == ScanAll(selected[..i], sv)
      invariant totalAlerts == TotalAlerts(allResults)
    {
      ScanAllExtend(selected, i, sv);
      var result := ScanCustomer(selected[i], detect, detectFire, deliver);
      allResults := allResults + [result];
      totalAlerts := totalAlerts + result.alertsTriggered;
    }
    assert selected[..|selected|] == selected;
    batch := BatchScan(allResults, totalAlerts);
  }

  /**
   * run_batch_scan: a non-empty `customerId` keeps the matching customers
   * only, and a run with none of them stops with None; otherwise every
   * selected customer is scanned.
   */
  method RunBatchScan(customers: seq<Customer>, customerId: Option<string>,
                      detect: Boundary -> Option<Gee.DeforestationResult>,
                      detectFire: Boundary -> Option<Gee.FireResult>, deliver: Alert -> Delivery)
    returns (r: Option<BatchScan>)
    ensures r.None? <==> Selected(customers, customerId).None?
    ensures r.Some? ==>
      r.value == BatchOf(Selected(customers, customerId).value, Backend(detect, detectFire, deliver))
  {
    var selected := customers;
    if customerId.Some? && customerId.value != "" {
      selected := FilterCustomers(customers, customerId.value);
      if selected == [] {
        return None;
      }
    }
    var batch := ScanCustomers(selected, detect, detectFire, deliver);
    r := Some(batch);
  }
}
