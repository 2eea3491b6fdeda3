/**
 * What the two batch scanners share: customers and boundaries, the alert
 * records a scan collects, the opaque services a scan calls (detectors,
 * history write, alert save plus notifications), the specification of the
 * alert list one customer's scan produces, and the customer-id filter.
 *
 * Every service that can raise in the source returns an explicit outcome
 * here: a detector returns None when it raised, the history write returns
 * false, and delivery returns Raised.
 */
module Scanning {
  import opened Wrappers
  import opened DetectionCommon

  /** A monitored area; `hectares` is None when the record has no such key. */
  datatype Boundary = Boundary(id: string, name: string, hectares: Option<real>)

  datatype Customer = Customer(id: string, name: string, phone: Option<string>,
                               email: Option<string>, boundaries: seq<Boundary>)

  datatype AlertKind = Deforestation | Fire

  /** An alert as the scan keeps it, with the id the database returned for it. */
  datatype Alert = Alert(customerId: string, boundaryId: string, boundaryName: string,
                         kind: AlertKind, severity: Option<Severity>,
                         affectedHectares: Option<real>, coordinates: Option<Coordinates>,
                         alertId: Option<string>)

  /** Outcome of saving an alert and notifying the customer. */
  datatype Delivery = Delivered(alertId: Option<string>) | Raised

  /** The parts of a deforestation result a scan reads. */
  datatype DeforestReport = DeforestReport(alertTriggered: bool, severity: Option<Severity>,
                                           areaHa: Option<real>, coordinates: Option<Coordinates>,
                                           writesHistory: bool)

  /** The parts of a fire result a scan reads. */
  datatype FireReport = FireReport(alertTriggered: bool, severity: Option<Severity>)

  /**
   * The services one scan calls. `detect` and `detectFire` give None when the
   * detector raised; the views read a backend's result; `saveHistory` is
   * false when the NDVI history insert raised; `deliver` covers the alert save
   * and both notifications.
   */
  datatype Services<!D, !F> = Services(detect: Boundary -> Option<D>,
                                     deforestView: D -> DeforestReport,
                                     detectFire: Boundary -> Option<F>,
                                     fireView: F -> FireReport,
                                     saveHistory: Boundary -> bool,
                                     deliver: Alert -> Delivery)

  /** The deforestation alert built from a triggered result, before it is saved. */
  function DeforestationAlert(c: Customer, b: Boundary, rep: DeforestReport): (a: Alert)
    ensures a.kind == Deforestation && a.alertId == None
    ensures a.customerId == c.id && a.boundaryId == b.id && a.boundaryName == b.name
    ensures a.severity == rep.severity && a.affectedHectares == rep.areaHa
      && a.coordinates == rep.coordinates
  {
    Alert(c.id, b.id, b.name, Deforestation, rep.severity, rep.areaHa, rep.coordinates, None)
  }

  /** The fire alert built from a triggered result: it carries no area and no location. */
  function FireAlert(c: Customer, b: Boundary, rep: FireReport): (a: Alert)
    ensures a.kind == Fire && a.alertId == None
    ensures a.customerId == c.id && a.boundaryId == b.id && a.boundaryName == b.name
    ensures a.severity == rep.severity && a.affectedHectares == None && a.coordinates == None
  {
    Alert(c.id, b.id, b.name, Fire, rep.severity, None, None, None)
  }

  /**
   * Whether the scan of boundary `b` reaches the save of an alert of `kind`:
   * the detector returned, its result triggered, and for deforestation the
   * history write that precedes the alert did not raise.
   */
  predicate Due<D, F>(b: Boundary, sv: Services<D, F>, kind: AlertKind)
  {
    match kind
    case Deforestation =>
      sv.detect(b).Some? &&
      var rep := sv.deforestView(sv.detect(b).value);
      rep.alertTriggered && (rep.writesHistory ==> sv.saveHistory(b))
    case Fire =>
      sv.detectFire(b).Some? && sv.fireView(sv.detectFire(b).value).alertTriggered
  }

  /** The alert of `kind` that the scan of `b` would save. */
  function AlertFor<D, F>(c: Customer, b: Boundary, sv: Services<D, F>, kind: AlertKind): (a: Alert)
    requires Due(b, sv, kind)
    ensures a.kind == kind
  {
    match kind
    case Deforestation => DeforestationAlert(c, b, sv.deforestView(sv.detect(b).value))
    case Fire => FireAlert(c, b, sv.fireView(sv.detectFire(b).value))
  }

  /** What the step for one kind appends: the saved alert when it was due and delivery completed. */
  function Step<D, F>(c: Customer, b: Boundary, sv: Services<D, F>, kind: AlertKind): (r: seq<Alert>)
    ensures |r| <= 1
    ensures |r| == 1 <==> Due(b, sv, kind) && sv.deliver(AlertFor(c, b, sv, kind)).Delivered?
    ensures |r| == 1 ==> r[0] == AlertFor(c, b, sv, kind).(alertId := sv.deliver(AlertFor(c, b, sv, kind)).alertId)
  {
    if Due(b, sv, kind) then
      var a := AlertFor(c, b, sv, kind);
      match sv.deliver(a)
      case Delivered(id) => [a.(alertId := id)]
      case Raised => []
    else []
  }

  /** The alerts the scan of one boundary adds: deforestation first, then fire. */
  function BoundaryAlerts<D, F>(c: Customer, b: Boundary, sv: Services<D, F>): (r: seq<Alert>)
    ensures |r| <= 2
    ensures forall a :: a in r ==> a.customerId == c.id && a.boundaryId == b.id
    ensures |r| == 2 ==> r[0].kind == Deforestation && r[1].kind == Fire
  {
    Step(c, b, sv, Deforestation) + Step(c, b, sv, Fire)
  }

  /** The alert list of a scan over `bs`, in boundary order. */
  function ScanAlerts<D, F>(c: Customer, bs: seq<Boundary>, sv: Services<D, F>): seq<Alert>
  {
    if bs == [] then []
    else ScanAlerts(c, bs[..|bs| - 1], sv) + BoundaryAlerts(c, bs[|bs| - 1], sv)
  }

  /** Scanning one more boundary appends that boundary's alerts. */
  lemma ScanAlertsExtend<D, F>(c: Customer, bs: seq<Boundary>, i: int, sv: Services<D, F>)
    requires 0 <= i < |bs|
    ensures ScanAlerts(c, bs[..i + 1], sv) == ScanAlerts(c, bs[..i], sv) + BoundaryAlerts(c, bs[i], sv)
  {
    assert bs[..i + 1][..i] == bs[..i];
  }

  /** How many boundaries the deforestation detector returned for. */
  function ScannedCount<D>(bs: seq<Boundary>, detect: Boundary -> Option<D>): nat
  {
    if bs == [] then 0
    else ScannedCount(bs[..|bs| - 1], detect) + (if detect(bs[|bs| - 1]).Some? then 1 else 0)
  }

  /** Scanning one more boundary adds one to the count exactly when its detector returns. */
  lemma ScannedCountExtend<D>(bs: seq<Boundary>, i: int, detect: Boundary -> Option<D>)
    requires 0 <= i < |bs|
    ensures ScannedCount(bs[..i + 1], detect) == ScannedCount(bs[..i], detect) + (if detect(bs[i]).Some? then 1 else 0)
  {
    assert bs[..i + 1][..i] == bs[..i];
  }

  /** boundaries_scanned never exceeds the number of boundaries. */
  lemma {:induction false} ScannedCountBound<D>(bs: seq<Boundary>, detect: Boundary -> Option<D>)
    ensures ScannedCount(bs, detect) <= |bs|
  {
    if bs != [] {
      ScannedCountBound(bs[..|bs| - 1], detect);
    }
  }

  /** Each boundary adds at most two alerts. */
  lemma {:induction false} ScanAlertsBound<D, F>(c: Customer, bs: seq<Boundary>, sv: Services<D, F>)
    ensures |ScanAlerts(c, bs, sv)| <= 2 * |bs|
  {
    if bs != [] {
      ScanAlertsBound(c, bs[..|bs| - 1], sv);
    }
  }

  /**
   * Alert `a` is accounted for by boundary `b`: `b`'s result of that kind
   * triggered, and `a` is the alert built from that result, with the id its
   * delivery returned.
   */
  predicate Justified<D, F>(c: Customer, a: Alert, b: Boundary, sv: Services<D, F>)
  {
    Due(b, sv, a.kind) &&
    var built := AlertFor(c, b, sv, a.kind);
    sv.deliver(built) == Delivered(a.alertId) && a == built.(alertId := a.alertId)
  }

  lemma BoundaryAlertsJustified<D, F>(c: Customer, b: Boundary, sv: Services<D, F>, a: Alert)
    requires a in BoundaryAlerts(c, b, sv)
    ensures Justified(c, a, b, sv)
  {
    if a in Step(c, b, sv, Deforestation) {
      assert a == Step(c, b, sv, Deforestation)[0];
    } else {
      assert a in Step(c, b, sv, Fire);
      assert a == Step(c, b, sv, Fire)[0];
    }
  }

  /**
   * Soundness of the alert list: every alert stems from a boundary of the
   * customer whose result triggered, and copies that result's severity, area
   * and coordinates.
   */
  lemma {:induction false} ScanAlertsJustified<D, F>(c: Customer, bs: seq<Boundary>, sv: Services<D, F>)
    ensures forall a :: a in ScanAlerts(c, bs, sv) ==> exists b :: b in bs && Justified(c, a, b, sv)
  {
    if bs != [] {
      var prefix, last := bs[..|bs| - 1], bs[|bs| - 1];
      ScanAlertsJustified(c, prefix, sv);
      assert bs == prefix + [last];
      forall a | a in ScanAlerts(c, bs, sv)
        ensures exists b :: b in bs && Justified(c, a, b, sv)
      {
        if a in ScanAlerts(c, prefix, sv) {
          var b :| b in prefix && Justified(c, a, b, sv);
          assert b in bs;
        } else {
          BoundaryAlertsJustified(c, last, sv, a);
          assert last in bs;
        }
      }
    }
  }

  /** Every alert in the list names the customer; fire alerts carry no area and no location. */
  lemma FireAlertsCarryNoLocation<D, F>(c: Customer, bs: seq<Boundary>, sv: Services<D, F>)
    ensures forall a :: a in ScanAlerts(c, bs, sv) ==>
      a.customerId == c.id && (a.kind == Fire ==> a.affectedHectares == None && a.coordinates == None)
  {
    ScanAlertsJustified(c, bs, sv);
  }

  /**
   * When every triggered result carries a severity, as both backends'
   * detectors guarantee, so does every alert in the list.
   */
  lemma AlertsCarrySeverity<D, F>(c: Customer, bs: seq<Boundary>, sv: Services<D, F>)
    requires forall b :: Due(b, sv, Deforestation) ==> sv.deforestView(sv.detect(b).value).severity.Some?
    requires forall b :: Due(b, sv, Fire) ==> sv.fireView(sv.detectFire(b).value).severity.Some?
    ensures forall a :: a in ScanAlerts(c, bs, sv) ==> a.severity.Some?
  {
    ScanAlertsJustified(c, bs, sv);
    forall a | a in ScanAlerts(c, bs, sv)
      ensures a.severity.Some?
    {
      var b :| b in bs && Justified(c, a, b, sv);
      assert Due(b, sv, a.kind);
    }
  }

  /** Number of alerts of `kind` in a list. */
  function KindCount(alerts: seq<Alert>, kind: AlertKind): nat
  {
    if alerts == [] then 0
    else KindCount(alerts[..|alerts| - 1], kind) + (if alerts[|alerts| - 1].kind == kind then 1 else 0)
  }

  lemma {:induction false} KindCountAppend(x: seq<Alert>, y: seq<Alert>, kind: AlertKind)
    ensures KindCount(x + y, kind) == KindCount(x, kind) + KindCount(y, kind)
  {
    if y == [] {
      assert x + y == x;
    } else {
      assert (x + y)[..|x + y| - 1] == x + y[..|y| - 1];
      KindCountAppend(x, y[..|y| - 1], kind);
    }
  }

  /** Number of boundaries whose scan reaches the save of an alert of `kind`. */
  function DueCount<D, F>(bs: seq<Boundary>, sv: Services<D, F>, kind: AlertKind): nat
  {
    if bs == [] then 0
    else DueCount(bs[..|bs| - 1], sv, kind) + (if Due(bs[|bs| - 1], sv, kind) then 1 else 0)
  }

  lemma StepCount<D, F>(c: Customer, b: Boundary, sv: Services<D, F>, kind: AlertKind, other: AlertKind)
    ensures KindCount(Step(c, b, sv, kind), other) <= (if kind == other && Due(b, sv, kind) then 1 else 0)
    ensures kind == other && Due(b, sv, kind) && sv.deliver(AlertFor(c, b, sv, kind)).Delivered? ==>
      KindCount(Step(c, b, sv, kind), other) == 1
  {
    var s := Step(c, b, sv, kind);
    if |s| == 1 {
      assert s[..0] == [];
    }
  }

  /**
   * The alerts of one kind number at most the boundaries whose result of that
   * kind triggered; exactly that many when the delivery of each such alert
   * completes, and none when each such delivery raises.
   */
  lemma {:induction false} AlertsCounted<D, F>(c: Customer, bs: seq<Boundary>, sv: Services<D, F>, kind: AlertKind)
    ensures KindCount(ScanAlerts(c, bs, sv), kind) <= DueCount(bs, sv, kind)
    ensures (forall b :: b in bs && Due(b, sv, kind) ==> sv.deliver(AlertFor(c, b, sv, kind)).Delivered?) ==>
      KindCount(ScanAlerts(c, bs, sv), kind) == DueCount(bs, sv, kind)
    ensures (forall b :: b in bs && Due(b, sv, kind) ==> sv.deliver(AlertFor(c, b, sv, kind)).Raised?) ==>
      KindCount(ScanAlerts(c, bs, sv), kind) == 0
  {
    if bs != [] {
      var prefix, last := bs[..|bs| - 1], bs[|bs| - 1];
      assert bs == prefix + [last];
      assert forall b :: b in prefix ==> b in bs;
      AlertsCounted(c, prefix, sv, kind);
      KindCountAppend(ScanAlerts(c, prefix, sv), BoundaryAlerts(c, last, sv), kind);
      KindCountAppend(Step(c, last, sv, Deforestation), Step(c, last, sv, Fire), kind);
      StepCount(c, last, sv, Deforestation, kind);
      StepCount(c, last, sv, Fire, kind);
    }
  }

  /** A non-empty phone number: the condition for a WhatsApp notification. */
  predicate HasPhone(c: Customer)
  {
    c.phone.Some? && c.phone.value != ""
  }

  /** Outcome of the database insert: the returned id (None for an empty response), or raised. */
  datatype SaveOutcome = SaveRaised | Saved(alertId: Option<string>)

  /**
   * The WhatsApp message formats the affected area as a number and upper-cases
   * the severity; both happen before the send's own error handling.
   */
  predicate WhatsAppFormats(a: Alert)
  {
    a.affectedHectares.Some? && a.severity.Some?
  }

  /**
   * Delivery as written: the save, then the WhatsApp message whose formatting
   * raises for an alert without an area, so the exception leaves the
   * notification and the alert is dropped from the scan after it was saved.
   * The email send catches its own errors and never raises.
   */
  function DeliverAsWritten(c: Customer, save: Alert -> SaveOutcome, a: Alert): (d: Delivery)
    ensures d == Raised <==> save(a).SaveRaised? || (HasPhone(c) && !WhatsAppFormats(a))
    ensures HasPhone(c) && a.affectedHectares.None? ==> d == Raised
    ensures d.Delivered? ==> save(a).Saved? && d == Delivered(save(a).alertId)
  {
    match save(a)
    case SaveRaised => Raised
    case Saved(id) => if HasPhone(c) && !WhatsAppFormats(a) then Raised else Delivered(id)
  }

  /** Delivery as intended: a missing area is shown as "N/A", so only the save can raise. */
  function DeliverCorrected(c: Customer, save: Alert -> SaveOutcome, a: Alert): (d: Delivery)
    ensures d == Raised <==> save(a).SaveRaised?
    ensures save(a).Saved? ==> d == Delivered(save(a).alertId)
  {
    match save(a)
    case SaveRaised => Raised
    case Saved(id) => Delivered(id)
  }

  /**
   * As written, a customer with a phone number never gets a fire alert into
   * the scan's list, whatever the fire detector reports.
   */
  lemma AsWrittenDropsFireAlerts<D, F>(c: Customer, bs: seq<Boundary>, sv: Services<D, F>,
                                       save: Alert -> SaveOutcome)
    requires HasPhone(c)
    requires forall a :: sv.deliver(a) == DeliverAsWritten(c, save, a)
    ensures KindCount(ScanAlerts(c, bs, sv), Fire) == 0
  {
    forall b | b in bs && Due(b, sv, Fire)
      ensures sv.deliver(AlertFor(c, b, sv, Fire)).Raised?
    {
      assert AlertFor(c, b, sv, Fire).affectedHectares == None;
    }
    AlertsCounted(c, bs, sv, Fire);
  }

  /**
   * One customer with a phone number and one boundary whose fire result
   * triggered: as written the scan's list stays empty although the alert was
   * due, and the database accepted it.
   */
  lemma FireAlertLostExample()
    ensures var b := Boundary("BND001", "Block A - Riau North", Some(1100.0));
      var c := Customer("CUST001", "PT Sawit Makmur", Some("6281234567890"), None, [b]);
      var sv: Services<bool, bool> := Services(
        _ => None, _ => DeforestReport(false, None, None, None, false),
        _ => Some(true), f => FireReport(f, Some(High)), _ => true,
        a => DeliverAsWritten(c, _ => Saved(Some("alert-1")), a));
      Due(b, sv, Fire) && ScanAlerts(c, [b], sv) == []
  {
    var b := Boundary("BND001", "Block A - Riau North", Some(1100.0));
    var c := Customer("CUST001", "PT Sawit Makmur", Some("6281234567890"), None, [b]);
    var sv: Services<bool, bool> := Services(
      _ => None, _ => DeforestReport(false, None, None, None, false),
      _ => Some(true), f => FireReport(f, Some(High)), _ => true,
      a => DeliverAsWritten(c, _ => Saved(Some("alert-1")), a));
    assert [b][..0] == [];
    assert HasPhone(c);
    assert sv.deliver(AlertFor(c, b, sv, Fire)) == Raised;
  }

  /**
   * With the corrected delivery and a database that accepts every insert,
   * every boundary whose fire result triggered contributes one fire alert.
   */
  lemma CorrectedRecordsFireAlerts<D, F>(c: Customer, bs: seq<Boundary>, sv: Services<D, F>,
                                         save: Alert -> SaveOutcome)
    requires forall a :: save(a).Saved?
    requires forall a :: sv.deliver(a) == DeliverCorrected(c, save, a)
    ensures KindCount(ScanAlerts(c, bs, sv), Fire) == DueCount(bs, sv, Fire)
  {
    AlertsCounted(c, bs, sv, Fire);
  }

  /** The customer-id filter: the customers with that id, in their original order. */
  function FilterCustomers(cs: seq<Customer>, id: string): (r: seq<Customer>)
    ensures |r| <= |cs|
    ensures forall k :: 0 <= k < |r| ==> r[k].id == id
    ensures forall x :: x in r <==> x in cs && x.id == id
  {
    if cs == [] then []
    else
      var last := cs[|cs| - 1];
      FilterCustomers(cs[..|cs| - 1], id) + (if last.id == id then [last] else [])
  }

  /** Filtering keeps order: it distributes over concatenation. */
  lemma {:induction false} FilterDistributes(x: seq<Customer>, y: seq<Customer>, id: string)
    ensures FilterCustomers(x + y, id) == FilterCustomers(x, id) + FilterCustomers(y, id)
  {
    if y == [] {
      assert x + y == x;
    } else {
      assert (x + y)[..|x + y| - 1] == x + y[..|y| - 1];
      FilterDistributes(x, y[..|y| - 1], id);
    }
  }

  /**
   * The customers a batch run scans: all of them without a (non-empty) id,
   * else the matching ones; None when an id matches nobody and the run stops.
   */
  function Selected(cs: seq<Customer>, customerId: Option<string>): (r: Option<seq<Customer>>)
    ensures customerId.None? || customerId == Some("") ==> r == Some(cs)
    ensures customerId.Some? && customerId.value != "" ==>
      (r.None? <==> forall x :: x in cs ==> x.id != customerId.value)
    ensures r.Some? ==> forall x :: x in r.value ==> x in cs
    ensures customerId.Some? && customerId.value != "" && r.Some? ==>
      r.value == FilterCustomers(cs, customerId.value)
  {
    if customerId.Some? && customerId.value != "" then
      var kept := FilterCustomers(cs, customerId.value);
      if kept == [] then None else assert kept[0] in kept; Some(kept)
    else Some(cs)
  }
}
