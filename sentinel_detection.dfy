/**
 * Decision logic of the Sentinel Hub backend: aggregation of per-interval
 * NDVI means into period statistics, the deforestation decision from two
 * period means, the fire result from a FIRMS response, and the monthly trend.
 * The Statistical API request and the FIRMS HTTP call are parameters.
 */
module SentinelHubDetection {
  import opened Wrappers
  import opened DetectionCommon

  const DefaultDaysBack: int := 30
  const DefaultNdviThreshold: real := 0.3
  const DefaultMinAreaHa: real := 0.5
  const DefaultFireDaysBack: int := 7
  const DefaultTrendMonths: int := 6

  // ---------------------------------------------------------------------------
  // Period statistics
  // ---------------------------------------------------------------------------

  /**
   * Statistics of one period over the per-interval means the request
   * returned. A period without any value has no mean, min or max at all, never
   * a zero.
   */
  datatype NdviStats = NdviStats(mean: Option<real>, min: Option<real>, max: Option<real>, count: nat)

  const NoStats: NdviStats := NdviStats(None, None, None, 0)

  /** The interval means that are present, in interval order. */
  function Present(means: seq<Option<real>>): (vs: seq<real>)
    ensures |vs| <= |means|
    ensures forall v :: v in vs ==> Some(v) in means
    ensures vs == [] <==> forall k :: 0 <= k < |means| ==> means[k].None?
  {
    if means == [] then []
    else
      var prefix := means[..|means| - 1];
      var last := means[|means| - 1];
      assert means == prefix + [last];
      Present(prefix) + (if last.Some? then [last.value] else [])
  }

  /** Every interval that carried a mean contributes its value. */
  lemma {:induction false} PresentKeepsEvery(means: seq<Option<real>>)
    ensures forall k :: 0 <= k < |means| && means[k].Some? ==> means[k].value in Present(means)
  {
    if means != [] {
      var n := |means|;
      var prefix := means[..n - 1];
      PresentKeepsEvery(prefix);
      forall k | 0 <= k < n && means[k].Some?
        ensures means[k].value in Present(means)
      {
        if k < n - 1 {
          assert prefix[k] == means[k];
        }
      }
    }
  }

  /** Collecting the present means of two runs of intervals is collecting each run in turn. */
  lemma {:induction false} PresentDistributes(x: seq<Option<real>>, y: seq<Option<real>>)
    ensures Present(x + y) == Present(x) + Present(y)
    decreases |y|
  {
    if y == [] {
      assert x + y == x;
    } else {
      var prefix, last := y[..|y| - 1], y[|y| - 1];
      assert (x + y)[..|x + y| - 1] == x + prefix;
      assert (x + y)[|x + y| - 1] == last;
      PresentDistributes(x, prefix);
    }
  }

  /** The indices of the intervals that carried a mean. */
  function SomeIndices(means: seq<Option<real>>): set<int>
  {
    set k | 0 <= k < |means| && means[k].Some?
  }

  /** One more interval adds its index exactly when it carried a mean. */
  lemma SomeIndicesExtend(means: seq<Option<real>>)
    requires means != []
    ensures var n := |means|;
      SomeIndices(means) == SomeIndices(means[..n - 1]) + (if means[n - 1].Some? then {n - 1} else {})
  {
    var n := |means|;
    var prefix := means[..n - 1];
    forall k | 0 <= k < n - 1
      ensures prefix[k] == means[k]
    {
    }
  }

  /** One value is kept per interval that carried a mean. */
  lemma {:induction false} PresentCount(means: seq<Option<real>>)
    ensures |Present(means)| == |SomeIndices(means)|
  {
    if means != [] {
      var n := |means|;
      var prefix := means[..n - 1];
      PresentCount(prefix);
      SomeIndicesExtend(means);
      assert n - 1 !in SomeIndices(prefix);
    }
  }

  function Sum(vs: seq<real>): real
  {
    if vs == [] then 0.0 else Sum(vs[..|vs| - 1]) + vs[|vs| - 1]
  }

  /** np.mean over a non-empty list of values. */
  function Mean(vs: seq<real>): real
    requires vs != []
  {
    Sum(vs) / (|vs| as real)
  }

  /** np.min: a value of the list no larger than any other. */
  function Min(vs: seq<real>): (m: real)
    requires vs != []
    ensures m in vs
    ensures forall v :: v in vs ==> m <= v
  {
    if |vs| == 1 then vs[0]
    else
      var prefix := vs[..|vs| - 1];
      assert vs == prefix + [vs[|vs| - 1]];
      var rest := Min(prefix);
      if vs[|vs| - 1] < rest then vs[|vs| - 1] else rest
  }

  /** np.max: a value of the list no smaller than any other. */
  function Max(vs: seq<real>): (m: real)
    requires vs != []
    ensures m in vs
    ensures forall v :: v in vs ==> v <= m
  {
    if |vs| == 1 then vs[0]
    else
      var prefix := vs[..|vs| - 1];
      assert vs == prefix + [vs[|vs| - 1]];
      var rest := Max(prefix);
      if vs[|vs| - 1] > rest then vs[|vs| - 1] else rest
  }

  /** `n` copies of `x` added up: n * x without a product the solver has to reason about. */
  function Repeat(n: nat, x: real): real
  {
    if n == 0 then 0.0 else Repeat(n - 1, x) + x
  }

  lemma {:induction false} RepeatIsProduct(n: nat, x: real)
    ensures Repeat(n, x) == (n as real) * x
  {
    if n > 0 {
      RepeatIsProduct(n - 1, x);
      assert (n as real) * x == ((n - 1) as real) * x + x;
    }
  }

  /** A sum of values that all lie in [lo, hi] lies between |vs| copies of lo and of hi. */
  lemma {:induction false} SumBounds(vs: seq<real>, lo: real, hi: real)
    requires forall v :: v in vs ==> lo <= v <= hi
    ensures Repeat(|vs|, lo) <= Sum(vs) <= Repeat(|vs|, hi)
  {
    if vs != [] {
      var prefix, last := vs[..|vs| - 1], vs[|vs| - 1];
      assert lo <= last <= hi by {
        assert last in vs;
      }
      assert Repeat(|prefix|, lo) <= Sum(prefix) <= Repeat(|prefix|, hi) by {
        assert vs == prefix + [last];
        forall v | v in prefix
          ensures lo <= v <= hi
        {
          assert v in vs;
        }
        SumBounds(prefix, lo, hi);
      }
    }
  }

  lemma QuotientBounds(s: real, n: real, lo: real, hi: real)
    requires n > 0.0 && n * lo <= s <= n * hi
    ensures lo <= s / n <= hi
  {
    assert (s / n) * n == s;
  }

  /** Values within [lo, hi] have their mean within [lo, hi]. */
  lemma MeanBounds(vs: seq<real>, lo: real, hi: real)
    requires vs != []
    requires forall v :: v in vs ==> lo <= v <= hi
    ensures lo <= Mean(vs) <= hi
  {
    var n := |vs| as real;
    assert n * lo <= Sum(vs) <= n * hi by {
      SumBounds(vs, lo, hi);
      RepeatIsProduct(|vs|, lo);
      RepeatIsProduct(|vs|, hi);
    }
    QuotientBounds(Sum(vs), n, lo, hi);
  }

  /** The mean of a non-empty list lies between its minimum and its maximum. */
  lemma MeanBetweenMinMax(vs: seq<real>)
    requires vs != []
    ensures Min(vs) <= Mean(vs) <= Max(vs)
  {
    MeanBounds(vs, Min(vs), Max(vs));
  }

  /**
   * What the aggregation tail of get_ndvi_stats returns for a response
   * (None when the request raised; otherwise the interval means, None where an
   * interval carried no mean).
   */
  function StatsOf(response: Option<seq<Option<real>>>): (s: NdviStats)
    ensures s.count == (if response.Some? then |Present(response.value)| else 0)
    ensures s.mean.None? <==> s.count == 0
    ensures s.min.None? <==> s.count == 0
    ensures s.max.None? <==> s.count == 0
    ensures s.count > 0 ==> s.min.value <= s.mean.value <= s.max.value
    ensures response.Some? && s.count > 0 ==>
      s.mean.value == Sum(Present(response.value)) / (s.count as real)
    ensures response.Some? && s.count > 0 ==>
      Some(s.min.value) in response.value && Some(s.max.value) in response.value
      && forall v :: v in Present(response.value) ==> s.min.value <= v <= s.max.value
  {
    if response.None? then NoStats
    else
      var vs := Present(response.value);
      if vs == [] then NoStats
      else
        MeanBetweenMinMax(vs);
        NdviStats(Some(Mean(vs)), Some(Min(vs)), Some(Max(vs)), |vs|)
  }

  /** The aggregation loop of get_ndvi_stats. */
  method AggregateNdviStats(response: Option<seq<Option<real>>>) returns (s: NdviStats)
    ensures s == StatsOf(response)
  {
    if response.None? {
      return NoStats;
    }
    var intervals := response.value;
    var ndviValues: seq<real> := [];
    for i := 0 to |intervals|
      invariant ndviValues == Present(intervals[..i])
    {
      assert intervals[..i + 1][..i] == intervals[..i];
      if intervals[i].Some? {
        ndviValues := ndviValues + [intervals[i].value];
      }
    }
    assert intervals[..|intervals|] == intervals;
    if ndviValues != [] {
      return NdviStats(Some(Mean(ndviValues)), Some(Min(ndviValues)), Some(Max(ndviValues)), |ndviValues|);
    }
    return NoStats;
  }

  // ---------------------------------------------------------------------------
  // Deforestation decision
  // ---------------------------------------------------------------------------

  /** The quantities detect_deforestation derives from the two period means. */
  datatype ChangeDecision = ChangeDecision(
    ndviChange: Option<real>,
    areaHa: Option<real>,
    percentage: Option<real>,
    alertTriggered: bool,
    severity: Option<Severity>)

  const NoChange: ChangeDecision := ChangeDecision(None, None, None, false, None)

  /** The drop exceeds the threshold and the area was vegetated before. */
  predicate SignificantLoss(previous: real, recent: real, ndviThreshold: real)
  {
    previous - recent > ndviThreshold && previous > VegetatedFloor
  }

  /**
   * The affected share of the boundary, in percent, estimated from the
   * relative NDVI drop and capped at 100. The cap binds exactly when the
   * recent mean is not positive.
   */
  function LossPercentage(previous: real, recent: real): (pct: real)
    requires previous > 0.0
    ensures pct <= 100.0
    ensures pct == 100.0 <==> recent <= 0.0
    ensures recent > 0.0 ==> pct * previous == (previous - recent) * 100.0
    ensures recent < previous ==> pct > 0.0
  {
    var raw := (previous - recent) / previous * 100.0;
    assert raw * previous == (previous - recent) * 100.0;
    if raw < 100.0 then raw else 100.0
  }

  /**
   * The decision block of detect_deforestation: no mean, no finding; a
   * significant loss on formerly vegetated land gives an area estimate; an
   * estimate of at least minAreaHa raises an alert with a severity.
   */
  function Decide(previous: Option<real>, recent: Option<real>, boundaryAreaHa: real,
                  ndviThreshold: real, minAreaHa: real): (d: ChangeDecision)
    ensures previous.None? || recent.None? ==> d == NoChange
    ensures previous.Some? && recent.Some? ==> d.ndviChange == Some(previous.value - recent.value)
    ensures d.areaHa.Some? <==>
      previous.Some? && recent.Some? && SignificantLoss(previous.value, recent.value, ndviThreshold)
    ensures d.percentage.Some? <==> d.areaHa.Some?
    ensures d.areaHa.Some? ==>
      d.percentage.value == LossPercentage(previous.value, recent.value)
      && d.areaHa.value == boundaryAreaHa * (d.percentage.value / 100.0)
    ensures d.areaHa.Some? && boundaryAreaHa >= 0.0 ==> d.areaHa.value <= boundaryAreaHa
    ensures d.alertTriggered <==> d.areaHa.Some? && d.areaHa.value >= minAreaHa
    ensures d.severity == if d.alertTriggered then Some(ClassifySeverity(d.areaHa.value)) else None
  {
    if previous.Some? && recent.Some? then
      var p, r := previous.value, recent.value;
      if SignificantLoss(p, r, ndviThreshold) then
        var pct := LossPercentage(p, r);
        var area := boundaryAreaHa * (pct / 100.0);
        AreaWithinBoundary(boundaryAreaHa, pct);
        var alert := area >= minAreaHa;
        ChangeDecision(Some(p - r), Some(area), Some(pct), alert,
                       if alert then Some(ClassifySeverity(area)) else None)
      else
        ChangeDecision(Some(p - r), None, None, false, None)
    else
      NoChange
  }

  lemma AreaWithinBoundary(boundaryAreaHa: real, pct: real)
    requires pct <= 100.0
    ensures boundaryAreaHa >= 0.0 ==> boundaryAreaHa * (pct / 100.0) <= boundaryAreaHa
  {
    if boundaryAreaHa >= 0.0 {
      assert boundaryAreaHa * (pct / 100.0) <= boundaryAreaHa * 1.0;
    }
  }

  /** The result of detect_deforestation. `coordinates` is always None in this backend. */
  datatype DeforestationResult = DeforestationResult(
    customerId: string,
    boundaryName: string,
    analysisDate: int,
    periodPrevious: Period,
    periodRecent: Period,
    boundaryAreaHa: real,
    meanNdviPrevious: Option<real>,
    meanNdviRecent: Option<real>,
    ndviChange: Option<real>,
    deforestationAreaHa: Option<real>,
    deforestationPercentage: Option<real>,
    alertTriggered: bool,
    severity: Option<Severity>,
    coordinates: Option<Coordinates>)

  function DecisionOf(r: DeforestationResult): ChangeDecision
  {
    ChangeDecision(r.ndviChange, r.deforestationAreaHa, r.deforestationPercentage, r.alertTriggered, r.severity)
  }

  /**
   * detect_deforestation: the two windows before `today`, the statistics of
   * each (`fetch` stands for the Statistical API request of one period), and
   * the decision assigned field by field.
   */
  method DetectDeforestation(customerId: string, boundaryName: string, boundaryAreaHa: real,
                             today: int, daysBack: int, ndviThreshold: real, minAreaHa: real,
                             fetch: Period -> Option<seq<Option<real>>>)
    returns (r: DeforestationResult)
    ensures ComparisonWindows(r.periodPrevious, r.periodRecent) == ComparisonPeriods(today, daysBack)
    ensures r.meanNdviPrevious == StatsOf(fetch(r.periodPrevious)).mean
    ensures r.meanNdviRecent == StatsOf(fetch(r.periodRecent)).mean
    ensures DecisionOf(r) == Decide(r.meanNdviPrevious, r.meanNdviRecent, boundaryAreaHa, ndviThreshold, minAreaHa)
    ensures r.alertTriggered ==> r.severity.Some?
    ensures r.coordinates == None
    ensures r.customerId == customerId && r.boundaryName == boundaryName
    ensures r.analysisDate == today && r.boundaryAreaHa == boundaryAreaHa
  {
    var windows := ComparisonPeriods(today, daysBack);
    var statsPrevious := AggregateNdviStats(fetch(windows.previous));
    var statsRecent := AggregateNdviStats(fetch(windows.recent));
    var d := DecideChange(statsPrevious.mean, statsRecent.mean, boundaryAreaHa, ndviThreshold, minAreaHa);
    r := DeforestationResult(customerId, boundaryName, today, windows.previous, windows.recent,
                             boundaryAreaHa, statsPrevious.mean, statsRecent.mean, d.ndviChange,
                             d.areaHa, d.percentage, d.alertTriggered, d.severity, None);
  }

  /** The decision block of detect_deforestation, assigned step by step as the source does. */
  method DecideChange(previousMean: Option<real>, recentMean: Option<real>, boundaryAreaHa: real,
                      ndviThreshold: real, minAreaHa: real)
    returns (d: ChangeDecision)
    ensures d == Decide(previousMean, recentMean, boundaryAreaHa, ndviThreshold, minAreaHa)
  {
    ghost var expected := Decide(previousMean, recentMean, boundaryAreaHa, ndviThreshold, minAreaHa);
    var ndviChange: Option<real> := None;
    var deforestationAreaHa: Option<real> := None;
    var deforestationPct: Option<real> := None;
    var alertTriggered := false;
    var severity: Option<Severity> := None;

    if previousMean.Some? && recentMean.Some? {
      var previous, recent := previousMean.value, recentMean.value;
      ndviChange := Some(previous - recent);
      if previous - recent > ndviThreshold && previous > VegetatedFloor {
        var pct := LossPercentage(previous, recent);
        deforestationPct := Some(pct);
        var area := boundaryAreaHa * (pct / 100.0);
        deforestationAreaHa := Some(area);
        if area >= minAreaHa {
          alertTriggered := true;
          severity := Some(ClassifySeverity(area));
        }
      }
    }
    d := ChangeDecision(ndviChange, deforestationAreaHa, deforestationPct, alertTriggered, severity);
  }

  /** A lower recent mean never makes an estimate disappear, never lowers it, and never lowers the severity. */
  lemma LowerRecentNeverWeakensAlert(previous: real, recent1: real, recent2: real,
                                     boundaryAreaHa: real, ndviThreshold: real, minAreaHa: real)
    requires recent2 <= recent1
    requires boundaryAreaHa >= 0.0
    ensures var d1 := Decide(Some(previous), Some(recent1), boundaryAreaHa, ndviThreshold, minAreaHa);
            var d2 := Decide(Some(previous), Some(recent2), boundaryAreaHa, ndviThreshold, minAreaHa);
            && (d1.areaHa.Some? ==> (d2.areaHa.Some? && d1.areaHa.value <= d2.areaHa.value))
            && (d1.alertTriggered ==> (d2.alertTriggered && Rank(d1.severity.value) <= Rank(d2.severity.value)))
  {
    var d1 := Decide(Some(previous), Some(recent1), boundaryAreaHa, ndviThreshold, minAreaHa);
    var d2 := Decide(Some(previous), Some(recent2), boundaryAreaHa, ndviThreshold, minAreaHa);
    if d1.areaHa.Some? {
      LowerRecentNeverShrinksArea(previous, recent1, recent2, boundaryAreaHa, ndviThreshold, minAreaHa);
      if d1.alertTriggered {
        ClassifySeverityMonotone(d1.areaHa.value, d2.areaHa.value);
      }
    }
  }

  /** The area part: a lower recent mean keeps the loss significant and the estimate no smaller. */
  lemma LowerRecentNeverShrinksArea(previous: real, recent1: real, recent2: real,
                                    boundaryAreaHa: real, ndviThreshold: real, minAreaHa: real)
    requires recent2 <= recent1
    requires boundaryAreaHa >= 0.0
    requires SignificantLoss(previous, recent1, ndviThreshold)
    ensures var d1 := Decide(Some(previous), Some(recent1), boundaryAreaHa, ndviThreshold, minAreaHa);
            var d2 := Decide(Some(previous), Some(recent2), boundaryAreaHa, ndviThreshold, minAreaHa);
            d2.areaHa.Some? && d1.areaHa.value <= d2.areaHa.value
  {
    var d1 := Decide(Some(previous), Some(recent1), boundaryAreaHa, ndviThreshold, minAreaHa);
    var d2 := Decide(Some(previous), Some(recent2), boundaryAreaHa, ndviThreshold, minAreaHa);
    assert d2.areaHa.Some?;
    var p1, p2 := d1.percentage.value, d2.percentage.value;
    assert p1 <= p2 by {
      LossPercentageMonotone(previous, recent1, recent2);
    }
    ShareMonotone(boundaryAreaHa, p1, p2, d1.areaHa.value, d2.areaHa.value);
  }

  /** A larger percentage of a non-negative boundary is a larger area. */
  lemma ShareMonotone(boundaryAreaHa: real, p1: real, p2: real, area1: real, area2: real)
    requires boundaryAreaHa >= 0.0 && p1 <= p2
    requires area1 == boundaryAreaHa * (p1 / 100.0) && area2 == boundaryAreaHa * (p2 / 100.0)
    ensures area1 <= area2
  {
    MultiplyMonotone(boundaryAreaHa, p1 / 100.0, p2 / 100.0);
  }

  /** A lower recent mean never gives a smaller loss percentage. */
  lemma LossPercentageMonotone(previous: real, recent1: real, recent2: real)
    requires previous > 0.0 && recent2 <= recent1
    ensures LossPercentage(previous, recent1) <= LossPercentage(previous, recent2)
  {
    DivideMonotone(previous - recent1, previous - recent2, previous);
  }

  lemma DivideMonotone(a: real, b: real, d: real)
    requires d > 0.0 && a <= b
    ensures a / d <= b / d
  {
    assert (a / d) * d == a;
    assert (b / d) * d == b;
  }

  lemma MultiplyMonotone(k: real, a: real, b: real)
    requires k >= 0.0 && a <= b
    ensures k * a <= k * b
  {
    assert k * b - k * a == k * (b - a);
  }

  /** The worked case: means 0.75 then 0.40 over 1000 ha give a critical alert on 1400/3 ha (46.7 %). */
  lemma DecideExampleAlert()
    ensures Decide(Some(0.75), Some(0.40), 1000.0, 0.3, 0.5)
         == ChangeDecision(Some(0.35), Some(1400.0 / 3.0), Some(140.0 / 3.0), true, Some(Critical))
  {
  }

  /** A drop of 0.32 from 0.38 is not a loss of formerly vegetated land: no estimate, no alert. */
  lemma DecideExampleNotVegetated()
    ensures Decide(Some(0.38), Some(0.06), 1000.0, 0.3, 0.5) == ChangeDecision(Some(0.32), None, None, false, None)
  {
  }

  // ---------------------------------------------------------------------------
  // Fire hotspots
  // ---------------------------------------------------------------------------

  /**
   * The FIRMS area request as detect_fire_hotspots sees it: it raised, or it
   * answered with a status and the rows of the stripped CSV body (header first).
   */
  datatype FirmsResponse = RequestFailed | HttpResponse(status: int, lines: seq<string>)

  /** Rows after the header of a successful response; 0 for any other outcome. */
  function FireCount(response: FirmsResponse): (n: nat)
    ensures response.HttpResponse? && response.status == 200 && |response.lines| >= 1 ==>
      n == |response.lines| - 1
    ensures n > 0 ==> response.HttpResponse? && response.status == 200 && n < |response.lines|
  {
    if response.HttpResponse? && response.status == 200 && |response.lines| > 1
    then |response.lines| - 1
    else 0
  }

  /** The dict detect_fire_hotspots returns; `periodDays` stands for "Last N days". */
  datatype FireResult = FireResult(
    customerId: string,
    boundaryName: string,
    analysisDate: int,
    periodDays: int,
    fireDetections: nat,
    alertTriggered: bool,
    severity: Option<Severity>)

  function DetectFireHotspots(customerId: string, boundaryName: string, today: int, daysBack: int,
                              response: FirmsResponse): (r: FireResult)
    ensures r.fireDetections == FireCount(response)
    ensures r.alertTriggered <==> r.severity.Some?
    ensures r.alertTriggered <==> response.HttpResponse? && response.status == 200 && |response.lines| > 1
    ensures r.severity == Some(Critical) <==> r.fireDetections >= 5
    ensures r.severity == Some(High) <==> 0 < r.fireDetections < 5
    ensures r.severity == FireSeverity(r.fireDetections)
  {
    var fireCount := FireCount(response);
    FireResult(customerId, boundaryName, today, daysBack, fireCount, fireCount > 0, FireSeverity(fireCount))
  }

  // ---------------------------------------------------------------------------
  // Monthly trend
  // ---------------------------------------------------------------------------

  /** One reading of the trend; `month` is the window whose start gives the month label. */
  datatype TrendEntry = TrendEntry(
    customerId: string,
    month: Period,
    meanNdvi: Option<real>,
    minNdvi: Option<real>,
    maxNdvi: Option<real>,
    observations: nat)

  function EntryFor(customerId: string, window: Period, s: NdviStats): TrendEntry
  {
    TrendEntry(customerId, window, s.mean, s.min, s.max, s.count)
  }

  /**
   * calculate_ndvi_trend: one entry per window, newest first, each carrying
   * the statistics of its own window.
   */
  method CalculateNdviTrend(customerId: string, today: int, monthsBack: int,
                            fetch: Period -> Option<seq<Option<real>>>)
    returns (results: seq<TrendEntry>)
    ensures |results| == TrendLength(monthsBack)
    ensures forall i :: 0 <= i < |results| ==>
      results[i] == EntryFor(customerId, TrendWindow(today, i), StatsOf(fetch(TrendWindow(today, i))))
    ensures forall i :: 0 <= i < |results| - 1 ==> results[i + 1].month.end == results[i].month.start
  {
    results := [];
    for i := 0 to TrendLength(monthsBack)
      invariant |results| == i
      invariant forall k :: 0 <= k < i ==>
        results[k] == EntryFor(customerId, TrendWindow(today, k), StatsOf(fetch(TrendWindow(today, k))))
    {
      var monthEnd := today - TrendWindowDays * i;
      var monthStart := monthEnd - TrendWindowDays;
      var window := Period(monthStart, monthEnd);
      var stats := AggregateNdviStats(fetch(window));
      results := results + [TrendEntry(customerId, window, stats.mean, stats.min, stats.max, stats.count)];
    }
  }
}
