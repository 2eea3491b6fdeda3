/** The Some/None marker used wherever the source carries a Python `None`. */
module Wrappers {
  datatype Option<+T> = None | Some(value: T)
}

/**
 * Definitions both imagery backends share: the severity tiers and their
 * classifier, the fire-alert rule, the comparison and trend windows (dates as
 * integer day numbers) and alert coordinates.
 */
module DetectionCommon {
  import opened Wrappers

  /** Alert urgency, ordered low < medium < high < critical. */
  datatype Severity = Low | Medium | High | Critical

  function Rank(s: Severity): nat
  {
    match s
    case Low => 0
    case Medium => 1
    case High => 2
    case Critical => 3
  }

  /** A point in WGS84 degrees. */
  datatype Coordinates = Coordinates(lon: real, lat: real)

  /** NDVI above which an area counts as having been vegetated. */
  const VegetatedFloor: real := 0.4

  /**
   * classify_severity: the highest tier whose inclusive lower bound (10, 5 or
   * 1 hectares) the affected area reaches; low below 1 hectare.
   */
  function ClassifySeverity(areaHa: real): (s: Severity)
    ensures s == Critical <==> areaHa >= 10.0
    ensures s == High <==> 5.0 <= areaHa < 10.0
    ensures s == Medium <==> 1.0 <= areaHa < 5.0
    ensures s == Low <==> areaHa < 1.0
  {
    if areaHa >= 10.0 then Critical
    else if areaHa >= 5.0 then High
    else if areaHa >= 1.0 then Medium
    else Low
  }

  /** A larger affected area never yields a lower severity. */
  lemma ClassifySeverityMonotone(a: real, b: real)
    requires a <= b
    ensures Rank(ClassifySeverity(a)) <= Rank(ClassifySeverity(b))
  {
  }

  /**
   * The fire-hotspot severity: critical from five detections on, high for one
   * to four, and no severity at all when nothing was detected.
   */
  function FireSeverity(count: int): (s: Option<Severity>)
    ensures s == Some(Critical) <==> count >= 5
    ensures s == Some(High) <==> 0 < count < 5
    ensures s == None <==> count <= 0
    ensures s != Some(Low) && s != Some(Medium)
  {
    if count >= 5 then Some(Critical) else if count > 0 then Some(High) else None
  }

  /** A date range from `start` to `end`, as day numbers. */
  datatype Period = Period(start: int, end: int)

  function Length(p: Period): int
  {
    p.end - p.start
  }

  /** The two windows compared by change detection. */
  datatype ComparisonWindows = ComparisonWindows(previous: Period, recent: Period)

  /**
   * The recent window is the last `daysBack` days up to `today`; the previous
   * window is the `daysBack` days before it and ends where the recent one
   * starts.
   */
  function ComparisonPeriods(today: int, daysBack: int): (w: ComparisonWindows)
    ensures w.recent.end == today
    ensures w.previous.end == w.recent.start
    ensures Length(w.recent) == daysBack && Length(w.previous) == daysBack
  {
    var recentEnd := today;
    var recentStart := today - daysBack;
    var previousEnd := recentStart;
    var previousStart := previousEnd - daysBack;
    ComparisonWindows(Period(previousStart, previousEnd), Period(recentStart, recentEnd))
  }

  /**
   * For a positive window length the previous window strictly precedes the
   * recent one, and together they cover exactly the last 2 * daysBack days.
   */
  lemma ComparisonPeriodsOrdered(today: int, daysBack: int)
    requires daysBack > 0
    ensures var w := ComparisonPeriods(today, daysBack);
      w.previous.start < w.previous.end == w.recent.start < w.recent.end
      && w.previous.start == today - 2 * daysBack
  {
  }

  /** Days in one trend window ("month"). */
  const TrendWindowDays: int := 30

  /** Trend window `i` is the 30 days ending 30 * i days before today. */
  function TrendWindow(today: int, i: int): (p: Period)
    ensures p.end == today - TrendWindowDays * i
    ensures Length(p) == TrendWindowDays
  {
    var monthEnd := today - TrendWindowDays * i;
    Period(monthEnd - TrendWindowDays, monthEnd)
  }

  /** Consecutive trend windows are contiguous, each older one ending where the newer starts. */
  lemma TrendWindowsContiguous(today: int, i: int)
    ensures TrendWindow(today, i + 1).end == TrendWindow(today, i).start
  {
  }

  /** Number of windows the trend loop produces for `monthsBack` (Python's range of a negative count is empty). */
  function TrendLength(monthsBack: int): (n: nat)
    ensures monthsBack >= 0 ==> n == monthsBack
    ensures monthsBack < 0 ==> n == 0
  {
    if monthsBack > 0 then monthsBack else 0
  }
}
