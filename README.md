# Satteli alert core in Dafny

Satteli watches plantation boundaries from satellite imagery. It compares the
vegetation index (NDVI) of two consecutive periods to find deforestation, and
counts active fire hotspots. A weekly batch scan raises alerts from those
results, saves them and notifies the customer. Two backends do this: Sentinel
Hub and Google Earth Engine. Each has a detection module and a batch scanner.

This project models the decision logic of both backends and the bookkeeping of
both batch scanners, and proves properties of them:

- `DetectionCommon`: the severity classifier, the fire-severity rule, the
  comparison windows and the monthly trend windows. Dates are integer day
  numbers.
- `SentinelHubDetection`: the aggregation of per-interval means into period
  statistics, the deforestation decision taken from two period means (step by
  step, as a method proved against a decision function), the fire result taken
  from a FIRMS response, and the trend loop.
- `GeeDetection`: the per-pixel deforestation mask and the area it sums to,
  the alert rule applied to the results dict, the fire rule and the trend loop
  (which records errors).
- `BackendAgreement`: how the two backends' deforestation rules relate.
- `Scanning`: customers, boundaries and alert records, the services a scan
  calls, the specification of the alert list a scan produces, the customer
  filter, and delivery both as written and as corrected.
- `SentinelHubBatch` and `GeeBatch`: `scan_customer` and `run_batch_scan` as
  loops. Each is proved equal to a specification function whose counters,
  bounds and totals are proved as lemmas.

Imagery statistics, Earth Engine `getInfo()` values, FIRMS responses, the
database and the notifiers are function parameters. A service that can raise
returns an explicit outcome: `None`, `false` or `Raised`. Python floats are
modelled as exact reals. `int()` is written out as truncation toward zero.

## Model

| member | source | states |
|---|---|---|
| DetectionCommon.ClassifySeverity | sentinel-hub/deforestation_detection.py:376-385 | critical exactly when the area is at least 10 ha, high exactly on [5, 10), medium exactly on [1, 5), low exactly below 1; the Earth Engine copy is the same function |
| DetectionCommon.ClassifySeverityMonotone | gee/deforestation_detection.py:200-209 | a larger area never gets a lower tier |
| DetectionCommon.FireSeverity | sentinel-hub/deforestation_detection.py:443 | critical exactly from 5 detections, high exactly for 1 to 4, no severity exactly when there is no detection, never low or medium |
| DetectionCommon.ComparisonPeriods | sentinel-hub/deforestation_detection.py:271-275 | the recent window ends today, the previous one ends where the recent one starts, and both are daysBack days long |
| DetectionCommon.ComparisonPeriodsOrdered | gee/deforestation_detection.py:58-63 | for a positive length the previous window comes strictly first and the two cover the last 2·daysBack days |
| DetectionCommon.TrendWindow | sentinel-hub/deforestation_detection.py:471-472 | window i ends 30·i days before today and is 30 days long |
| DetectionCommon.TrendWindowsContiguous | gee/deforestation_detection.py:293-296 | each older window ends where the next newer one starts |
| DetectionCommon.TrendLength | sentinel-hub/deforestation_detection.py:470 | the loop runs monthsBack times, or not at all for a negative count |
| SentinelHubDetection.Present | sentinel-hub/deforestation_detection.py:219-224 | the kept values all come from present interval means, and none is kept exactly when every mean is missing |
| SentinelHubDetection.PresentKeepsEvery | sentinel-hub/deforestation_detection.py:219-224 | every interval that carried a mean contributes its value |
| SentinelHubDetection.PresentDistributes | sentinel-hub/deforestation_detection.py:219-224 | the present means are collected in interval order: collecting two runs of intervals is collecting each in turn, so each interval contributes its own value exactly once |
| SentinelHubDetection.PresentCount | sentinel-hub/deforestation_detection.py:219-224 | one value is kept per interval that carried a mean: the count is the number of such intervals |
| SentinelHubDetection.Mean | sentinel-hub/deforestation_detection.py:228 | np.mean: the sum of the values divided by their number (a definition, without a contract of its own) |
| SentinelHubDetection.Min | sentinel-hub/deforestation_detection.py:229 | the minimum is one of the values and no value is smaller |
| SentinelHubDetection.Max | sentinel-hub/deforestation_detection.py:230 | the maximum is one of the values and no value is larger |
| SentinelHubDetection.SumBounds | sentinel-hub/deforestation_detection.py:228 | n values within [lo, hi] sum to between n copies of lo and n copies of hi |
| SentinelHubDetection.MeanBounds | sentinel-hub/deforestation_detection.py:228 | values within [lo, hi] have their mean within [lo, hi] |
| SentinelHubDetection.MeanBetweenMinMax | sentinel-hub/deforestation_detection.py:226-231 | min ≤ mean ≤ max for a non-empty list |
| SentinelHubDetection.StatsOf | sentinel-hub/deforestation_detection.py:219-236 | the count is the number of present means; mean, min and max are missing exactly when the count is 0, never 0 in their place; the mean is the sum of the present means divided by the count; min ≤ mean ≤ max; min and max occur in the response and bound every present value |
| SentinelHubDetection.AggregateNdviStats | sentinel-hub/deforestation_detection.py:218-236 | the aggregation loop returns exactly StatsOf of the response, including the raised-request case |
| SentinelHubDetection.LossPercentage | sentinel-hub/deforestation_detection.py:320 | the percentage is at most 100, equals 100 exactly when the recent mean is not positive, otherwise is the relative drop times 100, and is positive for any drop |
| SentinelHubDetection.Decide | sentinel-hub/deforestation_detection.py:303-326 | a missing mean gives no change, no area, no percentage, no alert and no severity; the change is previous minus recent; area and percentage are present exactly for a significant loss on formerly vegetated land; area = boundary × percentage / 100 and never exceeds the boundary; alert exactly when area ≥ minAreaHa, and then the severity is the classified area, otherwise none |
| SentinelHubDetection.AreaWithinBoundary | sentinel-hub/deforestation_detection.py:320-321 | a capped percentage never yields more than the boundary area |
| SentinelHubDetection.SignificantLoss | sentinel-hub/deforestation_detection.py:317 | a loss is significant when the drop exceeds the threshold and the previous mean exceeds 0.4 (a definition, without a contract of its own) |
| SentinelHubDetection.DecideChange | sentinel-hub/deforestation_detection.py:302-325 | the step-by-step assignments of the decision block end in exactly the decision Decide specifies |
| SentinelHubDetection.DetectDeforestation | sentinel-hub/deforestation_detection.py:270-343 | the windows are those of ComparisonPeriods; each mean is the aggregated statistic of its own window; the decision is Decide's; an alert always has a severity; coordinates are never set |
| SentinelHubDetection.LowerRecentNeverWeakensAlert | sentinel-hub/deforestation_detection.py:317-325 | a lower recent mean keeps any estimate and makes it larger, and keeps any alert without lowering its severity |
| SentinelHubDetection.LowerRecentNeverShrinksArea | sentinel-hub/deforestation_detection.py:317-321 | a lower recent mean keeps a significant loss significant and never gives a smaller area estimate |
| SentinelHubDetection.ShareMonotone | sentinel-hub/deforestation_detection.py:321 | over a non-negative boundary, a larger percentage gives a larger area |
| SentinelHubDetection.LossPercentageMonotone | sentinel-hub/deforestation_detection.py:320 | a lower recent mean never gives a smaller loss percentage |
| SentinelHubDetection.DecideExampleAlert | sentinel-hub/deforestation_detection.py:310-325 | means 0.75 and 0.40 over 1000 ha give change 0.35, 1400/3 ha, 140/3 % and a critical alert |
| SentinelHubDetection.DecideExampleNotVegetated | sentinel-hub/deforestation_detection.py:317 | a large drop from a mean of 0.4 or less gives no estimate and no alert |
| SentinelHubDetection.FireCount | sentinel-hub/deforestation_detection.py:427-432 | a 200 response counts its rows after the header; a failed request or any other status counts 0 |
| SentinelHubDetection.DetectFireHotspots | sentinel-hub/deforestation_detection.py:435-446 | the detections are the FIRMS row count; an alert exactly when a severity is set, exactly when a 200 response has rows beyond the header; the severity is the fire-severity rule of the count: critical exactly from 5 detections, high exactly for 1 to 4 |
| SentinelHubDetection.CalculateNdviTrend | sentinel-hub/deforestation_detection.py:470-488 | exactly TrendLength(monthsBack) entries; entry i holds the statistics of trend window i; consecutive entries cover contiguous windows |
| GeeDetection.MaskedAreaBounds | gee/deforestation_detection.py:113-125 | with non-negative pixel areas, the flagged area is between 0 and the whole boundary's area |
| GeeDetection.DeforestedPixel | gee/deforestation_detection.py:113-114 | a pixel is flagged when its NDVI change exceeds the threshold and its previous NDVI exceeds 0.4 (a definition, without a contract of its own) |
| GeeDetection.MaskedAreaM2 | gee/deforestation_detection.py:117-125 | the flagged area is the summed area of the flagged pixels (a definition; its bounds are MaskedAreaBounds) |
| GeeDetection.NoFlaggedPixelNoArea | gee/deforestation_detection.py:117-125 | no flagged pixel gives a flagged area of 0 |
| GeeDetection.UniformChangeAllOrNothing | gee/deforestation_detection.py:113-118 | when every pixel shows the same change, the mask flags the whole boundary or nothing, according to that change |
| GeeDetection.DetectDeforestation | gee/deforestation_detection.py:167-197 | the windows are those of ComparisonPeriods; the values are copied from the Earth Engine readings; alert exactly when AlertRule holds of the area (present, non-zero and at least minAreaHa); severity is the classified area exactly then; the centroid is recorded only with an alert |
| GeeDetection.NoFlaggedPixelNoAlert | gee/deforestation_detection.py:184 | with no flagged pixel there is no alert, whatever minAreaHa is |
| GeeDetection.AlertRule | gee/deforestation_detection.py:184 | an alert needs an area that is present, non-zero and at least minAreaHa (a definition; compared with the other backend in AlertRulesAgree) |
| GeeDetection.DetectFireHotspots | gee/deforestation_detection.py:251-267 | a missing count reads as 0; alert exactly when detections are positive; the severity follows the fire-severity rule and is absent without an alert |
| GeeDetection.CalculateNdviTrend | gee/deforestation_detection.py:293-339 | exactly TrendLength(monthsBack) entries; entry i covers trend window i and is a reading, or an error record with no mean when its queries raised |
| BackendAgreement.MaskMatchesMeanRule | gee/deforestation_detection.py:113-114 | the per-pixel mask test and the Sentinel Hub loss test on the means are the same condition |
| BackendAgreement.UniformBoundaryAgreement | sentinel-hub/deforestation_detection.py:317-321 | over a uniform boundary of positive area, Earth Engine flags a positive area exactly when Sentinel Hub gives an area estimate |
| BackendAgreement.AlertRulesAgree | gee/deforestation_detection.py:184-186 | the Earth Engine rule implies area ≥ minAreaHa, equals it for a positive minimum, and never alerts on a zero area |
| Scanning.DeforestationAlert | sentinel-hub/batch_scanner.py:318-328 | the alert names the customer and boundary and copies severity, area and coordinates from the result |
| Scanning.FireAlert | sentinel-hub/batch_scanner.py:360-370 | a fire alert copies the severity and carries no area and no coordinates |
| Scanning.Step | sentinel-hub/batch_scanner.py:317-341 | at most one alert per step, present exactly when the result triggered (and, for deforestation, the history write passed) and delivery completed; it is the built alert with the returned id |
| Scanning.BoundaryAlerts | gee/batch_scanner.py:262-346 | at most two alerts per boundary, both for this customer and boundary, deforestation before fire |
| Scanning.ScanAlerts | sentinel-hub/batch_scanner.py:292-388 | the alert list of a scan: each boundary's alerts, in boundary order (a definition; its properties are the lemmas below) |
| Scanning.ScannedCount | sentinel-hub/batch_scanner.py:311 | boundaries_scanned: the number of boundaries whose deforestation detector returned (a definition; bounded by ScannedCountBound) |
| Scanning.ScannedCountBound | sentinel-hub/batch_scanner.py:301-311 | boundaries_scanned never exceeds the number of boundaries |
| Scanning.ScanAlertsBound | gee/batch_scanner.py:275-317 | a scan lists at most two alerts per boundary |
| Scanning.ScanAlertsJustified | sentinel-hub/batch_scanner.py:317-381 | every listed alert comes from a boundary of the customer whose result triggered, is that result's alert, and was delivered with its id |
| Scanning.FireAlertsCarryNoLocation | gee/batch_scanner.py:318-328 | every listed alert names the customer; fire alerts have no area and no coordinates |
| Scanning.AlertsCarrySeverity | gee/batch_scanner.py:281 | when triggered results carry a severity, every listed alert does |
| Scanning.AlertsCounted | sentinel-hub/batch_scanner.py:330-341 | alerts of a kind number at most the boundaries that triggered that kind; exactly that many when every such delivery completes; none when every such delivery raises |
| Scanning.HasPhone | sentinel-hub/batch_scanner.py:335 | a WhatsApp message is sent exactly for a customer with a non-empty phone (a definition, without a contract of its own) |
| Scanning.WhatsAppFormats | sentinel-hub/batch_scanner.py:183-185 | the WhatsApp message can be formatted exactly when the alert has an area and a severity (a definition, without a contract of its own) |
| Scanning.DeliverAsWritten | sentinel-hub/batch_scanner.py:167-190 | delivery raises exactly when the save raises or when the customer has a phone and the alert lacks an area or a severity; a completed delivery carries the saved id |
| Scanning.DeliverCorrected | sentinel-hub/batch_scanner.py:184 | delivery raises exactly when the save raises, and otherwise returns the saved id |
| Scanning.AsWrittenDropsFireAlerts | sentinel-hub/batch_scanner.py:372-381 | as written, a customer with a phone never gets a fire alert listed |
| Scanning.FireAlertLostExample | gee/batch_scanner.py:330-339 | a concrete customer and boundary with a triggered fire result end with an empty alert list |
| Scanning.CorrectedRecordsFireAlerts | gee/batch_scanner.py:317-339 | under the corrected delivery and a working database, each boundary with a triggered fire result contributes one fire alert |
| Scanning.FilterCustomers | sentinel-hub/batch_scanner.py:411 | exactly the customers with that id are kept, and all of them carry it |
| Scanning.FilterDistributes | gee/batch_scanner.py:364 | the filter keeps the original order: it distributes over concatenation |
| Scanning.Selected | sentinel-hub/batch_scanner.py:410-414 | no id, or an empty one, selects everyone; a non-empty id stops the run exactly when no customer has it, and otherwise selects exactly the filtered customers |
| SentinelHubBatch.Truncate | sentinel-hub/batch_scanner.py:297 | int() truncates toward zero: within one unit of the argument, on the side of zero |
| SentinelHubBatch.EstimatedPu | sentinel-hub/batch_scanner.py:296-297 | at least 1 unit; exactly 1 below 1.25 km² (125 ha); otherwise the truncated 0.8 units per 100 ha; a missing area counts as 1000 ha |
| SentinelHubBatch.DefaultBoundaryPu | sentinel-hub/batch_scanner.py:296 | a boundary without an area costs 8 units per period |
| SentinelHubBatch.EstimatedPuMonotone | sentinel-hub/batch_scanner.py:297 | a larger boundary never costs fewer units |
| SentinelHubBatch.PuUsed | sentinel-hub/batch_scanner.py:298 | pu_used: twice each boundary's unit estimate, summed over the boundaries (a definition; bounded by PuUsedLowerBound) |
| SentinelHubBatch.PuUsedLowerBound | sentinel-hub/batch_scanner.py:298 | pu_used is at least 2 units per boundary |
| SentinelHubBatch.DeforestView | sentinel-hub/batch_scanner.py:314-315 | the history row is written exactly for a present, non-zero recent mean |
| SentinelHubBatch.CustomerScan | sentinel-hub/batch_scanner.py:283-390 | alerts_triggered equals the length of the alert list; boundaries_scanned ≤ boundaries; at most 2 alerts and at least 2 units per boundary |
| SentinelHubBatch.ScanDeforestation | sentinel-hub/batch_scanner.py:300-348 | the boundary counts as scanned exactly when the detector returned; the alerts added are exactly the deforestation step of the specification |
| SentinelHubBatch.ScanFire | sentinel-hub/batch_scanner.py:350-388 | the alerts added are exactly the fire step of the specification |
| SentinelHubBatch.ScanBoundary | sentinel-hub/batch_scanner.py:292-388 | one boundary's pass adds its unit estimate twice, counts it as scanned exactly when the detector returns, and appends exactly that boundary's delivered alerts, one count each |
| SentinelHubBatch.ScanCustomer | sentinel-hub/batch_scanner.py:277-390 | the loop returns exactly CustomerScan: the counters, alert list and unit total of the specification |
| SentinelHubBatch.ScanAll | sentinel-hub/batch_scanner.py:424-426 | one result per customer, in customer order |
| SentinelHubBatch.TotalAlerts | sentinel-hub/batch_scanner.py:427 | total_alerts: the sum of the per-customer alert counters (a definition; see RunTotals) |
| SentinelHubBatch.TotalPu | sentinel-hub/batch_scanner.py:428 | total_pu: the sum of the per-customer unit counters (a definition; see RunTotals) |
| SentinelHubBatch.AllAlerts | sentinel-hub/batch_scanner.py:442-444 | the alerts the summary lists: each result's alerts, in result order (a definition; see RunTotals) |
| SentinelHubBatch.TotalBoundaries | sentinel-hub/batch_scanner.py:292 | the number of boundaries over all customers (a definition; see RunTotals) |
| SentinelHubBatch.RunTotals | sentinel-hub/batch_scanner.py:417-428 | total_alerts is the number of alerts listed, at most 2 per boundary; total_pu is at least 2 per boundary |
| SentinelHubBatch.ScanCustomers | sentinel-hub/batch_scanner.py:420-428 | the loop returns the per-customer results and the sums of their alert and unit counters |
| SentinelHubBatch.RunBatchScan | sentinel-hub/batch_scanner.py:408-448 | the run stops with nothing exactly when a non-empty id matches nobody; otherwise it scans exactly the selected customers |
| GeeBatch.DeforestView | gee/batch_scanner.py:285 | this backend writes no history, and the alert location is the centroid |
| GeeBatch.CustomerScan | gee/batch_scanner.py:251-348 | alerts_triggered equals the length of the alert list; boundaries_scanned ≤ boundaries; at most 2 alerts per boundary |
| GeeBatch.ScanDeforestation | gee/batch_scanner.py:262-306 | the boundary counts as scanned exactly when the detector returned; the alerts added are exactly the deforestation step |
| GeeBatch.ScanFire | gee/batch_scanner.py:308-346 | the alerts added are exactly the fire step |
| GeeBatch.ScanBoundary | gee/batch_scanner.py:259-346 | one boundary's pass counts it as scanned exactly when the detector returns and appends exactly that boundary's delivered alerts, one count each |
| GeeBatch.ScanCustomer | gee/batch_scanner.py:245-348 | the loop returns exactly CustomerScan |
| GeeBatch.ScanAll | gee/batch_scanner.py:376-378 | one result per customer, in customer order |
| GeeBatch.TotalAlerts | gee/batch_scanner.py:379 | total_alerts: the sum of the per-customer alert counters (a definition; see RunTotals) |
| GeeBatch.AllAlerts | gee/batch_scanner.py:390-392 | the alerts the summary lists: each result's alerts, in result order (a definition; see RunTotals) |
| GeeBatch.TotalBoundaries | gee/batch_scanner.py:259 | the number of boundaries over all customers (a definition; see RunTotals) |
| GeeBatch.RunTotals | gee/batch_scanner.py:370-379 | total_alerts is the number of alerts listed, at most 2 per boundary |
| GeeBatch.ScanCustomers | gee/batch_scanner.py:373-379 | the loop returns the per-customer results and the sum of their alert counters |
| GeeBatch.RunBatchScan | gee/batch_scanner.py:361-397 | the run stops with nothing exactly when a non-empty id matches nobody; otherwise it scans exactly the selected customers |

## Left out

- Network and services. Not modelled: Sentinel Hub requests, Earth Engine image and reduction calls, `getInfo()`, the FIRMS HTTP request, the Supabase client, Fonnte WhatsApp and Resend email. They are foreign calls. Their results are parameters: a per-period statistics response, a record of Earth Engine readings, a FIRMS response, a detector returning None when it raised, and a delivery outcome.
- The evalscripts. They are JavaScript run by the imagery service.
- `geojson_to_bbox`. Its area estimate uses trigonometry on floats, so the boundary area is an input.
- Cloud masking, median composites and pixel areas. They are computed remotely. The mask is modelled over an explicit pixel list.
- Wall-clock time and date labels. `datetime.now()` is an integer day parameter, and `strftime` labels are replaced by the window periods.
- Floating point. Means, percentages, areas and the unit estimate are computed on exact reals. Rounding differences of IEEE doubles are not modelled.
- Message and HTML text, emojis, `print` logging, argparse, sample data and module-level configuration.
- Dry-run mode. It affects only whether messages are sent. The WhatsApp formatting that raises happens before the dry-run test.
- Email delivery outcome. `send_email_alert` catches its own errors and its result is ignored, so the email send is never a cause of `Raised`. In sentinel-hub/batch_scanner.py:250 the conditional inside the format spec makes the HTML formatting raise inside that `try`. Under this model's delivery outcomes that affects nothing.
- Database contents. A fire alert that is dropped by the WhatsApp error has already been inserted. The model records only the scan's own list and counters.
- SentinelHubBatch.EstimatedPu: a boundary record whose `hectares` key holds null would raise outside any `try` and abort the run. That case is not modelled: `None` stands only for a missing key.
- SentinelHubBatch.ScanDeforestation: the history write is an opaque success or failure per boundary. Its stored values (the recent mean, no min or max) are not modelled.
- GeeDetection.DetectDeforestation: the flagged area, boundary area, means and centroid come from the readings parameter. The mask lemmas relate a pixel list to the flagged area, but the method does not compute the area from pixels.
- GeeDetection.DetectFireHotspots: the fire count is taken as a whole number. The sum reduction behind `ee.Number(count_value)` could in principle return a fraction, for example where a pixel is only partly inside the polygon. The `> 0` and `>= 5` tests on such a fraction are not modelled.
- SentinelHubDetection.DetectFireHotspots: `len(lines) - 1` is taken over the stripped response text split on newlines, and the model takes those lines as given. `max(0, ...)` is moot because the split always yields at least one line.

## Findings

| source | as written | input that shows it | evidently intended | confidence | as-written member | corrected member |
|---|---|---|---|---|---|---|
| sentinel-hub/batch_scanner.py:184 | `send_whatsapp_alert` formats `affected_hectares` with `:.1f` outside its `try`. Fire alerts set it to `None`, so the `TypeError` reaches the fire `try` of `scan_customer` (lines 351-388), after the save and before the counter and list updates | a customer with a non-empty phone and a boundary whose FIRMS result has `alert_triggered` true: the alert is saved, but `alerts_triggered` stays 0 and the list stays empty | a missing area is shown as "N/A" and the fire alert is counted and listed | high (not executed) | Scanning.DeliverAsWritten, Scanning.AsWrittenDropsFireAlerts, Scanning.FireAlertLostExample | Scanning.DeliverCorrected, Scanning.CorrectedRecordsFireAlerts |
| gee/batch_scanner.py:158 | the same `:.1f` formatting of a `None` area, before the dry-run test and outside the `try`, so fire alerts are lost from the scan of any customer with a phone (lines 309-346) | as above, with an Earth Engine fire count of 1 or more | as above | high (not executed) | Scanning.DeliverAsWritten, Scanning.AsWrittenDropsFireAlerts, Scanning.FireAlertLostExample | Scanning.DeliverCorrected, Scanning.CorrectedRecordsFireAlerts |

The scan methods take the delivery as a parameter, so the model states both
behaviours. The counting lemmas hold for any delivery. `Scanning.AlertsCounted`
shows that under the corrected delivery, when every save succeeds, every
triggered result is listed.
