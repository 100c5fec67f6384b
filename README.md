# longjavaty-web in Dafny

A verified model of the deterministic core of the longjavaty-web Angular app.
That core covers five areas:

- **Benchmark comparison engine.** It looks up the age bracket for a metric. It estimates a percentile from five anchors by piecewise-linear interpolation. It computes the difference from the bracket average and assigns a five-tier rating.
- **Analysis page.** It builds the comparison list from the loaded series, the zone bands, the chart datasets, the centred y-axis and the tooltips. The `AnalysisComponent` class keeps the page's signals.
- **Metrics dashboard.** It builds the chart datasets and runs the highlight/reset of one series.
- **Series helpers.** These are the average, latest value and range, plus the transformer that maps and time-sorts measurements.
- **Quiz.** It covers the demo question service and two near-identical view-state machines: the `QuizStateService` store and the `QuizShellComponent` that the app mounts. Each asynchronous callback (session started or failed, question loaded or failed, answer received or failed) is its own event method.

One module per source file:

| file | module |
|---|---|
| `wrappers.dfy`, `seqs.dfy` | `Option`, and the `find`/`findIndex`/`filter` array built-ins as functions |
| `measurement_models.dfy`, `benchmark_models.dfy`, `quiz_models.dfy` | the record types of the models files |
| `chart_config.dfy`, `metric_config.dfy` | colour constants, dataset indices, display tables, `isLowerBetter` |
| `benchmark_service.dfy` | `BenchmarkService` |
| `chart_utils.dfy`, `chart_datasets.dfy`, `chart_tooltips.dfy`, `analysis.dfy` | the analysis page |
| `dashboard_chart_utils.dfy` | the dashboard datasets |
| `metrics_analytics.dfy`, `measurement_transformer.dfy` | series helpers |
| `user_profile.dfy` | the age from the identity provider's birthdate attribute |
| `quiz_demo.dfy`, `quiz_state.dfy`, `quiz_shell.dfy` | the quiz |

Modelling conventions:

- Numbers are `real`. Timestamps are `int` milliseconds.
- A chart dataset's `label` is called `caption`.
- The benchmark table `BENCHMARK_DATA` is a parameter.
- Number-to-string conversion in tooltips is a parameter `show`.
- Date parsing is a parameter `parse: string -> Option<CalendarDate>`. The current date is a parameter `today`, and the demo session's ISO timestamp is a parameter `nowIso`.
- A network request is not performed. The event method that starts it returns it as an `ApiCall` value, and its outcome is delivered later through the matching callback method.

Where the code and the written design disagree, the model follows the code:

- `compareUserToAgeGroup` stores the raw percentile. It is not inverted for lower-is-better metrics. Only `getRating` accounts for direction, through mirrored thresholds.
- No percentile is clamped to [0, 100]. Instead, `Extrapolate` caps the part above p90 at +10.
- With tied anchors, the first branch that matches wins. For example, a value equal to a tied p10 = p25 = p50 gives 10, not 50.
- Division by zero keeps JavaScript's semantics rather than being excluded.
  - If p90 = 0, the extrapolation is `Math.min(Infinity, 10)`, which is 10, so the percentile is 100.
  - If the average is 0, `differencePercentage` is ±Infinity or NaN. The `Quotient` datatype models this.
- JavaScript truthiness is kept:
  - an empty selected-option id cannot be submitted;
  - a token age of 0 leaves the default age of 28;
  - an empty birthdate array still counts as a present attribute.

## Model

| member | source | states |
|---|---|---|
| MetricConfig.IsLowerBetter | src/app/features/health-metrics/ui/analysis/metric-config.ts:38-40 | true exactly for resting heart rate; false for heart rate, VO2 max and steps |
| MetricConfig.RatingTablesComplete | src/app/features/health-metrics/ui/analysis/metric-config.ts:4-18 | every rating tier has a colour and a label; `poor` is labelled "Needs Improvement" |
| MetricConfig.MetricTablesKeys | src/app/features/health-metrics/ui/analysis/metric-config.ts:20-30 | the name and unit tables define exactly VO2 max, resting heart rate and steps; heart rate has no entry |
| MetricConfig.RatingDirectionIsLowerBetter | src/app/core/services/benchmark.service.ts:75 | the inline direction test in `getRating` agrees with `isLowerBetter` |
| BenchmarkService.GetBenchmarkData | src/app/core/services/benchmark.service.ts:11-14 | None iff no entry has the metric type; otherwise the first entry with that type |
| BenchmarkService.FindAgeGroup | src/app/core/services/benchmark.service.ts:27 | None iff no bracket has ageMin ≤ age ≤ ageMax; otherwise the first such bracket |
| BenchmarkService.GetAgeGroupBenchmark | src/app/core/services/benchmark.service.ts:20-29 | None iff the metric is missing or no bracket covers the age; otherwise the first bracket, in table order, of that metric's benchmark that covers the age |
| BenchmarkService.UniqueBracketFound | src/app/core/services/benchmark.service.ts:27 | with non-overlapping brackets, the bracket found is the one that covers the age |
| BenchmarkService.Interpolate | src/app/core/services/benchmark.service.ts:64-67 | a value in (lo, hi] maps into (from, from + width], and hi maps to from + width; the denominator is positive |
| BenchmarkService.Extrapolate | src/app/core/services/benchmark.service.ts:68 | the part added above p90 is at most 10, and positive when p90 ≥ 0 (p90 = 0 gives exactly 10) |
| BenchmarkService.CalculatePercentile | src/app/core/services/benchmark.service.ts:60-69 | exactly 10 at or below p10; in each of the later branches the result lies in that branch's band (10,25], (25,50], (50,75], (75,90], (90,100]; never above 100, and at least 10 when p90 ≥ 0 |
| BenchmarkService.PercentileAtAnchors | src/app/core/services/benchmark.service.ts:63-67 | with strictly increasing anchors, p10…p90 map to exactly 10, 25, 50, 75, 90 |
| BenchmarkService.TiedAnchorsTakeEarlierBranch | src/app/core/services/benchmark.service.ts:63-65 | an anchor value shared by several anchors gets the percentile of the earliest one |
| BenchmarkService.SegmentMonotonic | src/app/core/services/benchmark.service.ts:63-68 | a larger value never falls into an earlier branch |
| BenchmarkService.InterpolateMonotonic | src/app/core/services/benchmark.service.ts:64-67 | the interpolation within one segment is non-decreasing |
| BenchmarkService.ExtrapolateMonotonic | src/app/core/services/benchmark.service.ts:68 | the capped extrapolation above p90 is non-decreasing when p90 ≥ 0 |
| BenchmarkService.SameSegmentMonotonic | src/app/core/services/benchmark.service.ts:63-68 | two values in the same branch keep their order |
| BenchmarkService.PercentileMonotonic | src/app/core/services/benchmark.service.ts:60-69 | when p90 ≥ 0, a larger value never gets a smaller percentile |
| BenchmarkService.NegativeP90NotMonotonic | src/app/core/services/benchmark.service.ts:68 | with a negative p90, a larger value can get a smaller percentile (85 at -1, 80 at 0) |
| BenchmarkService.GetRating | src/app/core/services/benchmark.service.ts:71-90 | the five tiers with inclusive bounds 75/60/40/25 for higher-is-better, and 25/40/60/75 from below for resting heart rate |
| BenchmarkService.RatingMirror | src/app/core/services/benchmark.service.ts:77-89 | the resting-heart-rate rating at p equals the higher-is-better rating at 100 − p |
| BenchmarkService.RatingMonotonic | src/app/core/services/benchmark.service.ts:77-89 | the rating never gets worse as the percentile rises (higher-is-better) and never gets better (resting heart rate) |
| BenchmarkService.DifferencePercentage | src/app/core/services/benchmark.service.ts:44 | for a non-zero average, q × average = difference × 100; a zero average gives +Infinity, −Infinity or NaN according to the sign of the difference |
| BenchmarkService.CompareUserToAgeGroup | src/app/core/services/benchmark.service.ts:31-58 | None iff `getAgeGroupBenchmark` is None; otherwise the record from that same bracket (the first covering one), with the raw percentile, difference = userValue − average, that bracket's percentage, its label, anchors and average, and `getRating` of the raw percentile |
| BenchmarkService.RestingHeartRateAtP10 | src/app/core/services/benchmark.service.ts:63-78 | resting heart rate 52 against anchors 52/58/65/72/80 gets percentile 10 and rating excellent |
| BenchmarkService.Vo2MaxInUpperBand | src/app/core/services/benchmark.service.ts:66-84 | VO2 max 47 against anchors 30/35/40/45/50 gets percentile 81 and rating excellent |
| ChartUtils.GetSegmentValue | src/app/features/health-metrics/ui/analysis/chart-utils.ts:10-15 | p90 exactly when isLowerBetter equals (position is left), otherwise p10 |
| ChartUtils.EdgesShowBothExtremes | src/app/features/health-metrics/ui/analysis/chart-utils.ts:13 | the left and right edges show one p10 and one p90 |
| ChartUtils.BottomValue | src/app/features/health-metrics/ui/analysis/chart-utils.ts:30 | max(p10 − 15, 40) for lower-is-better metrics, max(p10 − 10, 0) otherwise |
| ChartUtils.CalculateCenteredYAxis | src/app/features/health-metrics/ui/analysis/chart-utils.ts:24-34 | symmetric about the average; max ≥ p90 + 10 and min ≤ bottom; one of the two is tight; the average lies in [min, max] when the top is not below the bottom |
| MetricsAnalytics.Values | src/app/core/analytics/metrics-analytics.service.ts:21 | one value per point, in order |
| MetricsAnalytics.CalculateAverage | src/app/core/analytics/metrics-analytics.service.ts:8-12 | 0 for no points; otherwise average × length = sum |
| MetricsAnalytics.GetLatestValue | src/app/core/analytics/metrics-analytics.service.ts:14-17 | null iff there are no points; otherwise the last point's value |
| MetricsAnalytics.SeqMin | src/app/core/analytics/metrics-analytics.service.ts:23 | a value of the sequence that is at most every value |
| MetricsAnalytics.SeqMax | src/app/core/analytics/metrics-analytics.service.ts:24 | a value of the sequence that is at least every value |
| MetricsAnalytics.GetRange | src/app/core/analytics/metrics-analytics.service.ts:19-26 | null iff there are no points; otherwise min ≤ max, both occur among the values, and every value lies between them |
| MetricsAnalytics.MeanWithinBounds | src/app/core/analytics/metrics-analytics.service.ts:10-11 | the mean of values that share bounds lies within those bounds |
| MetricsAnalytics.AverageWithinRange | src/app/core/analytics/metrics-analytics.service.ts:8-26 | for a non-empty series, range min ≤ average ≤ range max |
| MeasurementTransformer.ToPoint | src/app/core/utils/measurement-transformer.ts:35-39 | the point carries the measurement's time, value and unit |
| MeasurementTransformer.MapPoints | src/app/core/utils/measurement-transformer.ts:34-39 | one point per measurement, in order |
| MeasurementTransformer.Insert | src/app/core/utils/measurement-transformer.ts:40 | inserting into a time-sorted sequence keeps it sorted and adds exactly the new element; the head is the new element or the old head |
| MeasurementTransformer.SortByTime | src/app/core/utils/measurement-transformer.ts:40 | a time-sorted permutation of the input |
| MeasurementTransformer.InsertKeepsTies | src/app/core/utils/measurement-transformer.ts:40 | insertion keeps the relative order of points with equal timestamps |
| MeasurementTransformer.SortKeepsTies | src/app/core/utils/measurement-transformer.ts:40 | the sort is stable: points with equal timestamps keep their input order |
| MeasurementTransformer.ToDataPoints | src/app/core/utils/measurement-transformer.ts:33-41 | same length; a permutation of the mapped input; sorted by time; stable; each point comes from some measurement with that time, value and unit |
| MeasurementTransformer.ToMetricSeries | src/app/core/utils/measurement-transformer.ts:11-21 | keeps the type, takes the label and colour from the per-type tables, and the data is the sorted points |
| MeasurementTransformer.ToMultipleMetricSeries | src/app/core/utils/measurement-transformer.ts:24-31 | one series per type, in order; series i is `toMetricSeries(types[i], arrays[i])`: type, label and colour of types[i] and the data of arrays[i] |
| DashboardChartUtils.ToChartPoints | src/app/features/health-metrics/ui/metrics-dashboard/dashboard-chart-utils.ts:14-17 | one point per datum, with x = timestamp and y = value |
| DashboardChartUtils.CreateDataset | src/app/features/health-metrics/ui/metrics-dashboard/dashboard-chart-utils.ts:12-31 | label, type and points from the series; the border is the colour; the background is colour + "20"; width 2.5 and radius 3 |
| DashboardChartUtils.CreateEach | src/app/features/health-metrics/ui/metrics-dashboard/dashboard-chart-utils.ts:12 | one dataset per series, in order |
| DashboardChartUtils.CreateChartDatasets | src/app/features/health-metrics/ui/metrics-dashboard/dashboard-chart-utils.ts:9-32 | the datasets of the non-empty series, in order; every dataset has points |
| DashboardChartUtils.CreateChartDatasetsConcat | src/app/features/health-metrics/ui/metrics-dashboard/dashboard-chart-utils.ts:10-11 | dropping empty series keeps the order of the rest (it distributes over concatenation) |
| DashboardChartUtils.StripDim | src/app/features/health-metrics/ui/metrics-dashboard/dashboard-chart-utils.ts:54 | removes exactly one trailing "40", and leaves any other string unchanged |
| DashboardChartUtils.StripDimAfterAppend | src/app/features/health-metrics/ui/metrics-dashboard/dashboard-chart-utils.ts:43-54 | stripping after appending "40" restores the colour |
| DashboardChartUtils.HighlightDataset | src/app/features/health-metrics/ui/metrics-dashboard/dashboard-chart-utils.ts:34-46 | same length and order; the target keeps its colour with width 4 and radius 4; the others get width 1.5 and radius 2 and have "40" appended to a string colour |
| DashboardChartUtils.ResetDatasetHighlight | src/app/features/health-metrics/ui/metrics-dashboard/dashboard-chart-utils.ts:48-57 | same length and order; width 2.5, radius 3; one trailing "40" stripped from string colours |
| DashboardChartUtils.ResetAfterHighlight | src/app/features/health-metrics/ui/metrics-dashboard/dashboard-chart-utils.ts:34-57 | reset after highlight restores a dataset unless it is the target and its colour ends in "40" |
| DashboardChartUtils.ResetStripsTargetEndingIn40 | src/app/features/health-metrics/ui/metrics-dashboard/dashboard-chart-utils.ts:41-54 | a highlighted target coloured "#ff4040" comes back from reset as "#ff40" |
| DashboardChartUtils.HighlightResetRoundTrip | src/app/features/health-metrics/ui/metrics-dashboard/dashboard-chart-utils.ts:9-57 | for series without a colour ending in "40", reset after highlight gives back the created datasets |
| DashboardChartUtils.TypeColorsNotDimmed | src/app/core/models/measurement.models.ts:48-53 | no per-type colour ends in "40", so the round trip holds for every series the transformer builds |
| ChartDatasets.CreateUserDataset | src/app/features/health-metrics/ui/analysis/chart-datasets.ts:55-71 | "Your Value", order 0, the user colour, no fill, and one point per datum with x = timestamp and y = value |
| ChartDatasets.CreateAverageDataset | src/app/features/health-metrics/ui/analysis/chart-datasets.ts:80-93 | "Average", order 1, dashed [5, 5], radius 0, and one point per date at the average |
| ChartDatasets.CreateZoneDataset | src/app/features/health-metrics/ui/analysis/chart-datasets.ts:106-123 | one point per date at the value; transparent border and radius 0; label, colour, fill and order passed through |
| ChartTooltips.NotContainsWithoutFirstChar | src/app/features/health-metrics/ui/analysis/chart-tooltips.ts:57-61 | a string without the first character of a word does not contain the word |
| ChartTooltips.UserLineIsNotZone | src/app/features/health-metrics/ui/analysis/chart-tooltips.ts:57-61 | "Your Value" is not a zone label |
| ChartTooltips.AverageLineIsZone | src/app/features/health-metrics/ui/analysis/chart-tooltips.ts:57-61 | "Average" is a zone label, because it contains "Average" |
| ChartTooltips.ZoneCaptionsAreZones | src/app/features/health-metrics/ui/analysis/chart-tooltips.ts:57-61 | every zone caption of both builders is a zone label |
| ChartTooltips.GetTooltipLabel | src/app/features/health-metrics/ui/analysis/chart-tooltips.ts:9-29 | each of the four formats under its own condition: "label: value" for a non-zone label; for a zone label "label: <value" at index 2, "label: >prev" at the last index, otherwise "label: prev-value", where prev is the point of the dataset below |
| ChartTooltips.GetTooltipLabelByPosition | src/app/features/health-metrics/ui/analysis/chart-tooltips.ts:9-29 | the same four formats, each stated under its condition, with the zone case chosen by dataset index ≥ 2 instead of by label text |
| ChartTooltips.CreateColorPair | src/app/features/health-metrics/ui/analysis/chart-tooltips.ts:63-65 | border and background are the given colour |
| ChartTooltips.ZonePalette | src/app/features/health-metrics/ui/analysis/chart-tooltips.ts:49-51 | six colours in either direction |
| ChartTooltips.ZoneColor | src/app/features/health-metrics/ui/analysis/chart-tooltips.ts:49-54 | palette[index − 2] for indices 2…7, otherwise the default colour |
| ChartTooltips.GetTooltipColor | src/app/features/health-metrics/ui/analysis/chart-tooltips.ts:37-55 | the user colour at 0 and the average colour at 1; otherwise the zone colour, with the lower-is-better palette chosen iff there are more than 6 datasets |
| ChartTooltips.GetTooltipColorFor | src/app/features/health-metrics/ui/analysis/chart-tooltips.ts:37-55 | the same, with the palette chosen by the metric's direction |
| ChartTooltips.PalettesMirror | src/app/features/health-metrics/ui/analysis/chart-tooltips.ts:50-51 | the two palettes are each other's reverse |
| Analysis.GetRatingColor | src/app/features/health-metrics/ui/analysis/analysis.component.ts:105-107 | the table colour, or "#64748b" for an unknown rating |
| Analysis.GetRatingLabel | src/app/features/health-metrics/ui/analysis/analysis.component.ts:109-111 | the table label, or "Unknown" |
| Analysis.GetMetricName | src/app/features/health-metrics/ui/analysis/analysis.component.ts:113-115 | the table name, or "" when missing |
| Analysis.GetMetricUnit | src/app/features/health-metrics/ui/analysis/analysis.component.ts:117-119 | the table unit, or "" when missing |
| Analysis.DisplayTablesCoverRatings | src/app/features/health-metrics/ui/analysis/analysis.component.ts:105-119 | no real rating falls back to a default; heart rate has an empty name and unit |
| Analysis.GetActiveComparisons | src/app/features/health-metrics/ui/analysis/analysis.component.ts:125-127 | exactly the non-steps comparisons |
| Analysis.ActiveComparisonsConcat | src/app/features/health-metrics/ui/analysis/analysis.component.ts:126 | the filter keeps the order of the rest |
| Analysis.CompareSeries | src/app/features/health-metrics/ui/analysis/analysis.component.ts:75-82 | a comparison iff the series has data and a bracket covers the age; it carries the series type and the last point's value |
| Analysis.CompareAll | src/app/features/health-metrics/ui/analysis/analysis.component.ts:74-83 | one comparison attempt per series, in order |
| Analysis.LoadedComparisons | src/app/features/health-metrics/ui/analysis/analysis.component.ts:73-96 | every kept comparison comes from some series, and every successful comparison is kept |
| Analysis.LoadedComparisonsConcat | src/app/features/health-metrics/ui/analysis/analysis.component.ts:74-93 | the loaded comparisons keep the order of the series |
| Analysis.LoadedComparisonsComplete | src/app/features/health-metrics/ui/analysis/analysis.component.ts:93 | when every series compares, nothing is dropped and the order is kept |
| Analysis.LoadedComparisonsFromSeries | src/app/features/health-metrics/ui/analysis/analysis.component.ts:74-83 | every loaded comparison belongs to a non-empty series of the same type |
| Analysis.ZoneBoundaries | src/app/features/health-metrics/ui/analysis/analysis.component.ts:135-140 | six boundaries |
| Analysis.ZoneBoundariesClimb | src/app/features/health-metrics/ui/analysis/analysis.component.ts:135-140 | with non-decreasing anchors the boundaries p10, p25, p50, p75, p90, p90 + 10 never decrease, and the last one is strictly higher |
| Analysis.CreateLowerIsBetterZones | src/app/features/health-metrics/ui/analysis/analysis.component.ts:133-142 | six zones at p10…p90 + 10; the first fills to the origin and the rest to the previous one; orders 7 down to 2; from "Athletic Range" to "Needs Improvement" |
| Analysis.CreateHigherIsBetterZones | src/app/features/health-metrics/ui/analysis/analysis.component.ts:148-157 | the same layout, from "Needs Improvement" to "Outstanding" |
| Analysis.ZoneDirectionsMirror | src/app/features/health-metrics/ui/analysis/analysis.component.ts:133-157 | both builders put zone k at the same points; zone k of one has the shade of zone 5 − k of the other, and the same caption except for the best band |
| Analysis.Timestamps | src/app/features/health-metrics/ui/analysis/analysis.component.ts:167 | one date per point, in order |
| Analysis.GetChartData | src/app/features/health-metrics/ui/analysis/analysis.component.ts:159-182 | empty datasets and no labels iff the series is missing or empty or there is no comparison; otherwise labels = dates, and [user, average] then the zones chosen by `isLowerBetter` |
| Analysis.ChartableHasEightDatasets | src/app/features/health-metrics/ui/analysis/analysis.component.ts:174-180 | a chartable metric always has 8 datasets |
| Analysis.GetChartAxis | src/app/features/health-metrics/ui/analysis/analysis.component.ts:184-198 | no bounds iff there is no comparison of the type; otherwise the centred axis of the first one |
| Analysis.EveryComparisonIsCharted | src/app/features/health-metrics/ui/analysis/analysis.component.ts:73-164 | when series types are distinct, every loaded comparison's metric is chartable |
| Analysis.ChartPointsAligned | src/app/features/health-metrics/ui/analysis/analysis.component.ts:167-180 | all 8 datasets have a point at every date index |
| Analysis.ZoneTooltipsShowBands | src/app/features/health-metrics/ui/analysis/analysis.component.ts:133-182 | on a chart, zone k reads "<p10", ">p90", or the band between the previous and its own boundary; the tooltip as written and the index-based one agree on zones |
| Analysis.ChartZonesAreZones | src/app/features/health-metrics/ui/analysis/analysis.component.ts:133-157 | every zone of a drawn chart has a label that `isZoneDataset` accepts |
| Analysis.ZoneLabelOn | src/app/features/health-metrics/ui/analysis/chart-tooltips.ts:15-28 | for eight datasets whose zones follow the common layout, zone k's tooltip reads its band, and both label functions agree |
| Analysis.AverageLabelOn | src/app/features/health-metrics/ui/analysis/chart-tooltips.ts:13-28 | for datasets that start with the user and average lines, the written label of the average line joins the user's value and the average |
| Analysis.AverageTooltipAsWritten | src/app/features/health-metrics/ui/analysis/chart-tooltips.ts:13-28 | as written, the average line's tooltip at point j reads "Average: " + user value + "-" + average |
| Analysis.AverageTooltipByPosition | src/app/features/health-metrics/ui/analysis/chart-tooltips.ts:13 | with the index-based test, the average line reads "Average: " + average |
| Analysis.UserTooltip | src/app/features/health-metrics/ui/analysis/chart-tooltips.ts:13 | the user line reads "Your Value: " + value, with either test |
| Analysis.TooltipPaletteLowerIsBetter | src/app/features/health-metrics/ui/analysis/chart-tooltips.ts:40-54 | for resting heart rate, each zone's tooltip colour is its band's tier colour |
| Analysis.TooltipPaletteAsWritten | src/app/features/health-metrics/ui/analysis/chart-tooltips.ts:40-54 | for a higher-is-better metric, the "Needs Improvement" zone gets the excellent colour |
| Analysis.LowerZonesTierColors | src/app/features/health-metrics/ui/analysis/chart-tooltips.ts:50 | the lower-is-better palette matches the tier each lower-is-better zone names |
| Analysis.HigherZonesTierColors | src/app/features/health-metrics/ui/analysis/chart-tooltips.ts:51 | the higher-is-better palette matches the tier each higher-is-better zone names |
| Analysis.TooltipPaletteMatchesTier | src/app/features/health-metrics/ui/analysis/chart-tooltips.ts:37-55 | with the palette chosen by direction, every zone's tooltip colour is its band's tier colour, either way |
| Analysis.AnalysisComponent.constructor | src/app/features/health-metrics/ui/analysis/analysis.component.ts:31-34 | age 28, no comparisons, loading, no metrics |
| Analysis.AnalysisComponent.NgOnInit | src/app/features/health-metrics/ui/analysis/analysis.component.ts:51-56 | a truthy token age replaces the age; nothing else changes |
| Analysis.AnalysisComponent.OnMetrics | src/app/features/health-metrics/ui/analysis/analysis.component.ts:62-96 | stores the metrics, sets the comparisons to the loaded ones for the current age, ends loading, and keeps every comparison backed by a loaded series |
| Analysis.AnalysisComponent.LoadComparisons | src/app/features/health-metrics/ui/analysis/analysis.component.ts:73-96 | comparisons = the loaded comparisons; not loading; age and metrics are unchanged |
| Analysis.AnalysisComponent.OnMetricsError | src/app/features/health-metrics/ui/analysis/analysis.component.ts:66-69 | ends loading and changes nothing else |
| UserProfileService.AgeOn | src/app/core/services/user-profile.service.ts:76-82 | the age-th birthday has been reached by today and the next one has not |
| UserProfileService.AgeIsTheOnlyCount | src/app/core/services/user-profile.service.ts:76-82 | only one count of years has that property |
| UserProfileService.BirthdayGivesYearDifference | src/app/core/services/user-profile.service.ts:76-82 | on the birthday the age is the year difference |
| UserProfileService.OneYearLater | src/app/core/services/user-profile.service.ts:76-82 | the same date a year later gives one more year |
| UserProfileService.BirthdateValue | src/app/core/services/user-profile.service.ts:31-33 | the first element of an array (none if it is empty), or the scalar itself |
| UserProfileService.AgeFromBirthdate | src/app/core/services/user-profile.service.ts:62-91 | an age iff the birthdate is a non-empty string that parses and gives an age within [0, 150]; that age is `AgeOn` |
| UserProfileService.CalculateAge | src/app/core/services/user-profile.service.ts:62-91 | the step-by-step computation with its decrement equals `AgeFromBirthdate` |
| UserProfileService.GetUserProfile | src/app/core/services/user-profile.service.ts:16-48 | null iff there is no provider profile; identity fields are copied; when the attribute is truthy the birthdate is set, and the age is set iff `calculateAge` gives one |
| UserProfileService.UserAge | src/app/core/services/user-profile.service.ts:54-56 | the profile's age, or null |
| QuizDemo.GetSession | src/app/features/quiz/data/quiz-demo.service.ts:8-32 | the demo id, one question, started now |
| QuizDemo.GetQuestion | src/app/features/quiz/data/quiz-demo.service.ts:14-39 | the base question "demo-question" with its four options in order |
| QuizDemo.EvaluateAnswer | src/app/features/quiz/data/quiz-demo.service.ts:41-50 | correct iff the option is "option-201"; the explanation matches the verdict; the session comes back unchanged |
| QuizDemo.ExactlyOneCorrectOption | src/app/features/quiz/data/quiz-demo.service.ts:6-23 | exactly one of the demo options, the second, is correct |
| QuizState.QuizStateService.constructor | src/app/features/quiz/data/quiz-state.service.ts:20-25 | all six signals empty, not loading |
| QuizState.QuizStateService.ResetState | src/app/features/quiz/data/quiz-state.service.ts:131-136 | clears question, feedback, error and selection; keeps session and loading |
| QuizState.QuizStateService.StartNewSession | src/app/features/quiz/data/quiz-state.service.ts:43-47 | resets, sets loading, and requests a session |
| QuizState.QuizStateService.LoadNextQuestion | src/app/features/quiz/data/quiz-state.service.ts:85-88 | sets loading and requests the next question; nothing else changes |
| QuizState.QuizStateService.OnSessionStarted | src/app/features/quiz/data/quiz-state.service.ts:48-51 | stores the session and requests its first question |
| QuizState.QuizStateService.ActivateDemoMode | src/app/features/quiz/data/quiz-state.service.ts:138-145 | the demo session and question, no feedback or selection, not loading, the given message |
| QuizState.QuizStateService.OnSessionFailed | src/app/features/quiz/data/quiz-state.service.ts:52-55 | demo mode with "Backend not reachable…" |
| QuizState.QuizStateService.OnQuestionLoaded | src/app/features/quiz/data/quiz-state.service.ts:89-100 | the returned session and question; feedback, selection and error cleared; loading ends |
| QuizState.QuizStateService.OnQuestionLoadFailed | src/app/features/quiz/data/quiz-state.service.ts:96-100 | demo mode with "Could not load questions…" |
| QuizState.QuizStateService.SelectOption | src/app/features/quiz/data/quiz-state.service.ts:59-61 | changes only the selection |
| QuizState.QuizStateService.SubmitAnswer | src/app/features/quiz/data/quiz-state.service.ts:63-113 | no change and no request when session, question or a truthy selection is missing or loading; for the demo session, feedback from `evaluateAnswer` and the selection cleared; otherwise loading and a request for (question id, selection) |
| QuizState.QuizStateService.OnAnswerReceived | src/app/features/quiz/data/quiz-state.service.ts:114-127 | feedback set and selection cleared; next question installed or a reload requested; loading is false afterwards even while the reload is pending |
| QuizState.QuizStateService.OnAnswerFailed | src/app/features/quiz/data/quiz-state.service.ts:123-127 | only the error message is set, and loading ends |
| QuizState.QuizStateService.ClearFeedback | src/app/features/quiz/data/quiz-state.service.ts:80-82 | only the feedback is cleared |
| QuizState.OfflineWalkthrough | src/app/features/quiz/data/quiz-state.service.ts:43-78 | with the backend unreachable, choosing option-201 gives a correct verdict on the demo session with no further request |
| QuizState.AnswerDuringReload | src/app/features/quiz/data/quiz-state.service.ts:109-129 | after an answer without a next question, the store still accepts a submission while the reload is pending |
| QuizShell.QuizShellComponent.constructor | src/app/features/quiz/ui/quiz-shell/quiz-shell.component.ts:26-31 | all six signals empty, not loading |
| QuizShell.QuizShellComponent.NgOnInit | src/app/features/quiz/ui/quiz-shell/quiz-shell.component.ts:37-39 | starts a new session |
| QuizShell.QuizShellComponent.ResetViewState | src/app/features/quiz/ui/quiz-shell/quiz-shell.component.ts:119-124 | clears question, feedback, error and selection; keeps the session |
| QuizShell.QuizShellComponent.StartNewSession | src/app/features/quiz/ui/quiz-shell/quiz-shell.component.ts:41-44 | resets, sets loading, requests a session |
| QuizShell.QuizShellComponent.LoadNextQuestion | src/app/features/quiz/ui/quiz-shell/quiz-shell.component.ts:98-100 | sets loading and requests the next question |
| QuizShell.QuizShellComponent.OnSessionStarted | src/app/features/quiz/ui/quiz-shell/quiz-shell.component.ts:45-48 | stores the session and requests its first question |
| QuizShell.QuizShellComponent.UseDemoFallback | src/app/features/quiz/ui/quiz-shell/quiz-shell.component.ts:126-133 | the demo session and question, not loading, the given message |
| QuizShell.QuizShellComponent.OnSessionFailed | src/app/features/quiz/ui/quiz-shell/quiz-shell.component.ts:49-51 | demo fallback with "Backend not reachable…" |
| QuizShell.QuizShellComponent.OnQuestionLoaded | src/app/features/quiz/ui/quiz-shell/quiz-shell.component.ts:101-108 | replaces session and question, and clears feedback, selection, error and loading |
| QuizShell.QuizShellComponent.OnQuestionLoadFailed | src/app/features/quiz/ui/quiz-shell/quiz-shell.component.ts:109-111 | demo fallback with "Could not load questions…" |
| QuizShell.QuizShellComponent.SelectOption | src/app/features/quiz/ui/quiz-shell/quiz-shell.component.ts:55-57 | changes only the selection |
| QuizShell.QuizShellComponent.SubmitAnswer | src/app/features/quiz/ui/quiz-shell/quiz-shell.component.ts:59-80 | the same guard as the store, stated as the store's `canSubmit` plus an open session (both directions); without it nothing changes; demo feedback with no loading change; otherwise loading and a request |
| QuizShell.QuizShellComponent.OnAnswerReceived | src/app/features/quiz/ui/quiz-shell/quiz-shell.component.ts:81-90 | feedback set and selection cleared; a next question ends loading; otherwise the reload keeps loading on |
| QuizShell.QuizShellComponent.OnAnswerFailed | src/app/features/quiz/ui/quiz-shell/quiz-shell.component.ts:91-94 | loading ends and the fixed error message is set |
| QuizShell.QuizShellComponent.ClearFeedback | src/app/features/quiz/ui/quiz-shell/quiz-shell.component.ts:115-117 | only the feedback is cleared |
| QuizShell.NoAnswerDuringReload | src/app/features/quiz/ui/quiz-shell/quiz-shell.component.ts:81-99 | after an answer without a next question, the shell refuses a submission until the reload arrives |

## Left out

- Network, authentication and RxJS:
  - HTTP and API clients, the Keycloak wiring and the environment files are not modelled. A request is the event method's `ApiCall` result, and its outcome is a callback method.
  - Callbacks are atomic transitions.
  - The store's `finalize` ordering is modelled only by its net effect: a reload issued inside the answer callback is still pending when `finalize` clears loading. No other interleaving of responses is modelled.
- Analysis.AnalysisComponent.LoadComparisons: the `forkJoin` error branch (analysis.component.ts:97-101) is not modelled. The comparisons here are pure computations that cannot fail.
- The `getAllBenchmarks` accessor (benchmark.service.ts:16-18) is not modelled. It only returns the table, and the table is a parameter here.
- `BENCHMARK_DATA` is not part of this model. Every operation takes the table as a parameter.
- Analysis.GetChartAxis: it gives the y-axis bounds of `getChartOptions`, not the whole Chart.js option object. `createBaseChartOptions`, `chart-config.ts`'s option literals and `dashboard-chart-config.ts` only configure the chart library.
- Number formatting is a parameter:
  - ChartTooltips.GetTooltipLabel: the template-literal conversion is the `show` parameter.
  - ChartUtils.GetSegmentValue: it returns the anchor, not its `toFixed(0)` text.
- Date handling is a parameter:
  - UserProfileService.CalculateAge: `new Date(...)` parsing, time zones and `isNaN` validity are the `parse` parameter, and the current date is `today`.
  - QuizDemo.GetSession: the ISO timestamp is `nowIso`.
- MeasurementTransformer.ToPoint: `recordedAt` is an ISO string read by `new Date` (measurement-transformer.ts:36). An unreadable date gives `NaN`, and the sort comparator (line 40) then gives an order the engine chooses. The model takes the timestamp as an `int`, so it has no invalid date.
- MeasurementTransformer.ToMultipleMetricSeries: the source indexes `measurementArrays[index]` with no check, and a missing array throws a `TypeError` at `.map` (line 29). The model requires at least as many arrays as types, so that throw is not modelled.
- Analysis.AnalysisComponent.NgOnInit: the token's `age` claim (src/app/core/auth/auth.service.ts:60) is any JavaScript number. The model takes `Option<int>`, so a fractional age that falls between two integer brackets is not expressed.
- Dataset fields are partly left out:
  - ChartDatasets.CreateUserDataset: the contract fixes caption, order, colour, fill and points. Tension, widths and hover radius are set in the body but not restated.
  - DashboardChartUtils.CreateDataset: the contract leaves out tension, hover radius and point colours in the same way.
- Other files: the mock data generator, the health-metrics state service, the dashboard, settings and routing components, and `console` logging are not modelled. They are nondeterministic, UI-only or I/O.

## Findings

| source | as written | input that shows it | evidently intended | confidence | as-written member | corrected member |
|---|---|---|---|---|---|---|
| src/app/features/health-metrics/ui/analysis/chart-tooltips.ts:40 | the tooltip palette is the lower-is-better one iff the chart has more than 6 datasets; every chart has 8 | a VO2 max chart, hovering the "Needs Improvement" zone at dataset index 2 | the palette follows the metric's direction | not executed | Analysis.TooltipPaletteAsWritten | ChartTooltips.GetTooltipColorFor |
| src/app/features/health-metrics/ui/analysis/chart-tooltips.ts:13-61 | `isZoneDataset("Average")` is true, so the average line is formatted as a zone band | the average line at dataset index 1, point j | "Average: <average>" | not executed | Analysis.AverageTooltipAsWritten | ChartTooltips.GetTooltipLabelByPosition |

The second row as written: the tooltip reads "Average: <user value>-<average>", because it takes the user line's y as the previous boundary. The properties proved for the corrected members are `Analysis.TooltipPaletteMatchesTier` and `Analysis.AverageTooltipByPosition`.
