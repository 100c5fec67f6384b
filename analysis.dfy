/** The analysis view: per-metric comparisons with the age group, and the zone chart drawn for each. */
module Analysis {
  import opened Wrappers
  import opened Seqs
  import opened MeasurementModels
  import opened BenchmarkModels
  import opened BenchmarkService
  import opened MetricConfig
  import opened ChartConfig
  import opened ChartUtils
  import opened ChartDatasets
  import opened ChartTooltips

  /** The badge colour of a rating key, slate grey for a key the table lacks. */
  function GetRatingColor(rating: string): (c: string)
    ensures rating in RatingColors ==> c == RatingColors[rating]
    ensures rating !in RatingColors ==> c == "#64748b"
  {
    if rating in RatingColors && RatingColors[rating] != "" then RatingColors[rating] else "#64748b"
  }

  /** The badge text of a rating key, "Unknown" for a key the table lacks. */
  function GetRatingLabel(rating: string): (l: string)
    ensures rating in RatingLabels ==> l == RatingLabels[rating]
    ensures rating !in RatingLabels ==> l == "Unknown"
  {
    if rating in RatingLabels && RatingLabels[rating] != "" then RatingLabels[rating] else "Unknown"
  }

  /** The display name of a metric, empty for one the table lacks. */
  function GetMetricName(t: MeasurementType): (n: string)
    ensures t in MetricNames ==> n == MetricNames[t]
    ensures t !in MetricNames ==> n == ""
  {
    if t in MetricNames then MetricNames[t] else ""
  }

  /** The unit of a metric, empty for one the table lacks. */
  function GetMetricUnit(t: MeasurementType): (u: string)
    ensures t in MetricUnits ==> u == MetricUnits[t]
    ensures t !in MetricUnits ==> u == ""
  {
    if t in MetricUnits then MetricUnits[t] else ""
  }

  /** Every rating the service produces has its own colour and label; heart rate shows no name or unit. */
  lemma DisplayTablesCoverRatings(r: Rating)
    ensures GetRatingColor(RatingKey(r)) != "#64748b" && GetRatingLabel(RatingKey(r)) != "Unknown"
    ensures GetMetricName(HeartRate) == "" && GetMetricUnit(HeartRate) == ""
  {
    RatingTablesComplete(r);
    MetricTablesKeys();
  }

  function IsNotSteps(): UserComparison -> bool {
    (c: UserComparison) => c.metricType != Steps
  }

  /** The comparisons shown as cards: all but the step count, in their order. */
  function GetActiveComparisons(comparisons: seq<UserComparison>): (r: seq<UserComparison>)
    ensures forall i :: 0 <= i < |r| ==> r[i].metricType != Steps && r[i] in comparisons
    ensures forall i :: 0 <= i < |comparisons| && comparisons[i].metricType != Steps ==> comparisons[i] in r
  {
    Filter(comparisons, IsNotSteps())
  }

  /** Filtering the combined list is filtering each part. */
  lemma ActiveComparisonsConcat(a: seq<UserComparison>, b: seq<UserComparison>)
    ensures GetActiveComparisons(a + b) == GetActiveComparisons(a) + GetActiveComparisons(b)
  {
    FilterConcat(a, b, IsNotSteps());
  }

  /** The latest value of a non-empty series, the one compared with the age group. */
  function LatestValue(metric: MetricSeries): real
    requires |metric.data| > 0
  {
    metric.data[|metric.data| - 1].value
  }

  /** The comparison of a series, when it has data and a benchmark applies. */
  function CompareSeries(table: seq<MetricBenchmark>, metric: MetricSeries, age: int): (r: Option<UserComparison>)
    ensures r.Some? <==> |metric.data| > 0 && GetAgeGroupBenchmark(table, metric.measurementType, age).Some?
    ensures r.Some? ==> r.value.metricType == metric.measurementType && r.value.userValue == LatestValue(metric)
  {
    if |metric.data| == 0 then None
    else CompareUserToAgeGroup(table, metric.measurementType, LatestValue(metric), age)
  }

  /** The comparison of each series, in order. */
  function CompareAll(table: seq<MetricBenchmark>, metrics: seq<MetricSeries>, age: int): (r: seq<Option<UserComparison>>)
    ensures |r| == |metrics| && forall i :: 0 <= i < |metrics| ==> r[i] == CompareSeries(table, metrics[i], age)
  {
    seq(|metrics|, i requires 0 <= i < |metrics| => CompareSeries(table, metrics[i], age))
  }

  /**
   * What loading the comparisons yields: for each series with data, in order, the comparison of
   * its latest value, the ones without a benchmark dropped.
   */
  function LoadedComparisons(table: seq<MetricBenchmark>, metrics: seq<MetricSeries>, age: int)
    : (r: seq<UserComparison>)
    ensures |r| <= |metrics|
    ensures forall i :: 0 <= i < |r| ==> exists j :: 0 <= j < |metrics| && CompareSeries(table, metrics[j], age) == Some(r[i])
    ensures forall j :: 0 <= j < |metrics| && CompareSeries(table, metrics[j], age).Some? ==>
      CompareSeries(table, metrics[j], age).value in r
  {
    var all := CompareAll(table, metrics, age);
    assert forall i :: 0 <= i < |Somes(all)| ==> exists j :: 0 <= j < |all| && all[j] == Some(Somes(all)[i]);
    Somes(all)
  }

  /** Loading keeps the order of the series: the comparisons of a concatenation are concatenated. */
  lemma LoadedComparisonsConcat(table: seq<MetricBenchmark>, a: seq<MetricSeries>, b: seq<MetricSeries>, age: int)
    ensures LoadedComparisons(table, a + b, age) == LoadedComparisons(table, a, age) + LoadedComparisons(table, b, age)
  {
    assert CompareAll(table, a + b, age) == CompareAll(table, a, age) + CompareAll(table, b, age);
    SomesConcat(CompareAll(table, a, age), CompareAll(table, b, age));
  }

  /** With data in every series and a benchmark for each, there is one comparison per series, in order. */
  lemma LoadedComparisonsComplete(table: seq<MetricBenchmark>, metrics: seq<MetricSeries>, age: int)
    requires forall j :: 0 <= j < |metrics| ==> CompareSeries(table, metrics[j], age).Some?
    ensures var r := LoadedComparisons(table, metrics, age);
      |r| == |metrics| && forall i :: 0 <= i < |r| ==> r[i].metricType == metrics[i].measurementType
  {
    var all := CompareAll(table, metrics, age);
    SomesAllPresent(all);
    assert forall i :: 0 <= i < |metrics| ==> all[i] == Some(Somes(all)[i]);
  }

  /** Zone boundaries from the first zone up: the five anchors and ten past the top one. */
  function ZoneBoundaries(p: Percentiles): (b: seq<real>)
    ensures |b| == 6
  {
    [p.p10, p.p25, p.p50, p.p75, p.p90, p.p90 + 10.0]
  }

  /** Ordered anchors give boundaries that climb, the top one strictly. */
  lemma ZoneBoundariesClimb(p: Percentiles)
    requires NonDecreasing(p)
    ensures forall i, j :: 0 <= i <= j < 6 ==> ZoneBoundaries(p)[i] <= ZoneBoundaries(p)[j]
    ensures ZoneBoundaries(p)[4] < ZoneBoundaries(p)[5]
  {
  }

  /** The first zone fills down to the axis, each later one down to the zone before it. */
  function ZoneFill(k: int): Fill {
    if k == 0 then FillTarget("origin") else FillTarget("-1")
  }

  /** The fields every zone of a chart shares, whatever the direction. */
  predicate ZoneLayout(zones: seq<AnalysisDataset>, dates: seq<int>, p: Percentiles) {
    && |zones| == 6
    && forall k :: 0 <= k < 6 ==>
      && zones[k].ZoneDataset?
      && zones[k].fill == ZoneFill(k)
      && zones[k].order == 7 - k
      && |zones[k].data| == |dates|
      && forall j :: 0 <= j < |dates| ==> zones[k].data[j] == ChartDataPoint(dates[j], ZoneBoundaries(p)[k])
  }

  /** Zones for lower-is-better metrics: the best band (athletic) at the bottom, the worst on top. */
  function CreateLowerIsBetterZones(dates: seq<int>, p: Percentiles): (zones: seq<AnalysisDataset>)
    ensures ZoneLayout(zones, dates, p)
    ensures zones[0].caption == "Athletic Range" && zones[5].caption == "Needs Improvement"
  {
    [
      CreateZoneDataset("Athletic Range", dates, p.p10, "rgba(16, 185, 129, 0.2)", FillTarget("origin"), 7),
      CreateZoneDataset("Excellent Range", dates, p.p25, "rgba(16, 185, 129, 0.15)", FillTarget("-1"), 6),
      CreateZoneDataset("Good Range", dates, p.p50, "rgba(59, 130, 246, 0.15)", FillTarget("-1"), 5),
      CreateZoneDataset("Average Range", dates, p.p75, "rgba(245, 158, 11, 0.15)", FillTarget("-1"), 4),
      CreateZoneDataset("Below Average", dates, p.p90, "rgba(239, 68, 68, 0.15)", FillTarget("-1"), 3),
      CreateZoneDataset("Needs Improvement", dates, p.p90 + 10.0, "rgba(220, 38, 38, 0.15)", FillTarget("-1"), 2)
    ]
  }

  /** Zones for higher-is-better metrics: the worst band at the bottom, the best (outstanding) on top. */
  function CreateHigherIsBetterZones(dates: seq<int>, p: Percentiles): (zones: seq<AnalysisDataset>)
    ensures ZoneLayout(zones, dates, p)
    ensures zones[0].caption == "Needs Improvement" && zones[5].caption == "Outstanding"
  {
    [
      CreateZoneDataset("Needs Improvement", dates, p.p10, "rgba(220, 38, 38, 0.15)", FillTarget("origin"), 7),
      CreateZoneDataset("Below Average", dates, p.p25, "rgba(239, 68, 68, 0.15)", FillTarget("-1"), 6),
      CreateZoneDataset("Average Range", dates, p.p50, "rgba(245, 158, 11, 0.15)", FillTarget("-1"), 5),
      CreateZoneDataset("Good Range", dates, p.p75, "rgba(59, 130, 246, 0.15)", FillTarget("-1"), 4),
      CreateZoneDataset("Excellent Range", dates, p.p90, "rgba(16, 185, 129, 0.15)", FillTarget("-1"), 3),
      CreateZoneDataset("Outstanding", dates, p.p90 + 10.0, "rgba(16, 185, 129, 0.2)", FillTarget("-1"), 2)
    ]
  }

  /**
   * The two directions draw the same bands and name and shade them in opposite order: band k of
   * one has the shade of band 5-k of the other, and the same name except for the best band.
   */
  lemma ZoneDirectionsMirror(dates: seq<int>, p: Percentiles, k: int)
    requires 0 <= k < 6
    ensures var lower, higher := CreateLowerIsBetterZones(dates, p), CreateHigherIsBetterZones(dates, p);
      && lower[k].data == higher[k].data
      && lower[k].backgroundColor == higher[5 - k].backgroundColor
      && (k > 0 ==> lower[k].caption == higher[5 - k].caption)
  {
  }

  /** Chart.js line data: the x labels, absent when there is nothing to draw, and the datasets. */
  datatype ChartData = ChartData(labels: Option<seq<int>>, datasets: seq<AnalysisDataset>)

  function SeriesOfType(t: MeasurementType): MetricSeries -> bool {
    (m: MetricSeries) => m.measurementType == t
  }

  function ComparisonOfType(t: MeasurementType): UserComparison -> bool {
    (c: UserComparison) => c.metricType == t
  }

  function Timestamps(metric: MetricSeries): (dates: seq<int>)
    ensures |dates| == |metric.data| && forall i :: 0 <= i < |dates| ==> dates[i] == metric.data[i].timestamp
  {
    seq(|metric.data|, i requires 0 <= i < |metric.data| => metric.data[i].timestamp)
  }

  /** Whether a chart can be drawn for `t`: its first series has data and it has a comparison. */
  predicate Chartable(allMetrics: seq<MetricSeries>, comparisons: seq<UserComparison>, t: MeasurementType) {
    var metric := Find(allMetrics, SeriesOfType(t));
    metric.Some? && |metric.value.data| > 0 && Find(comparisons, ComparisonOfType(t)).Some?
  }

  /**
   * The chart of one metric: the user's line, the average line and the six zones in the
   * metric's direction over the user's dates, or no datasets at all.
   */
  function GetChartData(allMetrics: seq<MetricSeries>, comparisons: seq<UserComparison>, t: MeasurementType)
    : (d: ChartData)
    ensures d.datasets == [] <==> !Chartable(allMetrics, comparisons, t)
    ensures !Chartable(allMetrics, comparisons, t) ==> d.labels.None?
    ensures Chartable(allMetrics, comparisons, t) ==>
      var metric, c := Find(allMetrics, SeriesOfType(t)).value, Find(comparisons, ComparisonOfType(t)).value;
      var dates := Timestamps(metric);
      && metric.measurementType == t && c.metricType == t
      && d.labels == Some(dates)
      && |d.datasets| == 8
      && d.datasets[UserIndex] == CreateUserDataset(metric)
      && d.datasets[AverageIndex] == CreateAverageDataset(dates, c.average)
      && ZoneLayout(d.datasets[FirstZoneIndex..], dates, c.percentiles)
      && d.datasets[FirstZoneIndex..] ==
        (if IsLowerBetter(t) then CreateLowerIsBetterZones(dates, c.percentiles)
         else CreateHigherIsBetterZones(dates, c.percentiles))
  {
    var metric := Find(allMetrics, SeriesOfType(t));
    if metric.None? || |metric.value.data| == 0 then ChartData(None, [])
    else
      var comparison := Find(comparisons, ComparisonOfType(t));
      if comparison.None? then ChartData(None, [])
      else
        var dates := Timestamps(metric.value);
        var zones :=
          if IsLowerBetter(t) then CreateLowerIsBetterZones(dates, comparison.value.percentiles)
          else CreateHigherIsBetterZones(dates, comparison.value.percentiles);
        var datasets := [CreateUserDataset(metric.value), CreateAverageDataset(dates, comparison.value.average)] + zones;
        assert datasets[FirstZoneIndex..] == zones;
        ChartData(Some(dates), datasets)
  }

  /** The y-axis of a metric's chart: centred on its average, or the base axis when it has no comparison. */
  function GetChartAxis(comparisons: seq<UserComparison>, t: MeasurementType): (axis: Option<AxisBounds>)
    ensures axis.None? <==> forall i :: 0 <= i < |comparisons| ==> comparisons[i].metricType != t
    ensures axis.Some? ==> axis.value == CalculateCenteredYAxis(Find(comparisons, ComparisonOfType(t)).value, IsLowerBetter(t))
  {
    var comparison := Find(comparisons, ComparisonOfType(t));
    if comparison.None? then None else Some(CalculateCenteredYAxis(comparison.value, IsLowerBetter(t)))
  }

  /** With one series per metric, every loaded comparison gets a full chart. */
  lemma EveryComparisonIsCharted(table: seq<MetricBenchmark>, metrics: seq<MetricSeries>, age: int, i: int)
    requires forall a, b :: 0 <= a < b < |metrics| ==> metrics[a].measurementType != metrics[b].measurementType
    requires 0 <= i < |LoadedComparisons(table, metrics, age)|
    ensures var comparisons := LoadedComparisons(table, metrics, age);
      Chartable(metrics, comparisons, comparisons[i].metricType)
  {
    var comparisons := LoadedComparisons(table, metrics, age);
    var t := comparisons[i].metricType;
    var j :| 0 <= j < |metrics| && CompareSeries(table, metrics[j], age) == Some(comparisons[i]);
    assert SeriesOfType(t)(metrics[j]);
    var k := FindIndex(metrics, SeriesOfType(t));
    assert k == j;
    assert ComparisonOfType(t)(comparisons[i]);
  }

  /** A chartable metric's chart holds the eight datasets. */
  lemma ChartableHasEightDatasets(allMetrics: seq<MetricSeries>, comparisons: seq<UserComparison>, t: MeasurementType)
    requires Chartable(allMetrics, comparisons, t)
    ensures |GetChartData(allMetrics, comparisons, t).datasets| == 8
  {
  }

  /** The series and the comparison a chartable metric's chart is drawn from. */
  function ChartSeries(allMetrics: seq<MetricSeries>, comparisons: seq<UserComparison>, t: MeasurementType): MetricSeries
    requires Chartable(allMetrics, comparisons, t)
  {
    Find(allMetrics, SeriesOfType(t)).value
  }

  function ChartComparison(allMetrics: seq<MetricSeries>, comparisons: seq<UserComparison>, t: MeasurementType): UserComparison
    requires Chartable(allMetrics, comparisons, t)
  {
    Find(comparisons, ComparisonOfType(t)).value
  }

  /** Every dataset of a drawn chart has one point per date, so any tooltip can read the dataset below it. */
  lemma ChartPointsAligned(allMetrics: seq<MetricSeries>, comparisons: seq<UserComparison>, t: MeasurementType, k: int, j: int)
    requires Chartable(allMetrics, comparisons, t)
    requires 0 <= k < 8 && 0 <= j < |ChartSeries(allMetrics, comparisons, t).data|
    ensures PointExists(GetChartData(allMetrics, comparisons, t).datasets, k, j)
  {
    var d := GetChartData(allMetrics, comparisons, t).datasets;
    if k >= FirstZoneIndex {
      assert d[k] == d[FirstZoneIndex..][k - FirstZoneIndex];
    }
  }

  /** Every zone of a drawn chart carries a zone caption, in either direction. */
  lemma ChartZonesAreZones(allMetrics: seq<MetricSeries>, comparisons: seq<UserComparison>, t: MeasurementType, k: int)
    requires Chartable(allMetrics, comparisons, t)
    requires FirstZoneIndex <= k < 8
    ensures IsZoneDataset(GetChartData(allMetrics, comparisons, t).datasets[k].caption)
  {
    var d := GetChartData(allMetrics, comparisons, t).datasets;
    assert d[k] == d[FirstZoneIndex..][k - FirstZoneIndex];
    ZoneCaptionsAreZones();
  }

  /** The tooltip of zone k, for any eight datasets whose zones follow the common layout. */
  lemma ZoneLabelOn(d: seq<AnalysisDataset>, dates: seq<int>, p: Percentiles, k: int, j: int, show: real -> string)
    requires |d| == 8 && ZoneLayout(d[FirstZoneIndex..], dates, p)
    requires FirstZoneIndex <= k < 8 && 0 <= j < |dates| && IsZoneDataset(d[k].caption)
    ensures LabelReadable(TooltipContext(d, k, j))
    ensures var b := ZoneBoundaries(p);
      && GetTooltipLabel(TooltipContext(d, k, j), show) == GetTooltipLabelByPosition(TooltipContext(d, k, j), show)
      && GetTooltipLabel(TooltipContext(d, k, j), show) ==
        if k == FirstZoneIndex then d[k].caption + ": <" + show(b[0])
        else if k == 7 then d[k].caption + ": >" + show(b[4])
        else d[k].caption + ": " + show(b[k - 3]) + "-" + show(b[k - 2])
  {
    assert d[k] == d[FirstZoneIndex..][k - FirstZoneIndex];
    assert k == FirstZoneIndex || d[k - 1] == d[FirstZoneIndex..][k - 1 - FirstZoneIndex];
  }

  /**
   * The zone tooltips name each band by the boundaries around it: the first zone "<p10", the
   * middle ones "lower-upper", and the topmost ">p90", although it is drawn up to p90 + 10.
   */
  lemma ZoneTooltipsShowBands(
    allMetrics: seq<MetricSeries>, comparisons: seq<UserComparison>, t: MeasurementType, k: int, j: int,
    show: real -> string)
    requires Chartable(allMetrics, comparisons, t)
    requires FirstZoneIndex <= k < 8 && 0 <= j < |ChartSeries(allMetrics, comparisons, t).data|
    ensures var d := GetChartData(allMetrics, comparisons, t).datasets;
      var b := ZoneBoundaries(ChartComparison(allMetrics, comparisons, t).percentiles);
      && GetTooltipLabel(TooltipContext(d, k, j), show) == GetTooltipLabelByPosition(TooltipContext(d, k, j), show)
      && GetTooltipLabel(TooltipContext(d, k, j), show) ==
        if k == FirstZoneIndex then d[k].caption + ": <" + show(b[0])
        else if k == 7 then d[k].caption + ": >" + show(b[4])
        else d[k].caption + ": " + show(b[k - 3]) + "-" + show(b[k - 2])
  {
    var d := GetChartData(allMetrics, comparisons, t).datasets;
    var dates := Timestamps(ChartSeries(allMetrics, comparisons, t));
    ChartZonesAreZones(allMetrics, comparisons, t, k);
    ZoneLabelOn(d, dates, ChartComparison(allMetrics, comparisons, t).percentiles, k, j, show);
  }

  /** The average line's tooltip as written, for any datasets that start with the user and average lines. */
  lemma AverageLabelOn(d: seq<AnalysisDataset>, metric: MetricSeries, average: real, j: int, show: real -> string)
    requires |d| == 8 && d[UserIndex] == CreateUserDataset(metric)
    requires d[AverageIndex] == CreateAverageDataset(Timestamps(metric), average)
    requires 0 <= j < |metric.data|
    ensures LabelReadable(TooltipContext(d, AverageIndex, j))
    ensures GetTooltipLabel(TooltipContext(d, AverageIndex, j), show) ==
      "Average: " + show(metric.data[j].value) + "-" + show(average)
  {
    AverageLineIsZone();
  }

  /**
   * As written, the average line counts as a zone (its label holds "Average"), so its tooltip
   * reads "Average: <user's value>-<average>" instead of the average alone.
   */
  lemma AverageTooltipAsWritten(
    allMetrics: seq<MetricSeries>, comparisons: seq<UserComparison>, t: MeasurementType, j: int,
    show: real -> string)
    requires Chartable(allMetrics, comparisons, t)
    requires 0 <= j < |ChartSeries(allMetrics, comparisons, t).data|
    ensures var d := GetChartData(allMetrics, comparisons, t).datasets;
      GetTooltipLabel(TooltipContext(d, AverageIndex, j), show) ==
        "Average: " + show(ChartSeries(allMetrics, comparisons, t).data[j].value) + "-" +
        show(ChartComparison(allMetrics, comparisons, t).average)
  {
    var d := GetChartData(allMetrics, comparisons, t).datasets;
    AverageLabelOn(d, ChartSeries(allMetrics, comparisons, t), ChartComparison(allMetrics, comparisons, t).average, j, show);
  }

  /** Corrected: the average line's tooltip reads the average alone. */
  lemma AverageTooltipByPosition(
    allMetrics: seq<MetricSeries>, comparisons: seq<UserComparison>, t: MeasurementType, j: int,
    show: real -> string)
    requires Chartable(allMetrics, comparisons, t)
    requires 0 <= j < |ChartSeries(allMetrics, comparisons, t).data|
    ensures var d := GetChartData(allMetrics, comparisons, t).datasets;
      GetTooltipLabelByPosition(TooltipContext(d, AverageIndex, j), show) ==
        "Average: " + show(ChartComparison(allMetrics, comparisons, t).average)
  {
  }

  /** The user's line reads its own value, in the written and in the corrected label alike. */
  lemma UserTooltip(
    allMetrics: seq<MetricSeries>, comparisons: seq<UserComparison>, t: MeasurementType, j: int,
    show: real -> string)
    requires Chartable(allMetrics, comparisons, t)
    requires 0 <= j < |ChartSeries(allMetrics, comparisons, t).data|
    ensures (UserLineIsNotZone();
      var d := GetChartData(allMetrics, comparisons, t).datasets;
      && GetTooltipLabel(TooltipContext(d, UserIndex, j), show) ==
        "Your Value: " + show(ChartSeries(allMetrics, comparisons, t).data[j].value)
      && GetTooltipLabelByPosition(TooltipContext(d, UserIndex, j), show) ==
        GetTooltipLabel(TooltipContext(d, UserIndex, j), show))
  {
    UserLineIsNotZone();
  }

  /** As written, the palette is right for lower-is-better metrics, whose charts do have more than six datasets. */
  lemma TooltipPaletteLowerIsBetter(
    allMetrics: seq<MetricSeries>, comparisons: seq<UserComparison>, t: MeasurementType, k: int)
    requires Chartable(allMetrics, comparisons, t) && IsLowerBetter(t)
    requires FirstZoneIndex <= k < 8
    ensures var d := GetChartData(allMetrics, comparisons, t).datasets;
      GetTooltipColor(k, |d|).borderColor == TierColor(d[k].caption)
  {
    var d := GetChartData(allMetrics, comparisons, t).datasets;
    assert d[k] == d[FirstZoneIndex..][k - FirstZoneIndex];
  }

  /**
   * As written, every drawn chart has eight datasets, so a higher-is-better chart also gets the
   * lower-is-better palette: its bottom band, "Needs Improvement", takes the excellent colour.
   */
  lemma TooltipPaletteAsWritten(allMetrics: seq<MetricSeries>, comparisons: seq<UserComparison>, t: MeasurementType)
    requires Chartable(allMetrics, comparisons, t) && !IsLowerBetter(t)
    ensures var d := GetChartData(allMetrics, comparisons, t).datasets;
      && d[FirstZoneIndex].caption == "Needs Improvement"
      && TierColor(d[FirstZoneIndex].caption) == PoorColor
      && GetTooltipColor(FirstZoneIndex, |d|).borderColor == ExcellentColor
  {
    var d := GetChartData(allMetrics, comparisons, t).datasets;
    assert d[FirstZoneIndex] == d[FirstZoneIndex..][0];
  }

  /** Corrected: with the metric's own direction, each band's tooltip takes the colour of the tier it names. */
  lemma TooltipPaletteMatchesTier(
    allMetrics: seq<MetricSeries>, comparisons: seq<UserComparison>, t: MeasurementType, k: int)
    requires Chartable(allMetrics, comparisons, t)
    requires FirstZoneIndex <= k < 8
    ensures var d := GetChartData(allMetrics, comparisons, t).datasets;
      GetTooltipColorFor(k, IsLowerBetter(t)).borderColor == TierColor(d[k].caption)
  {
    var d := GetChartData(allMetrics, comparisons, t).datasets;
    var c := ChartComparison(allMetrics, comparisons, t);
    var dates := Timestamps(ChartSeries(allMetrics, comparisons, t));
    assert d[k] == d[FirstZoneIndex..][k - FirstZoneIndex];
    if IsLowerBetter(t) {
      LowerZonesTierColors(dates, c.percentiles, k - FirstZoneIndex);
    } else {
      HigherZonesTierColors(dates, c.percentiles, k - FirstZoneIndex);
    }
  }

  /** The lower-is-better palette gives each zone the colour of the tier its caption names. */
  lemma LowerZonesTierColors(dates: seq<int>, p: Percentiles, k: int)
    requires 0 <= k < 6
    ensures ZonePalette(true)[k] == TierColor(CreateLowerIsBetterZones(dates, p)[k].caption)
  {
  }

  /** The higher-is-better palette does the same for the zones drawn in that direction. */
  lemma HigherZonesTierColors(dates: seq<int>, p: Percentiles, k: int)
    requires 0 <= k < 6
    ensures ZonePalette(false)[k] == TierColor(CreateHigherIsBetterZones(dates, p)[k].caption)
  {
  }

  /** Every comparison belongs to a series with data of its metric type. */
  predicate ComparedSeriesLoaded(comparisons: seq<UserComparison>, allMetrics: seq<MetricSeries>) {
    forall i :: 0 <= i < |comparisons| ==>
      exists j :: 0 <= j < |allMetrics| && allMetrics[j].measurementType == comparisons[i].metricType && |allMetrics[j].data| > 0
  }

  /** Loaded comparisons always belong to the series they were loaded from. */
  lemma LoadedComparisonsFromSeries(table: seq<MetricBenchmark>, metrics: seq<MetricSeries>, age: int)
    ensures ComparedSeriesLoaded(LoadedComparisons(table, metrics, age), metrics)
  {
    var comparisons := LoadedComparisons(table, metrics, age);
    forall i | 0 <= i < |comparisons|
      ensures exists j :: 0 <= j < |metrics| && metrics[j].measurementType == comparisons[i].metricType && |metrics[j].data| > 0
    {
      var j :| 0 <= j < |metrics| && CompareSeries(table, metrics[j], age) == Some(comparisons[i]);
      assert metrics[j].measurementType == comparisons[i].metricType;
    }
    assert forall i :: 0 <= i < |comparisons| ==>
      exists j :: 0 <= j < |metrics| && metrics[j].measurementType == comparisons[i].metricType && |metrics[j].data| > 0;
    assert ComparedSeriesLoaded(comparisons, metrics);
  }

  /**
   * The component's signals. The metrics stream and the user's age from the sign-in token are
   * delivered through `NgOnInit`, `OnMetrics` and `OnMetricsError`; the views above are functions
   * of `allMetrics` and `comparisons`.
   */
  class AnalysisComponent {
    const benchmarks: seq<MetricBenchmark>
    var userAge: int
    var comparisons: seq<UserComparison>
    var loading: bool
    var allMetrics: seq<MetricSeries>

    /** Every comparison shown belongs to a loaded series with data of its metric type. */
    predicate Valid()
      reads this
    {
      ComparedSeriesLoaded(comparisons, allMetrics)
    }

    constructor(benchmarks: seq<MetricBenchmark>)
      ensures this.benchmarks == benchmarks
      ensures userAge == 28 && comparisons == [] && loading && allMetrics == []
      ensures Valid()
    {
      this.benchmarks := benchmarks;
      userAge := 28;
      comparisons := [];
      loading := true;
      allMetrics := [];
    }

    /** Takes the token's age when it has a truthy one (absent, or zero, keeps the default). */
    method NgOnInit(tokenAge: Option<int>)
      requires Valid()
      modifies this
      ensures userAge == if tokenAge.Some? && tokenAge.value != 0 then tokenAge.value else old(userAge)
      ensures comparisons == old(comparisons) && loading == old(loading) && allMetrics == old(allMetrics)
      ensures Valid()
    {
      if tokenAge.Some? && tokenAge.value != 0 {
        userAge := tokenAge.value;
      }
    }

    /** A new list of series: keep it and load its comparisons. */
    method OnMetrics(metrics: seq<MetricSeries>)
      modifies this
      ensures allMetrics == metrics && comparisons == LoadedComparisons(benchmarks, metrics, userAge) && !loading
      ensures userAge == old(userAge)
      ensures Valid()
    {
      allMetrics := metrics;
      LoadComparisons(metrics);
    }

    /** The comparisons of the series with data, those without a benchmark dropped; then loading ends. */
    method LoadComparisons(metrics: seq<MetricSeries>)
      modifies this
      ensures comparisons == LoadedComparisons(benchmarks, metrics, userAge) && !loading
      ensures userAge == old(userAge) && allMetrics == old(allMetrics)
      ensures allMetrics == metrics ==> Valid()
    {
      comparisons := LoadedComparisons(benchmarks, metrics, userAge);
      loading := false;
      LoadedComparisonsFromSeries(benchmarks, metrics, userAge);
    }

    /** A failed metrics stream ends loading and keeps what was shown. */
    method OnMetricsError()
      requires Valid()
      modifies this
      ensures !loading
      ensures userAge == old(userAge) && comparisons == old(comparisons) && allMetrics == old(allMetrics)
      ensures Valid()
    {
      loading := false;
    }
  }
}
