/** The dashboard's line datasets: creation from series, and highlighting one metric type. */
module DashboardChartUtils {
  import opened Seqs
  import opened MeasurementModels

  /** A dataset colour: a CSS string, or a non-string value (gradient, pattern, or callback). */
  datatype ColorValue = CssColor(css: string) | NonStringColor(handle: int)

  /** A chart point: `x` the instant in milliseconds, `y` the value. */
  datatype ChartPoint = ChartPoint(x: int, y: real)

  datatype MetricChartDataset = MetricChartDataset(
    caption: string,
    data: seq<ChartPoint>,
    borderColor: ColorValue,
    backgroundColor: string,
    borderWidth: real,
    pointRadius: real,
    pointHoverRadius: real,
    pointBackgroundColor: string,
    pointBorderColor: string,
    pointBorderWidth: real,
    tension: real,
    fill: bool,
    metricType: MeasurementType,
    yAxisID: string,
    originalBorderColor: string)

  function ToChartPoints(data: seq<MeasurementDataPoint>): (ps: seq<ChartPoint>)
    ensures |ps| == |data|
    ensures forall i :: 0 <= i < |ps| ==> ps[i].x == data[i].timestamp && ps[i].y == data[i].value
  {
    seq(|data|, i requires 0 <= i < |data| => ChartPoint(data[i].timestamp, data[i].value))
  }

  /** The dataset of one series, in its own colour with a translucent background. */
  function CreateDataset(metric: MetricSeries): (d: MetricChartDataset)
    ensures d.caption == metric.caption && d.metricType == metric.measurementType
    ensures d.data == ToChartPoints(metric.data)
    ensures d.borderColor == CssColor(metric.color) && d.originalBorderColor == metric.color
    ensures d.backgroundColor == metric.color + "20"
    ensures d.borderWidth == 2.5 && d.pointRadius == 3.0
  {
    MetricChartDataset(
      metric.caption, ToChartPoints(metric.data), CssColor(metric.color), metric.color + "20",
      2.5, 3.0, 6.0, metric.color, "#fff", 2.0, 0.3, false, metric.measurementType, "y", metric.color)
  }

  function CreateEach(metrics: seq<MetricSeries>): (ds: seq<MetricChartDataset>)
    ensures |ds| == |metrics| && forall i :: 0 <= i < |ds| ==> ds[i] == CreateDataset(metrics[i])
  {
    seq(|metrics|, i requires 0 <= i < |metrics| => CreateDataset(metrics[i]))
  }

  /** One dataset per series that has data, in series order. */
  function CreateChartDatasets(metrics: seq<MetricSeries>): (ds: seq<MetricChartDataset>)
    ensures ds == CreateEach(Filter(metrics, HasData()))
    ensures forall i :: 0 <= i < |ds| ==> |ds[i].data| > 0
  {
    CreateEach(Filter(metrics, HasData()))
  }

  /** Series order is kept: creating from a concatenation concatenates the results. */
  lemma CreateChartDatasetsConcat(a: seq<MetricSeries>, b: seq<MetricSeries>)
    ensures CreateChartDatasets(a + b) == CreateChartDatasets(a) + CreateChartDatasets(b)
  {
    FilterConcat(a, b, HasData());
  }

  function AppendDim(css: string): string {
    css + "40"
  }

  predicate EndsWith40(css: string) {
    |css| >= 2 && css[|css| - 2..] == "40"
  }

  /** `css.replace(/40$/, '')`: drop one trailing "40", if there is one. */
  function StripDim(css: string): (r: string)
    ensures EndsWith40(css) ==> r + "40" == css
    ensures !EndsWith40(css) ==> r == css
  {
    if EndsWith40(css) then css[..|css| - 2] else css
  }

  /** Dimming then undimming a CSS colour gives it back. */
  lemma StripDimAfterAppend(css: string)
    ensures StripDim(AppendDim(css)) == css
  {
    assert AppendDim(css)[|css|..] == "40";
  }

  function Highlight(d: MetricChartDataset, target: MeasurementType): MetricChartDataset {
    var isTarget := d.metricType == target;
    d.(
      borderWidth := if isTarget then 4.0 else 1.5,
      pointRadius := if isTarget then 4.0 else 2.0,
      borderColor :=
        if isTarget then d.borderColor
        else if d.borderColor.CssColor? then CssColor(AppendDim(d.borderColor.css))
        else d.borderColor)
  }

  /**
   * Emphasise the datasets of the target type (wider line, bigger points) and
   * dim the others (narrower, smaller, "40" alpha suffix on string colours).
   */
  function HighlightDataset(datasets: seq<MetricChartDataset>, target: MeasurementType): (r: seq<MetricChartDataset>)
    ensures |r| == |datasets|
    ensures forall i :: 0 <= i < |r| && datasets[i].metricType == target ==>
      r[i] == datasets[i].(borderWidth := 4.0, pointRadius := 4.0)
    ensures forall i :: 0 <= i < |r| && datasets[i].metricType != target ==>
      r[i] == datasets[i].(borderWidth := 1.5, pointRadius := 2.0, borderColor :=
        if datasets[i].borderColor.CssColor? then CssColor(datasets[i].borderColor.css + "40")
        else datasets[i].borderColor)
  {
    seq(|datasets|, i requires 0 <= i < |datasets| => Highlight(datasets[i], target))
  }

  function Reset(d: MetricChartDataset): MetricChartDataset {
    d.(
      borderWidth := 2.5,
      pointRadius := 3.0,
      borderColor := if d.borderColor.CssColor? then CssColor(StripDim(d.borderColor.css)) else d.borderColor)
  }

  /** Back to the normal width and radius, with one trailing "40" dropped from string colours. */
  function ResetDatasetHighlight(datasets: seq<MetricChartDataset>): (r: seq<MetricChartDataset>)
    ensures |r| == |datasets|
    ensures forall i :: 0 <= i < |r| ==>
      && r[i].borderWidth == 2.5 && r[i].pointRadius == 3.0
      && (datasets[i].borderColor.NonStringColor? ==> r[i].borderColor == datasets[i].borderColor)
      && (datasets[i].borderColor.CssColor? && !EndsWith40(datasets[i].borderColor.css) ==>
            r[i].borderColor == datasets[i].borderColor)
      && (datasets[i].borderColor.CssColor? && EndsWith40(datasets[i].borderColor.css) ==>
            r[i].borderColor.CssColor? && r[i].borderColor.css + "40" == datasets[i].borderColor.css)
      && r[i] == datasets[i].(borderWidth := 2.5, pointRadius := 3.0, borderColor := r[i].borderColor)
  {
    seq(|datasets|, i requires 0 <= i < |datasets| => Reset(datasets[i]))
  }

  /**
   * Reset after highlight restores every border colour, except the target's
   * string colour when it already ended in "40"; everything but width and
   * radius is as before.
   */
  lemma ResetAfterHighlight(datasets: seq<MetricChartDataset>, target: MeasurementType, i: nat)
    requires i < |datasets|
    requires datasets[i].metricType == target && datasets[i].borderColor.CssColor? ==>
      !EndsWith40(datasets[i].borderColor.css)
    ensures ResetDatasetHighlight(HighlightDataset(datasets, target))[i] ==
      datasets[i].(borderWidth := 2.5, pointRadius := 3.0)
  {
    if datasets[i].borderColor.CssColor? {
      StripDimAfterAppend(datasets[i].borderColor.css);
    }
  }

  /** The target's colour is not restored when it ended in "40": reset strips it anyway. */
  lemma ResetStripsTargetEndingIn40()
    ensures var d := CreateDataset(MetricSeries(Vo2Max, "VO2 Max", "#ff4040", []));
      ResetDatasetHighlight(HighlightDataset([d], Vo2Max))[0].borderColor == CssColor("#ff40")
  {
    var d := CreateDataset(MetricSeries(Vo2Max, "VO2 Max", "#ff4040", []));
    assert EndsWith40(d.borderColor.css);
    assert "#ff4040"[..5] == "#ff40";
  }

  /**
   * For datasets built from series, highlighting and then resetting is the
   * identity, provided no series colour ends in "40" (none of the metric
   * colours does).
   */
  lemma {:induction false} HighlightResetRoundTrip(metrics: seq<MetricSeries>, target: MeasurementType)
    requires forall i :: 0 <= i < |metrics| ==> !EndsWith40(metrics[i].color)
    ensures ResetDatasetHighlight(HighlightDataset(CreateChartDatasets(metrics), target)) == CreateChartDatasets(metrics)
  {
    var ds := CreateChartDatasets(metrics);
    var kept := Filter(metrics, HasData());
    forall i | 0 <= i < |ds|
      ensures ResetDatasetHighlight(HighlightDataset(ds, target))[i] == ds[i]
    {
      assert kept[i] in metrics;
      ResetAfterHighlight(ds, target, i);
    }
  }

  /** None of the per-type colours ends in "40". */
  lemma TypeColorsNotDimmed(t: MeasurementType)
    ensures !EndsWith40(TypeColor(t))
  {
  }
}
