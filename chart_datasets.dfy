/** The datasets of the analysis chart: the user's line, the group-average line and the shaded zones. */
module ChartDatasets {
  import opened MeasurementModels
  import opened ChartConfig

  /** Chart.js `fill`: a flag, a target such as "origin" or "-1", or a dataset index. */
  datatype Fill = FillFlag(on: bool) | FillTarget(target: string) | FillIndex(index: int)

  /** A point of the analysis chart: `x` the date as an instant in milliseconds. */
  datatype ChartDataPoint = ChartDataPoint(x: int, y: real)

  datatype AnalysisDataset =
    | UserDataset(
        caption: string, data: seq<ChartDataPoint>, borderColor: string, backgroundColor: string,
        borderWidth: real, tension: real, fill: Fill, pointRadius: real, pointHoverRadius: real,
        pointBackgroundColor: string, pointBorderColor: string, pointBorderWidth: real, order: int)
    | AverageDataset(
        caption: string, data: seq<ChartDataPoint>, borderColor: string, backgroundColor: string,
        borderWidth: real, borderDash: seq<int>, tension: real, fill: Fill, pointRadius: real, order: int)
    | ZoneDataset(
        caption: string, data: seq<ChartDataPoint>, borderColor: string, backgroundColor: string,
        fill: Fill, pointRadius: real, order: int)

  /** The user's values over time, drawn first (order 0). */
  function CreateUserDataset(metric: MetricSeries): (d: AnalysisDataset)
    ensures d.UserDataset? && d.caption == "Your Value" && d.order == UserIndex
    ensures |d.data| == |metric.data|
    ensures forall i :: 0 <= i < |d.data| ==>
      d.data[i].x == metric.data[i].timestamp && d.data[i].y == metric.data[i].value
    ensures d.borderColor == UserColor && d.fill == FillFlag(false)
  {
    UserDataset(
      "Your Value",
      seq(|metric.data|, i requires 0 <= i < |metric.data| => ChartDataPoint(metric.data[i].timestamp, metric.data[i].value)),
      UserColor, UserColor + "1a", 3.0, 0.4, FillFlag(false), 4.0, 6.0, UserColor, "#fff", 2.0, UserIndex)
  }

  /** A flat dashed line at the group average, one point per date (order 1). */
  function CreateAverageDataset(dates: seq<int>, average: real): (d: AnalysisDataset)
    ensures d.AverageDataset? && d.caption == "Average" && d.order == AverageIndex
    ensures |d.data| == |dates| && forall i :: 0 <= i < |dates| ==> d.data[i] == ChartDataPoint(dates[i], average)
    ensures d.borderColor == AverageColor && d.borderDash == [5, 5] && d.pointRadius == 0.0
  {
    AverageDataset(
      "Average",
      seq(|dates|, i requires 0 <= i < |dates| => ChartDataPoint(dates[i], average)),
      AverageColor, AverageColor + "1a", 2.0, [5, 5], 0.0, FillFlag(false), 0.0, AverageIndex)
  }

  /** A borderless, pointless band boundary at `value`, one point per date. */
  function CreateZoneDataset(caption: string, dates: seq<int>, value: real, color: string, fill: Fill, order: int)
    : (d: AnalysisDataset)
    ensures d.ZoneDataset?
    ensures |d.data| == |dates| && forall i :: 0 <= i < |dates| ==> d.data[i] == ChartDataPoint(dates[i], value)
    ensures d.borderColor == "transparent" && d.pointRadius == 0.0
    ensures d.caption == caption && d.backgroundColor == color && d.fill == fill && d.order == order
  {
    ZoneDataset(
      caption,
      seq(|dates|, i requires 0 <= i < |dates| => ChartDataPoint(dates[i], value)),
      "transparent", color, fill, 0.0, order)
  }
}
