/** Percentile-bar edge labels and the y-axis bounds of the analysis chart. */
module ChartUtils {
  import opened BenchmarkModels
  import opened MetricConfig

  datatype Position = Left | Right

  /**
   * The anchor shown at one edge of the percentile bar. The left edge is the
   * worst end: p90 when lower is better, p10 otherwise; the right edge the other.
   */
  function GetSegmentValue(comparison: UserComparison, position: Position): (r: real)
    ensures IsLowerBetter(comparison.metricType) == (position == Left) ==> r == comparison.percentiles.p90
    ensures IsLowerBetter(comparison.metricType) != (position == Left) ==> r == comparison.percentiles.p10
  {
    var isLower := IsLowerBetter(comparison.metricType);
    var isWorst := position == Left;
    if isLower == isWorst then comparison.percentiles.p90 else comparison.percentiles.p10
  }

  /** The two edges always show the two extreme anchors, one each. */
  lemma EdgesShowBothExtremes(comparison: UserComparison)
    ensures var l, r := GetSegmentValue(comparison, Left), GetSegmentValue(comparison, Right);
      var p := comparison.percentiles;
      if IsLowerBetter(comparison.metricType) then l == p.p90 && r == p.p10 else l == p.p10 && r == p.p90
  {
  }

  datatype AxisBounds = AxisBounds(min: real, max: real)

  function Max(a: real, b: real): real {
    if a >= b then a else b
  }

  /** The lowest value the axis must show: p10 less a margin, floored at 40 or 0. */
  function BottomValue(p: Percentiles, isLower: bool): (b: real)
    ensures isLower ==> b >= 40.0 && b >= p.p10 - 15.0 && (b == 40.0 || b == p.p10 - 15.0)
    ensures !isLower ==> b >= 0.0 && b >= p.p10 - 10.0 && (b == 0.0 || b == p.p10 - 10.0)
  {
    if isLower then Max(p.p10 - 15.0, 40.0) else Max(p.p10 - 10.0, 0.0)
  }

  /**
   * Y-axis bounds centred on the group average with the smallest half-width that
   * shows both p90 + 10 and the bottom value.
   */
  function CalculateCenteredYAxis(comparison: UserComparison, isLower: bool): (r: AxisBounds)
    ensures r.max - comparison.average == comparison.average - r.min
    ensures r.max >= comparison.percentiles.p90 + 10.0
    ensures r.min <= BottomValue(comparison.percentiles, isLower)
    ensures r.max == comparison.percentiles.p90 + 10.0 || r.min == BottomValue(comparison.percentiles, isLower)
    ensures comparison.percentiles.p90 + 10.0 >= BottomValue(comparison.percentiles, isLower) ==>
      r.min <= comparison.average <= r.max
  {
    var topValue := comparison.percentiles.p90 + 10.0;
    var bottomValue := BottomValue(comparison.percentiles, isLower);
    var maxDistance := Max(topValue - comparison.average, comparison.average - bottomValue);
    AxisBounds(comparison.average - maxDistance, comparison.average + maxDistance)
  }
}
