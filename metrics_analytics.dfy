/** Summary statistics over the data points of one series: average, latest value and range. */
module MetricsAnalytics {
  import opened Wrappers
  import opened MeasurementModels

  function Values(points: seq<MeasurementDataPoint>): (vs: seq<real>)
    ensures |vs| == |points| && forall i :: 0 <= i < |points| ==> vs[i] == points[i].value
  {
    seq(|points|, i requires 0 <= i < |points| => points[i].value)
  }

  /** The left-to-right sum that `reduce((acc, x) => acc + x, 0)` computes. */
  function Sum(s: seq<real>): real {
    if |s| == 0 then 0.0 else Sum(s[..|s| - 1]) + s[|s| - 1]
  }

  /** The mean of the values, and 0 for no points. */
  function CalculateAverage(points: seq<MeasurementDataPoint>): (r: real)
    ensures |points| == 0 ==> r == 0.0
    ensures |points| > 0 ==> r * (|points| as real) == Sum(Values(points))
  {
    if |points| == 0 then 0.0
    else Sum(Values(points)) / (|points| as real)
  }

  /** The value of the last point, or None for no points. */
  function GetLatestValue(points: seq<MeasurementDataPoint>): (r: Option<real>)
    ensures r.None? <==> |points| == 0
    ensures r.Some? ==> r.value == points[|points| - 1].value
  {
    if |points| == 0 then None else Some(points[|points| - 1].value)
  }

  /** The smallest element, as `Math.min(...s)`. */
  function SeqMin(s: seq<real>): (m: real)
    requires |s| > 0
    ensures m in s && forall i :: 0 <= i < |s| ==> m <= s[i]
  {
    if |s| == 1 then s[0]
    else
      var rest := SeqMin(s[1..]);
      if s[0] <= rest then s[0] else rest
  }

  /** The largest element, as `Math.max(...s)`. */
  function SeqMax(s: seq<real>): (m: real)
    requires |s| > 0
    ensures m in s && forall i :: 0 <= i < |s| ==> s[i] <= m
  {
    if |s| == 1 then s[0]
    else
      var rest := SeqMax(s[1..]);
      if s[0] >= rest then s[0] else rest
  }

  datatype Range = Range(min: real, max: real)

  /** The smallest and largest value, or None for no points. */
  function GetRange(points: seq<MeasurementDataPoint>): (r: Option<Range>)
    ensures r.None? <==> |points| == 0
    ensures r.Some? ==>
      && r.value.min <= r.value.max
      && (exists i :: 0 <= i < |points| && points[i].value == r.value.min)
      && (exists i :: 0 <= i < |points| && points[i].value == r.value.max)
      && forall i :: 0 <= i < |points| ==> r.value.min <= points[i].value <= r.value.max
  {
    if |points| == 0 then None
    else
      var values := Values(points);
      Some(Range(SeqMin(values), SeqMax(values)))
  }

  /** A sum of n values in [lo, hi] lies in [n * lo, n * hi]. */
  lemma {:induction false} SumBounds(s: seq<real>, lo: real, hi: real)
    requires forall i :: 0 <= i < |s| ==> lo <= s[i] <= hi
    ensures (|s| as real) * lo <= Sum(s) <= (|s| as real) * hi
  {
    if |s| > 0 {
      SumBounds(s[..|s| - 1], lo, hi);
    }
  }

  /** A total in [n * lo, n * hi] divided by n > 0 lies in [lo, hi]. */
  lemma QuotientBetweenBounds(total: real, n: real, lo: real, hi: real)
    requires n > 0.0 && n * lo <= total <= n * hi
    ensures lo <= total / n <= hi
  {
    var q := total / n;
    assert q * n == total;
    assert (q - lo) * n >= 0.0;
    assert (hi - q) * n >= 0.0;
  }

  /** The mean of values in [lo, hi] lies in [lo, hi]. */
  lemma MeanWithinBounds(values: seq<real>, lo: real, hi: real)
    requires |values| > 0
    requires forall i :: 0 <= i < |values| ==> lo <= values[i] <= hi
    ensures lo <= Sum(values) / (|values| as real) <= hi
  {
    SumBounds(values, lo, hi);
    QuotientBetweenBounds(Sum(values), |values| as real, lo, hi);
  }

  /** The average of a non-empty series lies between its minimum and maximum. */
  lemma AverageWithinRange(points: seq<MeasurementDataPoint>)
    requires |points| > 0
    ensures GetRange(points).Some?
    ensures GetRange(points).value.min <= CalculateAverage(points) <= GetRange(points).value.max
  {
    var values := Values(points);
    MeanWithinBounds(values, SeqMin(values), SeqMax(values));
  }
}
