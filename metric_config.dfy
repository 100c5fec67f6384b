/** Display tables of the analysis view, keyed by rating and by metric type, and the metric direction. */
module MetricConfig {
  import opened MeasurementModels
  import opened BenchmarkModels
  import opened ChartConfig
  import BenchmarkService

  /** Rating colour by rating key. */
  const RatingColors: map<string, string> := map[
    "excellent" := ExcellentColor,
    "good" := GoodColor,
    "average" := AverageZoneColor,
    "below-average" := "#f97316",
    "poor" := BelowAverageColor]

  /** Rating label by rating key. */
  const RatingLabels: map<string, string> := map[
    "excellent" := "Excellent",
    "good" := "Good",
    "average" := "Average",
    "below-average" := "Below Average",
    "poor" := "Needs Improvement"]

  /** Metric display names; heart rate has no entry. */
  const MetricNames: map<MeasurementType, string> := map[
    Vo2Max := "VO2 Max",
    RestingHeartRate := "Resting Heart Rate",
    Steps := "Daily Steps"]

  /** Metric units; heart rate has no entry. */
  const MetricUnits: map<MeasurementType, string> := map[
    Vo2Max := "ml/kg/min",
    RestingHeartRate := "bpm",
    Steps := "steps"]

  /** Whether lower values are better: only for resting heart rate. */
  function IsLowerBetter(metricType: MeasurementType): (r: bool)
    ensures metricType.RestingHeartRate? ==> r
    ensures metricType.HeartRate? || metricType.Vo2Max? || metricType.Steps? ==> !r
  {
    metricType == RestingHeartRate
  }

  /** Both rating tables have an entry for every tier, and the worst tier reads "Needs Improvement". */
  lemma RatingTablesComplete(r: Rating)
    ensures RatingKey(r) in RatingColors && RatingKey(r) in RatingLabels
    ensures RatingLabels[RatingKey(Poor)] == "Needs Improvement"
  {
  }

  /** The metric tables name exactly VO2 max, resting heart rate and steps. */
  lemma MetricTablesKeys()
    ensures MetricNames.Keys == MetricUnits.Keys == {Vo2Max, RestingHeartRate, Steps}
    ensures HeartRate !in MetricNames && HeartRate !in MetricUnits
  {
  }

  /** The direction the rating uses is exactly this predicate. */
  lemma RatingDirectionIsLowerBetter(percentile: real, metricType: MeasurementType)
    ensures BenchmarkService.GetRating(percentile, metricType) ==
      if IsLowerBetter(metricType) then BenchmarkService.GetRating(percentile, RestingHeartRate)
      else BenchmarkService.GetRating(percentile, Vo2Max)
  {
  }
}
