/** Population benchmarks and the comparison record built from them. */
module BenchmarkModels {
  import opened MeasurementModels

  /** The five population anchors of one age group, in the metric's unit. */
  datatype Percentiles = Percentiles(p10: real, p25: real, p50: real, p75: real, p90: real)

  /** One age bracket of a benchmark; `ageMin` and `ageMax` are inclusive. */
  datatype AgeGroupBenchmark = AgeGroupBenchmark(
    ageGroup: string,
    ageMin: int,
    ageMax: int,
    percentiles: Percentiles,
    average: real,
    unit: string)

  datatype Gender = Male | Female | AllGenders

  /** The benchmark of one metric type: its age brackets, in table order. */
  datatype MetricBenchmark = MetricBenchmark(
    metricType: MeasurementType,
    metricName: string,
    gender: Gender,
    ageGroups: seq<AgeGroupBenchmark>)

  /** The five rating tiers. */
  datatype Rating = Excellent | Good | Average | BelowAverage | Poor

  /** The order of the tiers, worst (0) to best (4). */
  function RatingRank(r: Rating): nat {
    match r
    case Poor => 0
    case BelowAverage => 1
    case Average => 2
    case Good => 3
    case Excellent => 4
  }

  /** The key under which a rating is stored and looked up in the display tables. */
  function RatingKey(r: Rating): string {
    match r
    case Excellent => "excellent"
    case Good => "good"
    case Average => "average"
    case BelowAverage => "below-average"
    case Poor => "poor"
  }

  /**
   * A floating-point quotient: a finite number, or the infinities and NaN that
   * a division by zero produces.
   */
  datatype Quotient = Finite(v: real) | PositiveInfinity | NegativeInfinity | NotANumber

  /** The result of one comparison of a user value with its age group. */
  datatype UserComparison = UserComparison(
    metricType: MeasurementType,
    userValue: real,
    ageGroup: string,
    percentile: real,
    percentiles: Percentiles,
    average: real,
    difference: real,
    differencePercentage: Quotient,
    rating: Rating)
}
