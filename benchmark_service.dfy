/**
 * The benchmark comparison engine: look up the age group of a metric type,
 * estimate the user's percentile by piecewise-linear interpolation between the
 * five anchors, rate it, and assemble the comparison record. The benchmark
 * table is a parameter.
 */
module BenchmarkService {
  import opened Wrappers
  import opened Seqs
  import opened MeasurementModels
  import opened BenchmarkModels

  // ---------------------------------------------------------------- lookup

  function OfType(t: MeasurementType): MetricBenchmark -> bool {
    (b: MetricBenchmark) => b.metricType == t
  }

  predicate Covers(g: AgeGroupBenchmark, age: int) {
    g.ageMin <= age <= g.ageMax
  }

  function CoversAge(age: int): AgeGroupBenchmark -> bool {
    (g: AgeGroupBenchmark) => Covers(g, age)
  }

  /** The first benchmark of the table with the given metric type. */
  function GetBenchmarkData(table: seq<MetricBenchmark>, t: MeasurementType): (r: Option<MetricBenchmark>)
    ensures r.None? <==> forall i :: 0 <= i < |table| ==> table[i].metricType != t
    ensures r.Some? ==>
      exists i :: 0 <= i < |table| && table[i] == r.value && table[i].metricType == t &&
        forall j :: 0 <= j < i ==> table[j].metricType != t
  {
    var r := Find(table, OfType(t));
    assert r.Some? ==> table[FindIndex(table, OfType(t))] == r.value;
    r
  }

  /** The first age group whose inclusive bracket holds `age`. */
  function FindAgeGroup(groups: seq<AgeGroupBenchmark>, age: int): (r: Option<AgeGroupBenchmark>)
    ensures r.None? <==> forall i :: 0 <= i < |groups| ==> !Covers(groups[i], age)
    ensures r.Some? ==>
      exists i :: 0 <= i < |groups| && groups[i] == r.value && Covers(groups[i], age) &&
        forall j :: 0 <= j < i ==> !Covers(groups[j], age)
  {
    var r := Find(groups, CoversAge(age));
    assert r.Some? ==> groups[FindIndex(groups, CoversAge(age))] == r.value;
    r
  }

  /** The age group of the first benchmark of type `t` that holds `age`. */
  function GetAgeGroupBenchmark(table: seq<MetricBenchmark>, t: MeasurementType, age: int): (r: Option<AgeGroupBenchmark>)
    ensures r.None? <==>
      GetBenchmarkData(table, t).None? || FindAgeGroup(GetBenchmarkData(table, t).value.ageGroups, age).None?
    ensures r.Some? ==> Covers(r.value, age) && r.value in GetBenchmarkData(table, t).value.ageGroups
    ensures r.Some? ==>
      var gs := GetBenchmarkData(table, t).value.ageGroups;
      exists i :: 0 <= i < |gs| && gs[i] == r.value && forall j :: 0 <= j < i ==> !Covers(gs[j], age)
  {
    match GetBenchmarkData(table, t)
    case None => None
    case Some(b) => FindAgeGroup(b.ageGroups, age)
  }

  // ---------------------------------------------------------------- percentile

  function Min(a: real, b: real): real {
    if a <= b then a else b
  }

  predicate NonDecreasing(p: Percentiles) {
    p.p10 <= p.p25 <= p.p50 <= p.p75 <= p.p90
  }

  predicate StrictlyIncreasing(p: Percentiles) {
    p.p10 < p.p25 < p.p50 < p.p75 < p.p90
  }

  /** A ratio of a positive part to a whole no smaller than it lies in (0, 1]. */
  lemma FractionBounds(part: real, whole: real)
    requires 0.0 < part <= whole
    ensures 0.0 < part / whole <= 1.0
  {
    var f := part / whole;
    assert f * whole == part;
  }

  /**
   * Linear interpolation over one branch: `from + (value - lo) / (hi - lo) * width`
   * for a value strictly above `lo` and at or below `hi`, so the denominator is positive.
   */
  function Interpolate(value: real, lo: real, hi: real, from: real, width: real): (r: real)
    requires lo < value <= hi && width > 0.0
    ensures from < r <= from + width
    ensures value == hi ==> r == from + width
  {
    FractionBounds(value - lo, hi - lo);
    var f := (value - lo) / (hi - lo);
    assert 0.0 < f * width <= width by {
      assert f * width <= 1.0 * width;
    }
    from + f * width
  }

  /**
   * The points added above p90: `(value - p90) / p90 * 10`, capped at 10. For
   * p90 = 0 the ratio is an infinity in floating point and the cap gives 10.
   */
  function Extrapolate(value: real, p90: real): (r: real)
    requires value > p90
    ensures r <= 10.0
    ensures p90 >= 0.0 ==> r > 0.0
  {
    if p90 == 0.0 then 10.0
    else
      var e := (value - p90) / p90 * 10.0;
      assert p90 > 0.0 ==> e > 0.0;
      Min(e, 10.0)
  }

  /**
   * The percentile of `value`: 10 at or below p10, linear between consecutive
   * anchors (10, 25, 50, 75, 90), and above p90 an extrapolation capped at 100.
   */
  function CalculatePercentile(value: real, p: Percentiles): (r: real)
    ensures value <= p.p10 ==> r == 10.0
    ensures p.p10 < value <= p.p25 ==> 10.0 < r <= 25.0
    ensures p.p10 < value && p.p25 < value <= p.p50 ==> 25.0 < r <= 50.0
    ensures p.p10 < value && p.p25 < value && p.p50 < value <= p.p75 ==> 50.0 < r <= 75.0
    ensures p.p10 < value && p.p25 < value && p.p50 < value && p.p75 < value <= p.p90 ==> 75.0 < r <= 90.0
    ensures p.p10 < value && p.p25 < value && p.p50 < value && p.p75 < value && p.p90 < value ==>
      r <= 100.0 && (p.p90 >= 0.0 ==> 90.0 < r)
    ensures r <= 100.0
    ensures p.p90 >= 0.0 ==> r >= 10.0
  {
    if value <= p.p10 then 10.0
    else if value <= p.p25 then Interpolate(value, p.p10, p.p25, 10.0, 15.0)
    else if value <= p.p50 then Interpolate(value, p.p25, p.p50, 25.0, 25.0)
    else if value <= p.p75 then Interpolate(value, p.p50, p.p75, 50.0, 25.0)
    else if value <= p.p90 then Interpolate(value, p.p75, p.p90, 75.0, 15.0)
    else 90.0 + Extrapolate(value, p.p90)
  }

  /** With strictly increasing anchors, each anchor maps exactly to its own percentile. */
  lemma PercentileAtAnchors(p: Percentiles)
    requires StrictlyIncreasing(p)
    ensures CalculatePercentile(p.p10, p) == 10.0
    ensures CalculatePercentile(p.p25, p) == 25.0
    ensures CalculatePercentile(p.p50, p) == 50.0
    ensures CalculatePercentile(p.p75, p) == 75.0
    ensures CalculatePercentile(p.p90, p) == 90.0
  {
  }

  /** With tied anchors a value equal to p50 is caught by an earlier branch and does not yield 50. */
  lemma TiedAnchorsTakeEarlierBranch()
    ensures CalculatePercentile(50.0, Percentiles(50.0, 50.0, 50.0, 60.0, 70.0)) == 10.0
    ensures CalculatePercentile(50.0, Percentiles(40.0, 50.0, 50.0, 60.0, 70.0)) == 25.0
  {
  }

  /** The interpolation branch a value falls into: 0 at or below p10, ..., 5 above p90. */
  function Segment(value: real, p: Percentiles): (k: nat)
    ensures k <= 5
  {
    if value <= p.p10 then 0
    else if value <= p.p25 then 1
    else if value <= p.p50 then 2
    else if value <= p.p75 then 3
    else if value <= p.p90 then 4
    else 5
  }

  lemma SegmentMonotonic(v1: real, v2: real, p: Percentiles)
    requires v1 <= v2
    ensures Segment(v1, p) <= Segment(v2, p)
  {
  }

  /** The percentile grows with the value inside one interpolation branch. */
  lemma SameSegmentMonotonic(v1: real, v2: real, p: Percentiles)
    requires v1 <= v2 && p.p90 >= 0.0
    requires Segment(v1, p) == Segment(v2, p)
    ensures CalculatePercentile(v1, p) <= CalculatePercentile(v2, p)
  {
    match Segment(v1, p)
    case 0 =>
    case 1 => InterpolateMonotonic(v1, v2, p.p10, p.p25, 10.0, 15.0);
    case 2 => InterpolateMonotonic(v1, v2, p.p25, p.p50, 25.0, 25.0);
    case 3 => InterpolateMonotonic(v1, v2, p.p50, p.p75, 50.0, 25.0);
    case 4 => InterpolateMonotonic(v1, v2, p.p75, p.p90, 75.0, 15.0);
    case 5 => ExtrapolateMonotonic(v1, v2, p.p90);
  }

  lemma InterpolateMonotonic(v1: real, v2: real, lo: real, hi: real, from: real, width: real)
    requires lo < v1 <= v2 <= hi && width > 0.0
    ensures Interpolate(v1, lo, hi, from, width) <= Interpolate(v2, lo, hi, from, width)
  {
    DivideMonotonic(v1 - lo, v2 - lo, hi - lo);
    var f1, f2 := (v1 - lo) / (hi - lo), (v2 - lo) / (hi - lo);
    assert f1 * width <= f2 * width;
  }

  lemma ExtrapolateMonotonic(v1: real, v2: real, p90: real)
    requires p90 < v1 <= v2 && p90 >= 0.0
    ensures Extrapolate(v1, p90) <= Extrapolate(v2, p90)
  {
    if p90 > 0.0 {
      DivideMonotonic(v1 - p90, v2 - p90, p90);
    }
  }

  lemma DivideMonotonic(a: real, b: real, d: real)
    requires a <= b && d > 0.0
    ensures a / d <= b / d
  {
    assert b / d - a / d == (b - a) / d;
  }

  /**
   * When p90 is not negative the percentile never decreases as the value grows.
   * Non-decreasing anchors are not needed: each branch is bounded by its own
   * percentile band, whatever the anchors.
   */
  lemma {:induction false} PercentileMonotonic(v1: real, v2: real, p: Percentiles)
    requires v1 <= v2 && p.p90 >= 0.0
    ensures CalculatePercentile(v1, p) <= CalculatePercentile(v2, p)
  {
    SegmentMonotonic(v1, v2, p);
    if Segment(v1, p) == Segment(v2, p) {
      SameSegmentMonotonic(v1, v2, p);
    }
  }

  /** A negative p90 breaks monotonicity above p90: the extrapolated term is then negative and falling. */
  lemma NegativeP90NotMonotonic()
    ensures CalculatePercentile(-1.0, Percentiles(-5.0, -4.0, -3.0, -2.0, -2.0)) == 85.0
    ensures CalculatePercentile(0.0, Percentiles(-5.0, -4.0, -3.0, -2.0, -2.0)) == 80.0
  {
  }

  // ---------------------------------------------------------------- rating

  /**
   * The rating of a percentile. Resting heart rate, where lower is better, is
   * rated on thresholds mirrored about 50 (upper bounds 25, 40, 60, 75
   * inclusive); every other metric on lower bounds 75, 60, 40, 25 inclusive.
   */
  function GetRating(percentile: real, metricType: MeasurementType): (r: Rating)
    ensures metricType != RestingHeartRate ==>
      && (r == Excellent <==> percentile >= 75.0)
      && (r == Good <==> 60.0 <= percentile < 75.0)
      && (r == Average <==> 40.0 <= percentile < 60.0)
      && (r == BelowAverage <==> 25.0 <= percentile < 40.0)
      && (r == Poor <==> percentile < 25.0)
    ensures metricType == RestingHeartRate ==>
      && (r == Excellent <==> percentile <= 25.0)
      && (r == Good <==> 25.0 < percentile <= 40.0)
      && (r == Average <==> 40.0 < percentile <= 60.0)
      && (r == BelowAverage <==> 60.0 < percentile <= 75.0)
      && (r == Poor <==> percentile > 75.0)
  {
    var isLowerBetter := metricType == RestingHeartRate;
    if isLowerBetter then
      if percentile <= 25.0 then Excellent
      else if percentile <= 40.0 then Good
      else if percentile <= 60.0 then Average
      else if percentile <= 75.0 then BelowAverage
      else Poor
    else
      if percentile >= 75.0 then Excellent
      else if percentile >= 60.0 then Good
      else if percentile >= 40.0 then Average
      else if percentile >= 25.0 then BelowAverage
      else Poor
  }

  /** Resting heart rate at p is rated as any higher-is-better metric at 100 - p. */
  lemma RatingMirror(percentile: real, other: MeasurementType)
    requires other != RestingHeartRate
    ensures GetRating(percentile, RestingHeartRate) == GetRating(100.0 - percentile, other)
  {
  }

  /** A higher percentile never rates worse for higher-is-better metrics, and never better for resting heart rate. */
  lemma RatingMonotonic(p: real, q: real, t: MeasurementType)
    requires p <= q
    ensures t != RestingHeartRate ==> RatingRank(GetRating(p, t)) <= RatingRank(GetRating(q, t))
    ensures t == RestingHeartRate ==> RatingRank(GetRating(p, t)) >= RatingRank(GetRating(q, t))
  {
  }

  // ---------------------------------------------------------------- comparison

  /**
   * `difference / average * 100` in floating point: finite when the average is
   * not zero, otherwise an infinity with the sign of the difference, or NaN
   * when the difference is zero too.
   */
  function DifferencePercentage(difference: real, average: real): (q: Quotient)
    ensures average != 0.0 ==> q.Finite? && q.v * average == difference * 100.0
    ensures q.PositiveInfinity? <==> average == 0.0 && difference > 0.0
    ensures q.NegativeInfinity? <==> average == 0.0 && difference < 0.0
    ensures q.NotANumber? <==> average == 0.0 && difference == 0.0
  {
    if average != 0.0 then Finite(difference / average * 100.0)
    else if difference > 0.0 then PositiveInfinity
    else if difference < 0.0 then NegativeInfinity
    else NotANumber
  }

  /**
   * Compare a user value with the age group of `age` for the metric type: None
   * when the type has no benchmark or no bracket of its first benchmark holds
   * the age, otherwise the record built from that bracket. The percentile is
   * the raw one; direction enters only through the rating.
   */
  function CompareUserToAgeGroup(table: seq<MetricBenchmark>, metricType: MeasurementType, userValue: real, age: int)
    : (r: Option<UserComparison>)
    ensures r.None? <==> GetAgeGroupBenchmark(table, metricType, age).None?
    ensures r.Some? ==>
      var g := GetAgeGroupBenchmark(table, metricType, age).value;
      && r.value.metricType == metricType
      && r.value.userValue == userValue
      && r.value.ageGroup == g.ageGroup
      && r.value.percentiles == g.percentiles
      && r.value.average == g.average
      && r.value.percentile == CalculatePercentile(userValue, g.percentiles)
      && r.value.difference + g.average == userValue
      && r.value.differencePercentage == DifferencePercentage(r.value.difference, g.average)
      && r.value.rating == GetRating(r.value.percentile, metricType)
  {
    match GetBenchmarkData(table, metricType)
    case None => None
    case Some(benchmark) =>
      match FindAgeGroup(benchmark.ageGroups, age)
      case None => None
      case Some(ageGroup) =>
        var percentile := CalculatePercentile(userValue, ageGroup.percentiles);
        var difference := userValue - ageGroup.average;
        var differencePercentage := DifferencePercentage(difference, ageGroup.average);
        var rating := GetRating(percentile, metricType);
        Some(UserComparison(
          metricType, userValue, ageGroup.ageGroup, percentile, ageGroup.percentiles,
          ageGroup.average, difference, differencePercentage, rating))
  }

  /** Brackets that do not overlap: no age is held by two of them. */
  predicate DisjointBrackets(groups: seq<AgeGroupBenchmark>) {
    forall i, j :: 0 <= i < j < |groups| ==> groups[i].ageMax < groups[j].ageMin || groups[j].ageMax < groups[i].ageMin
  }

  /** With non-overlapping brackets the lookup finds the one bracket that holds the age. */
  lemma {:induction false} UniqueBracketFound(groups: seq<AgeGroupBenchmark>, k: nat, age: int)
    requires DisjointBrackets(groups)
    requires k < |groups| && Covers(groups[k], age)
    ensures FindAgeGroup(groups, age) == Some(groups[k])
  {
    assert CoversAge(age)(groups[k]);
    var i := FindIndex(groups, CoversAge(age));
    assert Covers(groups[i], age);
    assert !(i < k) && !(k < i);
  }

  // ---------------------------------------------------------------- scenarios

  /** Resting heart rate at p10 of 52..80: raw percentile 10, rated excellent. */
  lemma RestingHeartRateAtP10()
    ensures var p := Percentiles(52.0, 58.0, 65.0, 72.0, 80.0);
      CalculatePercentile(52.0, p) == 10.0 && GetRating(10.0, RestingHeartRate) == Excellent
  {
  }

  /** VO2 max 47 against 30..50: 75 + (2/5) * 15 = 81, rated excellent. */
  lemma Vo2MaxInUpperBand()
    ensures var p := Percentiles(30.0, 35.0, 40.0, 45.0, 50.0);
      CalculatePercentile(47.0, p) == 81.0 && GetRating(81.0, Vo2Max) == Excellent
  {
  }
}
