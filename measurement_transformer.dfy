/** Conversion of backend measurements into time-sorted chart series. */
module MeasurementTransformer {
  import opened Seqs
  import opened MeasurementModels

  /** The data point of one measurement: its instant, value and unit. */
  function ToPoint(m: MeasurementResponse): (d: MeasurementDataPoint)
    ensures d.timestamp == m.recordedAt && d.value == m.value && d.unit == m.unit
  {
    MeasurementDataPoint(m.recordedAt, m.value, m.unit)
  }

  function MapPoints(measurements: seq<MeasurementResponse>): (ds: seq<MeasurementDataPoint>)
    ensures |ds| == |measurements| && forall i :: 0 <= i < |ds| ==> ds[i] == ToPoint(measurements[i])
  {
    seq(|measurements|, i requires 0 <= i < |measurements| => ToPoint(measurements[i]))
  }

  predicate SortedByTime(s: seq<MeasurementDataPoint>) {
    forall i, j :: 0 <= i < j < |s| ==> s[i].timestamp <= s[j].timestamp
  }

  /** Insert `x` into a time-sorted sequence after every point not later than it. */
  function Insert(x: MeasurementDataPoint, s: seq<MeasurementDataPoint>): (r: seq<MeasurementDataPoint>)
    requires SortedByTime(s)
    ensures |r| == |s| + 1 && multiset(r) == multiset(s) + multiset{x}
    ensures SortedByTime(r)
    ensures r[0] == x || (|s| > 0 && r[0] == s[0])
  {
    if |s| == 0 then [x]
    else if s[0].timestamp > x.timestamp then [x] + s
    else
      var rest := Insert(x, s[1..]);
      assert s == [s[0]] + s[1..];
      assert s[0].timestamp <= rest[0].timestamp;
      [s[0]] + rest
  }

  /**
   * The stable sort by timestamp that `Array.prototype.sort` performs with the
   * comparator `a.timestamp - b.timestamp`: each later point is inserted after
   * every earlier one with the same instant.
   */
  function SortByTime(s: seq<MeasurementDataPoint>): (r: seq<MeasurementDataPoint>)
    ensures |r| == |s| && multiset(r) == multiset(s)
    ensures SortedByTime(r)
  {
    if |s| == 0 then []
    else
      assert s == s[..|s| - 1] + [s[|s| - 1]];
      Insert(s[|s| - 1], SortByTime(s[..|s| - 1]))
  }

  function AtTime(t: int): MeasurementDataPoint -> bool {
    (d: MeasurementDataPoint) => d.timestamp == t
  }

  lemma {:induction false} InsertKeepsTies(x: MeasurementDataPoint, s: seq<MeasurementDataPoint>, t: int)
    requires SortedByTime(s)
    ensures Filter(Insert(x, s), AtTime(t)) == Filter(s, AtTime(t)) + (if x.timestamp == t then [x] else [])
  {
    if |s| == 0 {
    } else if s[0].timestamp > x.timestamp {
      assert ([x] + s)[1..] == s;
      if x.timestamp == t {
        assert forall i :: 0 <= i < |s| ==> !AtTime(t)(s[i]);
      }
    } else {
      var rest := Insert(x, s[1..]);
      assert ([s[0]] + rest)[1..] == rest;
      InsertKeepsTies(x, s[1..], t);
    }
  }

  /** Stability: the points sharing an instant keep their input order. */
  lemma {:induction false} SortKeepsTies(s: seq<MeasurementDataPoint>, t: int)
    ensures Filter(SortByTime(s), AtTime(t)) == Filter(s, AtTime(t))
  {
    if |s| > 0 {
      var init, last := s[..|s| - 1], s[|s| - 1];
      var tail := if last.timestamp == t then [last] else [];
      calc {
        Filter(SortByTime(s), AtTime(t));
        { assert SortByTime(s) == Insert(last, SortByTime(init)); }
        Filter(Insert(last, SortByTime(init)), AtTime(t));
        { InsertKeepsTies(last, SortByTime(init), t); }
        Filter(SortByTime(init), AtTime(t)) + tail;
        { SortKeepsTies(init, t); }
        Filter(init, AtTime(t)) + tail;
        { assert Filter([last], AtTime(t)) == tail; FilterConcat(init, [last], AtTime(t)); }
        Filter(init + [last], AtTime(t));
        { assert s == init + [last]; }
        Filter(s, AtTime(t));
      }
    }
  }

  /**
   * The measurements as data points sorted by instant: a permutation of the
   * mapped input, in non-decreasing time, with ties in input order.
   */
  function ToDataPoints(measurements: seq<MeasurementResponse>): (r: seq<MeasurementDataPoint>)
    ensures |r| == |measurements|
    ensures multiset(r) == multiset(MapPoints(measurements))
    ensures SortedByTime(r)
    ensures forall t :: Filter(r, AtTime(t)) == Filter(MapPoints(measurements), AtTime(t))
    ensures forall i :: 0 <= i < |r| ==>
      exists j :: 0 <= j < |measurements| && r[i] == ToPoint(measurements[j])
  {
    var mapped := MapPoints(measurements);
    var r := SortByTime(mapped);
    forall t ensures Filter(r, AtTime(t)) == Filter(mapped, AtTime(t)) {
      SortKeepsTies(mapped, t);
    }
    assert forall i :: 0 <= i < |r| ==> r[i] in multiset(mapped);
    r
  }

  /** The series of one type: the type's label and colour, and its sorted points. */
  function ToMetricSeries(measurementType: MeasurementType, measurements: seq<MeasurementResponse>): (s: MetricSeries)
    ensures s.measurementType == measurementType
    ensures s.caption == TypeLabel(measurementType) && s.color == TypeColor(measurementType)
    ensures s.data == ToDataPoints(measurements)
  {
    MetricSeries(measurementType, TypeLabel(measurementType), TypeColor(measurementType), ToDataPoints(measurements))
  }

  /**
   * Zip types with the response arrays fetched for them, one series per type in
   * order; a missing array would fail at run time, so there must be one per type.
   */
  function ToMultipleMetricSeries(measurementTypes: seq<MeasurementType>, measurementArrays: seq<seq<MeasurementResponse>>)
    : (r: seq<MetricSeries>)
    requires |measurementArrays| >= |measurementTypes|
    ensures |r| == |measurementTypes|
    ensures forall i :: 0 <= i < |r| ==> r[i] == ToMetricSeries(measurementTypes[i], measurementArrays[i])
    ensures forall i :: 0 <= i < |r| ==>
      && r[i].measurementType == measurementTypes[i]
      && r[i].caption == TypeLabel(measurementTypes[i]) && r[i].color == TypeColor(measurementTypes[i])
      && r[i].data == ToDataPoints(measurementArrays[i])
  {
    seq(|measurementTypes|, i requires 0 <= i < |measurementTypes| =>
      ToMetricSeries(measurementTypes[i], measurementArrays[i]))
  }
}
