/** Measurements, data points and chart series, with the per-type label and colour tables. */
module MeasurementModels {

  /** The metric types a measurement can have. */
  datatype MeasurementType = HeartRate | RestingHeartRate | Vo2Max | Steps

  /** A measurement as the backend returns it; `recordedAt` is the parsed instant in milliseconds. */
  datatype MeasurementResponse = MeasurementResponse(
    id: int,
    userId: string,
    measurementType: MeasurementType,
    value: real,
    unit: string,
    recordedAt: int,
    sourceId: string,
    createdAt: string,
    updatedAt: string)

  /** One point of a series; `timestamp` is the instant in milliseconds. */
  datatype MeasurementDataPoint = MeasurementDataPoint(timestamp: int, value: real, unit: string)

  /** All measurements of one type, with the metadata the charts show. */
  datatype MetricSeries = MetricSeries(
    measurementType: MeasurementType,
    caption: string,
    color: string,
    data: seq<MeasurementDataPoint>)

  /** `metric.data.length > 0`, the filter the views apply before charting or comparing a series. */
  function HasData(): MetricSeries -> bool {
    (m: MetricSeries) => |m.data| > 0
  }

  /** The display label of each type. */
  function TypeLabel(t: MeasurementType): string {
    match t
    case HeartRate => "Heart Rate"
    case RestingHeartRate => "Resting Heart Rate"
    case Vo2Max => "VO2 Max"
    case Steps => "Steps"
  }

  /** The line colour of each type. */
  function TypeColor(t: MeasurementType): string {
    match t
    case HeartRate => "#ef4444"
    case RestingHeartRate => "#f97316"
    case Vo2Max => "#3b82f6"
    case Steps => "#10b981"
  }
}
