/** The shared chart colours and the fixed positions of the user and average datasets. */
module ChartConfig {
  const UserColor := "#667eea"
  const AverageColor := "#f59e0b"
  const ExcellentColor := "#10b981"
  const GoodColor := "#3b82f6"
  const AverageZoneColor := "#f59e0b"
  const BelowAverageColor := "#ef4444"
  const PoorColor := "#dc2626"
  const DefaultColor := "#94a3b8"

  /** Dataset positions in an analysis chart: user line, average line, then the zones. */
  const UserIndex := 0
  const AverageIndex := 1
  const FirstZoneIndex := 2
}
