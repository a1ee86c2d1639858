/** The pothole record and the filter options of the pothole list. */
module PotholeTypes {
  import opened Common

  datatype Status = New | InProgress | Completed | Scheduled

  datatype Priority = Low | Medium | High | Critical

  /** The string the record stores for a status. */
  function StatusName(s: Status): string {
    match s
    case New => "new"
    case InProgress => "in_progress"
    case Completed => "completed"
    case Scheduled => "scheduled"
  }

  /** The string the record stores for a priority. */
  function PriorityName(p: Priority): string {
    match p
    case Low => "low"
    case Medium => "medium"
    case High => "high"
    case Critical => "critical"
  }

  /** `priority.toUpperCase()`. */
  function PriorityUpper(p: Priority): string {
    match p
    case Low => "LOW"
    case Medium => "MEDIUM"
    case High => "HIGH"
    case Critical => "CRITICAL"
  }

  /** A detected pothole. `detectedAt` is the parsed `detected_at`
      timestamp in milliseconds; `image_url` and `mask_geojson` are
      display data and are not part of the model. */
  datatype Pothole = Pothole(
    id: string,
    lat: real,
    lng: real,
    detectedAt: int,
    severity: real,
    estimatedRepairCost: real,
    status: Status,
    source: string,
    ward: Option<string>,
    roadName: Option<string>,
    description: Option<string>,
    priority: Option<Priority>)

  /** The optional filters of the pothole list. `since` and `until` are
      the parsed dates, in milliseconds; `None` stands for an absent or
      empty string, and likewise for `status`, `ward` and `priority`. */
  datatype FilterOptions = FilterOptions(
    status: Option<string>,
    minSeverity: Option<real>,
    since: Option<int>,
    until: Option<int>,
    ward: Option<string>,
    priority: Option<string>,
    overdue: Option<bool>)

  const NoFilters := FilterOptions(None, None, None, None, None, None, None)
}
