/** The records of the scheduling store: crew schedule entries, weather
    by date, optimised routes per crew and date, and maintenance windows.
    Dates the source only compares for equality stay `YYYY-MM-DD`
    strings; the end of a maintenance window, which the source compares
    with the clock, is its parsed time in milliseconds. */
module SchedulingTypes {
  import opened Common

  datatype ScheduleStatus = Scheduled | InProgress | Completed | Cancelled | Rescheduled

  datatype Location = Location(lat: real, lng: real, address: string)

  datatype WeatherKind = Clear | Cloudy | Rain | Snow | Extreme

  datatype WeatherCondition = WeatherCondition(
    date: string,
    condition: WeatherKind,
    temperature: real,
    precipitation: real,
    suitable: bool,
    warning: Option<string>)

  datatype ScheduleEntry = ScheduleEntry(
    id: string,
    workOrderId: string,
    crewId: string,
    scheduledDate: string,
    startTime: string,
    endTime: string,
    status: ScheduleStatus,
    location: Location,
    estimatedDuration: real,
    actualDuration: Option<real>,
    weather: Option<WeatherCondition>,
    notes: Option<string>)

  /** A `Partial<ScheduleEntry>`: `Some` for each key the update object
      has. An optional field can be given a value, not removed. */
  datatype SchedulePatch = SchedulePatch(
    id: Option<string>,
    workOrderId: Option<string>,
    crewId: Option<string>,
    scheduledDate: Option<string>,
    startTime: Option<string>,
    endTime: Option<string>,
    status: Option<ScheduleStatus>,
    location: Option<Location>,
    estimatedDuration: Option<real>,
    actualDuration: Option<real>,
    weather: Option<WeatherCondition>,
    notes: Option<string>)

  const EmptySchedulePatch := SchedulePatch(None, None, None, None, None, None, None, None, None,
                                            None, None, None)

  /** `{ ...s, ...updates }`. */
  function MergeSchedule(s: ScheduleEntry, p: SchedulePatch): (r: ScheduleEntry)
    ensures p == EmptySchedulePatch ==> r == s
    ensures p.id.None? ==> r.id == s.id
    ensures p.endTime.None? ==> r.endTime == s.endTime
  {
    ScheduleEntry(
      p.id.GetOr(s.id),
      p.workOrderId.GetOr(s.workOrderId),
      p.crewId.GetOr(s.crewId),
      p.scheduledDate.GetOr(s.scheduledDate),
      p.startTime.GetOr(s.startTime),
      p.endTime.GetOr(s.endTime),
      p.status.GetOr(s.status),
      p.location.GetOr(s.location),
      p.estimatedDuration.GetOr(s.estimatedDuration),
      Overriding(s.actualDuration, p.actualDuration),
      Overriding(s.weather, p.weather),
      Overriding(s.notes, p.notes))
  }

  datatype RouteStop = RouteStop(
    order: int,
    workOrderId: string,
    location: Location,
    estimatedArrival: string,
    estimatedDuration: real,
    distance: real)

  datatype RouteOptimization = RouteOptimization(
    date: string,
    crewId: string,
    stops: seq<RouteStop>,
    totalDistance: real,
    totalDuration: real,
    optimizationScore: real)

  datatype WindowKind = Routine | Emergency | Seasonal | Planned

  datatype WindowPriority = LowWindow | MediumWindow | HighWindow

  datatype MaintenanceWindow = MaintenanceWindow(
    id: string,
    title: string,
    startDate: int,
    endDate: int,
    kind: WindowKind,
    affectedAreas: seq<string>,
    restrictions: Option<seq<string>>,
    priority: WindowPriority)

  /** A `Partial<MaintenanceWindow>`. */
  datatype WindowPatch = WindowPatch(
    id: Option<string>,
    title: Option<string>,
    startDate: Option<int>,
    endDate: Option<int>,
    kind: Option<WindowKind>,
    affectedAreas: Option<seq<string>>,
    restrictions: Option<seq<string>>,
    priority: Option<WindowPriority>)

  /** `{ ...w, ...updates }`. */
  function MergeWindow(w: MaintenanceWindow, p: WindowPatch): (r: MaintenanceWindow)
    ensures p == WindowPatch(None, None, None, None, None, None, None, None) ==> r == w
    ensures p.id.None? ==> r.id == w.id
    ensures p.endDate.None? ==> r.endDate == w.endDate
  {
    MaintenanceWindow(
      p.id.GetOr(w.id),
      p.title.GetOr(w.title),
      p.startDate.GetOr(w.startDate),
      p.endDate.GetOr(w.endDate),
      p.kind.GetOr(w.kind),
      p.affectedAreas.GetOr(w.affectedAreas),
      Overriding(w.restrictions, p.restrictions),
      p.priority.GetOr(w.priority))
  }
}
