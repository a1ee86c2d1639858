/** The scheduling store: crew schedule entries, weather by date, routes
    by crew and date, and maintenance windows, each a list that every
    action replaces. The getters take the list they read as a parameter;
    the clock of `getActiveMaintenanceWindows` is the parameter `now`.
    Persistence to browser storage is not part of the model. */
module SchedulingStore {
  import opened Common
  import opened Seqs
  import opened SchedulingTypes

  // ---------------------------------------------------------------
  // Replace-by-key lists
  // ---------------------------------------------------------------

  function KeyIs<T, K(==)>(key: T -> K, k: K): T -> bool {
    (x: T) => key(x) == k
  }

  function KeyIsNot<T, K(==)>(key: T -> K, k: K): T -> bool {
    (x: T) => key(x) != k
  }

  /** `[...s.filter((y) => key(y) !== key(x)), x]`: `x` replaces every
      entry with its key and goes last; the other entries keep their
      order. */
  function Upsert<T(!new), K(==)>(s: seq<T>, x: T, key: T -> K): (r: seq<T>)
    ensures |r| >= 1 && r[|r| - 1] == x
    ensures forall i :: 0 <= i < |r| - 1 ==> key(r[i]) != key(x)
    ensures IsSubsequence(r[..|r| - 1], s)
    ensures forall i :: 0 <= i < |s| && key(s[i]) != key(x) ==> s[i] in r
    ensures forall y :: multiset(r[..|r| - 1])[y] == if key(y) != key(x) then multiset(s)[y] else 0
  {
    var kept := Filter(s, KeyIsNot(key, key(x)));
    FilterSpec(s, KeyIsNot(key, key(x)));
    FilterMultiset(s, KeyIsNot(key, key(x)));
    assert (kept + [x])[..|kept|] == kept;
    kept + [x]
  }

  /** No two entries share a key. */
  ghost predicate UniqueKeys<T, K>(s: seq<T>, key: T -> K) {
    forall i, j :: 0 <= i < j < |s| ==> key(s[i]) != key(s[j])
  }

  lemma {:induction false} FilterKeepsUniqueKeys<T, K>(s: seq<T>, keep: T -> bool, key: T -> K)
    requires UniqueKeys(s, key)
    ensures UniqueKeys(Filter(s, keep), key)
  {
    if s != [] {
      FilterKeepsUniqueKeys(s[1..], keep, key);
      var rest := Filter(s[1..], keep);
      FilterMembers(s[1..], keep);
      forall y | y in rest
        ensures key(s[0]) != key(y)
      {
        var j :| 0 <= j < |s[1..]| && s[1..][j] == y;
        assert s[j + 1] == y;
      }
      if keep(s[0]) {
        var r := [s[0]] + rest;
        forall i, j | 0 <= i < j < |r|
          ensures key(r[i]) != key(r[j])
        {
          if i == 0 {
            assert r[j] == rest[j - 1];
          } else {
            assert r[i] == rest[i - 1] && r[j] == rest[j - 1];
          }
        }
      }
    }
  }

  /** Replacing by key keeps the keys unique. */
  lemma UpsertKeepsUniqueKeys<T(!new), K>(s: seq<T>, x: T, key: T -> K)
    requires UniqueKeys(s, key)
    ensures UniqueKeys(Upsert(s, x, key), key)
  {
    var kept := Filter(s, KeyIsNot(key, key(x)));
    FilterKeepsUniqueKeys(s, KeyIsNot(key, key(x)), key);
    var r := Upsert(s, x, key);
    forall i, j | 0 <= i < j < |r|
      ensures key(r[i]) != key(r[j])
    {
      if j < |kept| {
        assert r[i] == kept[i] && r[j] == kept[j];
      }
    }
  }

  /** After replacing by key, the lookup of that key finds the new entry
      and the lookup of any other key finds what it found before. */
  lemma UpsertLookup<T(!new), K>(s: seq<T>, x: T, key: T -> K, k: K)
    ensures Find(Upsert(s, x, key), KeyIs(key, k)) == if k == key(x) then Some(x) else Find(s, KeyIs(key, k))
  {
    var kept := Filter(s, KeyIsNot(key, key(x)));
    FindAppend(kept, [x], KeyIs(key, k));
    if k == key(x) {
      FilterSpec(s, KeyIsNot(key, key(x)));
      assert Find(kept, KeyIs(key, k)).None?;
    } else {
      FindFilter(s, KeyIsNot(key, key(x)), KeyIs(key, k));
    }
  }

  // ---------------------------------------------------------------
  // Schedules
  // ---------------------------------------------------------------

  function ScheduleUpdatedIf(id: string, updates: SchedulePatch): ScheduleEntry -> ScheduleEntry {
    (s: ScheduleEntry) => if s.id == id then MergeSchedule(s, updates) else s
  }

  /** The entries after `updateSchedule(id, updates)`: only the entries
      with that id take the updates, in place. */
  function UpdateSchedules(s: seq<ScheduleEntry>, id: string, updates: SchedulePatch)
    : (r: seq<ScheduleEntry>)
    ensures |r| == |s|
    ensures forall i :: 0 <= i < |s| && s[i].id != id ==> r[i] == s[i]
    ensures forall i :: 0 <= i < |s| && s[i].id == id ==> r[i] == MergeSchedule(s[i], updates)
  {
    Map(s, ScheduleUpdatedIf(id, updates))
  }

  function ScheduleIdIsNot(id: string): ScheduleEntry -> bool {
    (s: ScheduleEntry) => s.id != id
  }

  /** The entries after `deleteSchedule(id)`: the others, in order. */
  function DeleteSchedules(s: seq<ScheduleEntry>, id: string): (r: seq<ScheduleEntry>)
    ensures IsSubsequence(r, s)
    ensures forall i :: 0 <= i < |r| ==> r[i].id != id
    ensures forall i :: 0 <= i < |s| && s[i].id != id ==> s[i] in r
    ensures forall x :: multiset(r)[x] == if x.id != id then multiset(s)[x] else 0
  {
    FilterSpec(s, ScheduleIdIsNot(id));
    FilterMultiset(s, ScheduleIdIsNot(id));
    Filter(s, ScheduleIdIsNot(id))
  }

  function ScheduledOn(date: string): ScheduleEntry -> bool {
    (s: ScheduleEntry) => s.scheduledDate == date
  }

  /** `getSchedulesByDate(date)`. */
  function GetSchedulesByDate(s: seq<ScheduleEntry>, date: string): (r: seq<ScheduleEntry>)
    ensures IsSubsequence(r, s)
    ensures forall i :: 0 <= i < |r| ==> r[i].scheduledDate == date
    ensures forall i :: 0 <= i < |s| && s[i].scheduledDate == date ==> s[i] in r
    ensures forall x :: multiset(r)[x] == if x.scheduledDate == date then multiset(s)[x] else 0
  {
    FilterSpec(s, ScheduledOn(date));
    FilterMultiset(s, ScheduledOn(date));
    Filter(s, ScheduledOn(date))
  }

  function ScheduledFor(crewId: string): ScheduleEntry -> bool {
    (s: ScheduleEntry) => s.crewId == crewId
  }

  /** `getSchedulesByCrew(crewId)`. */
  function GetSchedulesByCrew(s: seq<ScheduleEntry>, crewId: string): (r: seq<ScheduleEntry>)
    ensures IsSubsequence(r, s)
    ensures forall i :: 0 <= i < |r| ==> r[i].crewId == crewId
    ensures forall i :: 0 <= i < |s| && s[i].crewId == crewId ==> s[i] in r
    ensures forall x :: multiset(r)[x] == if x.crewId == crewId then multiset(s)[x] else 0
  {
    FilterSpec(s, ScheduledFor(crewId));
    FilterMultiset(s, ScheduledFor(crewId));
    Filter(s, ScheduledFor(crewId))
  }

  function RescheduledIf(id: string, newDate: string, newStartTime: string)
    : ScheduleEntry -> ScheduleEntry
  {
    (s: ScheduleEntry) =>
      if s.id == id then s.(scheduledDate := newDate, startTime := newStartTime, status := Rescheduled)
      else s
  }

  /** The entries after `reschedule(id, newDate, newStartTime)`: the
      matching entries move to the new date and start time and are marked
      rescheduled; their end time and every other field stay. */
  function Reschedule(s: seq<ScheduleEntry>, id: string, newDate: string, newStartTime: string)
    : (r: seq<ScheduleEntry>)
    ensures |r| == |s|
    ensures forall i :: 0 <= i < |s| && s[i].id != id ==> r[i] == s[i]
    ensures forall i :: 0 <= i < |s| && s[i].id == id ==>
      && r[i].scheduledDate == newDate && r[i].startTime == newStartTime
      && r[i].status == Rescheduled && r[i].endTime == s[i].endTime
      && r[i] == s[i].(scheduledDate := newDate, startTime := newStartTime, status := Rescheduled)
  {
    Map(s, RescheduledIf(id, newDate, newStartTime))
  }

  // ---------------------------------------------------------------
  // Weather
  // ---------------------------------------------------------------

  function WeatherDate(w: WeatherCondition): string {
    w.date
  }

  /** The weather list after `addWeatherData(weather)`: the report
      replaces every earlier report for its date and goes last. */
  function AddWeatherData(ws: seq<WeatherCondition>, weather: WeatherCondition)
    : (r: seq<WeatherCondition>)
    ensures |r| >= 1 && r[|r| - 1] == weather
    ensures forall i :: 0 <= i < |r| - 1 ==> r[i].date != weather.date
    ensures forall i :: 0 <= i < |ws| && ws[i].date != weather.date ==> ws[i] in r
    ensures IsSubsequence(r[..|r| - 1], ws)
    ensures forall w ::
      multiset(r[..|r| - 1])[w] == if w.date != weather.date then multiset(ws)[w] else 0
  {
    Upsert(ws, weather, WeatherDate)
  }

  /** `getWeatherForDate(date)`: the first report for the date, if any. */
  function GetWeatherForDate(ws: seq<WeatherCondition>, date: string): (r: Option<WeatherCondition>)
    ensures r.None? <==> forall i :: 0 <= i < |ws| ==> ws[i].date != date
    ensures r.Some? ==> r.value in ws && r.value.date == date
  {
    Find(ws, KeyIs(WeatherDate, date))
  }

  /** `isSuitableForWork(date)`: without a report the day counts as
      suitable; with one, the report decides. */
  function IsSuitableForWork(ws: seq<WeatherCondition>, date: string): (ok: bool)
    ensures (forall i :: 0 <= i < |ws| ==> ws[i].date != date) ==> ok
    ensures GetWeatherForDate(ws, date).Some? ==> ok == GetWeatherForDate(ws, date).value.suitable
  {
    var weather := GetWeatherForDate(ws, date);
    if weather.Some? then weather.value.suitable else true
  }

  // ---------------------------------------------------------------
  // Routes
  // ---------------------------------------------------------------

  /** The key of a route: its crew and its date. */
  function RouteKey(r: RouteOptimization): (string, string) {
    (r.crewId, r.date)
  }

  /** The routes after `addRoute(route)`: the route replaces the route of
      the same crew and date and goes last. */
  function AddRoute(routes: seq<RouteOptimization>, route: RouteOptimization)
    : (r: seq<RouteOptimization>)
    ensures |r| >= 1 && r[|r| - 1] == route
    ensures forall i :: 0 <= i < |r| - 1 ==> r[i].crewId != route.crewId || r[i].date != route.date
    ensures forall i :: 0 <= i < |routes| ==>
      (routes[i].crewId != route.crewId || routes[i].date != route.date) ==> routes[i] in r
    ensures IsSubsequence(r[..|r| - 1], routes)
    ensures forall q ::
      multiset(r[..|r| - 1])[q] == if q.crewId != route.crewId || q.date != route.date then multiset(routes)[q] else 0
  {
    Upsert(routes, route, RouteKey)
  }

  /** `getRouteForCrew(crewId, date)`. */
  function GetRouteForCrew(routes: seq<RouteOptimization>, crewId: string, date: string)
    : (r: Option<RouteOptimization>)
    ensures r.None? <==> forall i :: 0 <= i < |routes| ==> routes[i].crewId != crewId || routes[i].date != date
    ensures r.Some? ==> r.value in routes && r.value.crewId == crewId && r.value.date == date
  {
    Find(routes, KeyIs(RouteKey, (crewId, date)))
  }

  // ---------------------------------------------------------------
  // Maintenance windows
  // ---------------------------------------------------------------

  function WindowUpdatedIf(id: string, updates: WindowPatch): MaintenanceWindow -> MaintenanceWindow {
    (w: MaintenanceWindow) => if w.id == id then MergeWindow(w, updates) else w
  }

  /** The windows after `updateMaintenanceWindow(id, updates)`. */
  function UpdateMaintenanceWindows(ws: seq<MaintenanceWindow>, id: string, updates: WindowPatch)
    : (r: seq<MaintenanceWindow>)
    ensures |r| == |ws|
    ensures forall i :: 0 <= i < |ws| && ws[i].id != id ==> r[i] == ws[i]
    ensures forall i :: 0 <= i < |ws| && ws[i].id == id ==> r[i] == MergeWindow(ws[i], updates)
  {
    Map(ws, WindowUpdatedIf(id, updates))
  }

  function EndsNoEarlierThan(now: int): MaintenanceWindow -> bool {
    (w: MaintenanceWindow) => w.endDate >= now
  }

  /** `getActiveMaintenanceWindows()` at time `now`: the windows that have
      not ended, in order; a window ending exactly now still counts. */
  function GetActiveMaintenanceWindows(ws: seq<MaintenanceWindow>, now: int)
    : (r: seq<MaintenanceWindow>)
    ensures IsSubsequence(r, ws)
    ensures forall i :: 0 <= i < |r| ==> r[i].endDate >= now
    ensures forall i :: 0 <= i < |ws| && ws[i].endDate >= now ==> ws[i] in r
    ensures forall x :: multiset(r)[x] == if x.endDate >= now then multiset(ws)[x] else 0
  {
    FilterSpec(ws, EndsNoEarlierThan(now));
    FilterMultiset(ws, EndsNoEarlierThan(now));
    Filter(ws, EndsNoEarlierThan(now))
  }

  // ---------------------------------------------------------------
  // The store
  // ---------------------------------------------------------------

  class Store {
    var schedules: seq<ScheduleEntry>
    var weatherData: seq<WeatherCondition>
    var routes: seq<RouteOptimization>
    var maintenanceWindows: seq<MaintenanceWindow>

    /** At most one weather report per date and one route per crew and
        date: the replace-by-key actions keep this. */
    ghost predicate Valid()
      reads this`weatherData, this`routes
    {
      UniqueKeys(weatherData, WeatherDate) && UniqueKeys(routes, RouteKey)
    }

    constructor ()
      ensures schedules == [] && weatherData == [] && routes == [] && maintenanceWindows == []
      ensures Valid()
    {
      schedules := [];
      weatherData := [];
      routes := [];
      maintenanceWindows := [];
    }

    /** `addSchedule`: appended at the end. */
    method AddSchedule(schedule: ScheduleEntry)
      modifies this`schedules
      ensures schedules == old(schedules) + [schedule]
    {
      schedules := schedules + [schedule];
    }

    /** `updateSchedule(id, updates)`. */
    method UpdateSchedule(id: string, updates: SchedulePatch)
      modifies this`schedules
      ensures schedules == UpdateSchedules(old(schedules), id, updates)
    {
      schedules := Map(schedules, ScheduleUpdatedIf(id, updates));
    }

    /** `deleteSchedule(id)`. */
    method DeleteSchedule(id: string)
      modifies this`schedules
      ensures schedules == DeleteSchedules(old(schedules), id)
    {
      schedules := Filter(schedules, ScheduleIdIsNot(id));
    }

    /** `reschedule(id, newDate, newStartTime)`. */
    method RescheduleEntry(id: string, newDate: string, newStartTime: string)
      modifies this`schedules
      ensures schedules == Reschedule(old(schedules), id, newDate, newStartTime)
    {
      schedules := Map(schedules, RescheduledIf(id, newDate, newStartTime));
    }

    /** `addWeatherData(weather)`. */
    method AddWeather(weather: WeatherCondition)
      modifies this`weatherData
      ensures weatherData == AddWeatherData(old(weatherData), weather)
      ensures old(Valid()) ==> Valid()
    {
      if Valid() {
        UpsertKeepsUniqueKeys(weatherData, weather, WeatherDate);
      }
      weatherData := Filter(weatherData, KeyIsNot(WeatherDate, weather.date)) + [weather];
    }

    /** `addRoute(route)`. */
    method AddRouteEntry(route: RouteOptimization)
      modifies this`routes
      ensures routes == AddRoute(old(routes), route)
      ensures old(Valid()) ==> Valid()
    {
      if Valid() {
        UpsertKeepsUniqueKeys(routes, route, RouteKey);
      }
      routes := Filter(routes, KeyIsNot(RouteKey, RouteKey(route))) + [route];
    }

    /** `addMaintenanceWindow(window)`: appended at the end. */
    method AddMaintenanceWindow(window: MaintenanceWindow)
      modifies this`maintenanceWindows
      ensures maintenanceWindows == old(maintenanceWindows) + [window]
    {
      maintenanceWindows := maintenanceWindows + [window];
    }

    /** `updateMaintenanceWindow(id, updates)`. */
    method UpdateMaintenanceWindow(id: string, updates: WindowPatch)
      modifies this`maintenanceWindows
      ensures maintenanceWindows == UpdateMaintenanceWindows(old(maintenanceWindows), id, updates)
    {
      maintenanceWindows := Map(maintenanceWindows, WindowUpdatedIf(id, updates));
    }
  }

  // ---------------------------------------------------------------
  // Properties
  // ---------------------------------------------------------------

  /** `reschedule` is `updateSchedule` with the new date and start time
      and the rescheduled status. */
  lemma RescheduleIsUpdate(s: seq<ScheduleEntry>, id: string, newDate: string, newStartTime: string)
    ensures Reschedule(s, id, newDate, newStartTime)
         == UpdateSchedules(s, id, EmptySchedulePatch.(scheduledDate := Some(newDate),
                                                       startTime := Some(newStartTime),
                                                       status := Some(Rescheduled)))
  {
  }

  /** A rescheduled entry is found under its new date and no longer under
      any other date. */
  lemma RescheduleMovesDate(s: seq<ScheduleEntry>, id: string, newDate: string, newStartTime: string,
                            date: string)
    ensures var r := Reschedule(s, id, newDate, newStartTime);
      forall i :: 0 <= i < |r| && r[i].id == id ==> r[i] in GetSchedulesByDate(r, newDate)
    ensures var r := Reschedule(s, id, newDate, newStartTime);
      date != newDate ==> forall x :: x in GetSchedulesByDate(r, date) ==> x.id != id
  {
    var r := Reschedule(s, id, newDate, newStartTime);
    FilterMembers(r, ScheduledOn(date));
    forall x | x in GetSchedulesByDate(r, date) && date != newDate
      ensures x.id != id
    {
      var j :| 0 <= j < |r| && r[j] == x;
    }
  }

  /** Weather reports: after `addWeatherData(weather)` the report is the
      one found for its date and decides whether the day is suitable;
      every other date is unaffected. */
  lemma WeatherAfterAdd(ws: seq<WeatherCondition>, weather: WeatherCondition, date: string)
    ensures GetWeatherForDate(AddWeatherData(ws, weather), date)
         == if date == weather.date then Some(weather) else GetWeatherForDate(ws, date)
    ensures IsSuitableForWork(AddWeatherData(ws, weather), weather.date) == weather.suitable
    ensures date != weather.date ==>
      IsSuitableForWork(AddWeatherData(ws, weather), date) == IsSuitableForWork(ws, date)
  {
    var added := AddWeatherData(ws, weather);
    assert GetWeatherForDate(added, date)
        == if date == weather.date then Some(weather) else GetWeatherForDate(ws, date) by {
      UpsertLookup(ws, weather, WeatherDate, date);
    }
    assert GetWeatherForDate(added, weather.date) == Some(weather) by {
      UpsertLookup(ws, weather, WeatherDate, weather.date);
    }
  }

  /** The report found for a date is the first one: it occurs no later
      than any report for that date. */
  lemma WeatherFoundIsFirst(ws: seq<WeatherCondition>, date: string)
    ensures GetWeatherForDate(ws, date).Some? ==>
      forall i :: 0 <= i < |ws| && ws[i].date == date ==> GetWeatherForDate(ws, date).value in ws[..i + 1]
  {
    FindFirst(ws, KeyIs(WeatherDate, date));
    forall i | 0 <= i < |ws| && ws[i].date == date
      ensures KeyIs(WeatherDate, date)(ws[i])
    {
      assert WeatherDate(ws[i]) == date;
    }
  }

  /** The route found for a crew and date is the first one: it occurs no
      later than any route for that crew and date. */
  lemma RouteFoundIsFirst(routes: seq<RouteOptimization>, crewId: string, date: string)
    ensures GetRouteForCrew(routes, crewId, date).Some? ==>
      forall i :: 0 <= i < |routes| && routes[i].crewId == crewId && routes[i].date == date ==>
        GetRouteForCrew(routes, crewId, date).value in routes[..i + 1]
  {
    FindFirst(routes, KeyIs(RouteKey, (crewId, date)));
    forall i | 0 <= i < |routes| && routes[i].crewId == crewId && routes[i].date == date
      ensures KeyIs(RouteKey, (crewId, date))(routes[i])
    {
      assert RouteKey(routes[i]) == (crewId, date);
    }
  }

  /** With one report per date, the day is suitable exactly when no
      report for it says otherwise. */
  lemma SuitableIffReportsAgree(ws: seq<WeatherCondition>, date: string)
    requires UniqueKeys(ws, WeatherDate)
    ensures IsSuitableForWork(ws, date) <==>
      forall i :: 0 <= i < |ws| && ws[i].date == date ==> ws[i].suitable
  {
    var k := FirstIndex(ws, KeyIs(WeatherDate, date));
    forall i | 0 <= i < |ws| && ws[i].date == date
      ensures i == k
    {
    }
  }

  /** Routes: after `addRoute(route)` the route is the one found for its
      crew and date; every other crew and date is unaffected. */
  lemma RouteAfterAdd(routes: seq<RouteOptimization>, route: RouteOptimization,
                      crewId: string, date: string)
    ensures GetRouteForCrew(AddRoute(routes, route), crewId, date)
         == if crewId == route.crewId && date == route.date then Some(route)
            else GetRouteForCrew(routes, crewId, date)
  {
    UpsertLookup(routes, route, RouteKey, (crewId, date));
  }

  /** Windows only ever drop out of the active list as time passes: the
      active list later is the active list now, filtered again. */
  lemma ActiveWindowsShrink(ws: seq<MaintenanceWindow>, now: int, later: int)
    requires now <= later
    ensures GetActiveMaintenanceWindows(ws, later)
         == Filter(GetActiveMaintenanceWindows(ws, now), EndsNoEarlierThan(later))
    ensures IsSubsequence(GetActiveMaintenanceWindows(ws, later), GetActiveMaintenanceWindows(ws, now))
  {
    FilterFilter(ws, EndsNoEarlierThan(now), EndsNoEarlierThan(later), EndsNoEarlierThan(later));
    FilterSpec(GetActiveMaintenanceWindows(ws, now), EndsNoEarlierThan(later));
  }

  /** An id that no entry has: updating, deleting and rescheduling leave
      the schedules alone, and updating leaves the windows alone. */
  lemma UnknownIdIsNoop(s: seq<ScheduleEntry>, ws: seq<MaintenanceWindow>, id: string,
                        updates: SchedulePatch, windowUpdates: WindowPatch,
                        newDate: string, newStartTime: string)
    requires forall i :: 0 <= i < |s| ==> s[i].id != id
    requires forall i :: 0 <= i < |ws| ==> ws[i].id != id
    ensures UpdateSchedules(s, id, updates) == s
    ensures DeleteSchedules(s, id) == s
    ensures Reschedule(s, id, newDate, newStartTime) == s
    ensures UpdateMaintenanceWindows(ws, id, windowUpdates) == ws
  {
    FilterKeepsAll(s, ScheduleIdIsNot(id));
  }
}
