/** The pothole list store: the full list, the filter options and the
    filtered list, which every change of the list or of the options
    recomputes. The overdue filter reads the clock; here the time is a
    parameter. The statistics, loading and error fields are plain
    setters with nothing to prove and are not part of the model. */
module PotholeStore {
  import opened Common
  import opened Seqs
  import opened PotholeTypes
  import opened NotificationService

  /** JavaScript truthiness of an optional string: present and not empty. */
  predicate Truthy(s: Option<string>) {
    s.Some? && s.value != ""
  }

  /** The overdue filter's own deadline table: critical 1, high 3,
      medium 7, and 14 for low and for a pothole without priority. */
  function OverdueDeadlineDays(priority: Option<Priority>): (days: int)
    ensures priority == Some(Low) || priority.None? <==> days == 14
  {
    match priority
    case Some(Critical) => 1
    case Some(High) => 3
    case Some(Medium) => 7
    case _ => 14
  }

  /** The overdue filter's test: not completed and more whole days
      elapsed than its deadline. */
  predicate OverdueFilterKeeps(p: Pothole, now: int) {
    p.status != Completed && DaysElapsed(p, now) > OverdueDeadlineDays(p.priority)
  }

  /** `p.priority === filters.priority`: a pothole without priority
      matches no (non-empty) priority string. */
  predicate PriorityIs(priority: Option<Priority>, name: string) {
    priority.Some? && PriorityName(priority.value) == name
  }

  // The per-filter tests, numbered in the order `applyFilters` applies
  // them: 0 status, 1 minimum severity, 2 since, 3 until, 4 ward,
  // 5 priority, 6 overdue.
  const FILTER_COUNT: nat := 7

  /** Whether filter k is set in `f`. */
  predicate Active(f: FilterOptions, k: nat) {
    match k
    case 0 => Truthy(f.status)
    case 1 => f.minSeverity.Some?
    case 2 => f.since.Some?
    case 3 => f.until.Some?
    case 4 => Truthy(f.ward)
    case 5 => Truthy(f.priority)
    case _ => f.overdue == Some(true)
  }

  /** The test of filter k, meaningful when it is set. */
  predicate Test(f: FilterOptions, now: int, k: nat, p: Pothole) {
    match k
    case 0 => f.status.Some? && StatusName(p.status) == f.status.value
    case 1 => f.minSeverity.Some? && p.severity >= f.minSeverity.value
    case 2 => f.since.Some? && p.detectedAt >= f.since.value
    case 3 => f.until.Some? && p.detectedAt <= f.until.value
    case 4 => f.ward.Some? && p.ward == f.ward
    case 5 => f.priority.Some? && PriorityIs(p.priority, f.priority.value)
    case _ => OverdueFilterKeeps(p, now)
  }

  /** `p` passes the first k filters that are set. */
  predicate PassesFirst(f: FilterOptions, now: int, k: nat, p: Pothole)
    decreases k
  {
    k == 0 || (PassesFirst(f, now, k - 1, p) && (Active(f, k - 1) ==> Test(f, now, k - 1, p)))
  }

  function Stage(f: FilterOptions, now: int, k: nat): Pothole -> bool {
    (p: Pothole) => PassesFirst(f, now, k, p)
  }

  /** The filters as one predicate: `p` passes every filter that is set. */
  function Matches(f: FilterOptions, now: int): Pothole -> bool {
    Stage(f, now, FILTER_COUNT)
  }

  /** What `applyFilters` keeps, filter by filter: each set filter is a
      conjunct, and an absent or empty filter constrains nothing. */
  lemma MatchesMeaning(f: FilterOptions, now: int, p: Pothole)
    ensures Matches(f, now)(p) <==>
      && (Truthy(f.status) ==> StatusName(p.status) == f.status.value)
      && (f.minSeverity.Some? ==> p.severity >= f.minSeverity.value)
      && (f.since.Some? ==> p.detectedAt >= f.since.value)
      && (f.until.Some? ==> p.detectedAt <= f.until.value)
      && (Truthy(f.ward) ==> p.ward == f.ward)
      && (Truthy(f.priority) ==> PriorityIs(p.priority, f.priority.value))
      && (f.overdue == Some(true) ==> OverdueFilterKeeps(p, now))
  {
  }

  /** One step of `applyFilters`: applying filter k (when set) to the
      potholes that passed the first k filters leaves those that pass
      the first k + 1. */
  lemma StageStep(ps: seq<Pothole>, f: FilterOptions, now: int, k: nat,
                  before: seq<Pothole>, keep: Pothole -> bool)
    requires k < FILTER_COUNT
    requires before == Filter(ps, Stage(f, now, k))
    requires Active(f, k) ==> forall p :: keep(p) == Test(f, now, k, p)
    ensures (if Active(f, k) then Filter(before, keep) else before) == Filter(ps, Stage(f, now, k + 1))
  {
    if Active(f, k) {
      FilterFilter(ps, Stage(f, now, k), keep, Stage(f, now, k + 1));
    } else {
      FilterCongruent(ps, Stage(f, now, k), Stage(f, now, k + 1));
    }
  }

  function HasStatus(status: string): Pothole -> bool {
    (p: Pothole) => StatusName(p.status) == status
  }

  function AtLeastSeverity(minSeverity: real): Pothole -> bool {
    (p: Pothole) => p.severity >= minSeverity
  }

  function DetectedSince(since: int): Pothole -> bool {
    (p: Pothole) => p.detectedAt >= since
  }

  function DetectedUntil(until: int): Pothole -> bool {
    (p: Pothole) => p.detectedAt <= until
  }

  function InWard(ward: string): Pothole -> bool {
    (p: Pothole) => p.ward == Some(ward)
  }

  function HasPriority(priority: string): Pothole -> bool {
    (p: Pothole) => PriorityIs(p.priority, priority)
  }

  function OverdueAt(now: int): Pothole -> bool {
    (p: Pothole) => OverdueFilterKeeps(p, now)
  }

  /** One `if (filters.x) filtered = filtered.filter(...)` block of
      `applyFilters`: filter k narrows the list by `keep` when it is set
      and leaves it alone otherwise. */
  method FilterStage(ghost ps: seq<Pothole>, f: FilterOptions, now: int, k: nat,
                     filtered: seq<Pothole>, keep: Pothole -> bool)
    returns (r: seq<Pothole>)
    requires k < FILTER_COUNT
    requires filtered == Filter(ps, Stage(f, now, k))
    requires Active(f, k) ==> forall p :: keep(p) == Test(f, now, k, p)
    ensures r == Filter(ps, Stage(f, now, k + 1))
  {
    r := filtered;
    if Active(f, k) {
      r := Filter(filtered, keep);
    }
    StageStep(ps, f, now, k, filtered, keep);
  }

  class Store {
    var potholes: seq<Pothole>
    var filteredPotholes: seq<Pothole>
    var filters: FilterOptions
    /** The time of the last filtering, which the overdue filter read. */
    ghost var filteredAt: int

    /** The filtered list is the full list filtered by the options, as
        of the last filtering. */
    ghost predicate Valid()
      reads this
    {
      filteredPotholes == Filter(potholes, Matches(filters, filteredAt))
    }

    constructor ()
      ensures Valid()
      ensures potholes == [] && filteredPotholes == [] && filters == NoFilters
    {
      potholes := [];
      filteredPotholes := [];
      filters := NoFilters;
    }

    /** `applyFilters`, at time `now`: each of the seven filters, in
        the order the source applies them, narrows the list when it is
        set (see FilterStage). */
    method ApplyFilters(now: int)
      modifies this`filteredPotholes, this`filteredAt
      ensures filteredPotholes == Filter(potholes, Matches(filters, now))
      ensures filteredAt == now && Valid()
    {
      var f := filters;
      var filtered := potholes;
      FilterKeepsAll(potholes, Stage(f, now, 0));
      filtered := FilterStage(potholes, f, now, 0, filtered, HasStatus(f.status.GetOr("")));
      filtered := FilterStage(potholes, f, now, 1, filtered, AtLeastSeverity(f.minSeverity.GetOr(0.0)));
      filtered := FilterStage(potholes, f, now, 2, filtered, DetectedSince(f.since.GetOr(0)));
      filtered := FilterStage(potholes, f, now, 3, filtered, DetectedUntil(f.until.GetOr(0)));
      filtered := FilterStage(potholes, f, now, 4, filtered, InWard(f.ward.GetOr("")));
      filtered := FilterStage(potholes, f, now, 5, filtered, HasPriority(f.priority.GetOr("")));
      filtered := FilterStage(potholes, f, now, 6, filtered, OverdueAt(now));
      filteredPotholes := filtered;
      filteredAt := now;
    }

    /** `setPotholes`: replace the list, then filter it. */
    method SetPotholes(ps: seq<Pothole>, now: int)
      modifies this`potholes, this`filteredPotholes, this`filteredAt
      ensures potholes == ps && filters == old(filters)
      ensures filteredPotholes == Filter(ps, Matches(filters, now))
      ensures Valid()
    {
      potholes := ps;
      filteredPotholes := ps;
      ApplyFilters(now);
    }

    /** `setFilters`: replace the options, then filter the list. */
    method SetFilters(f: FilterOptions, now: int)
      modifies this`filters, this`filteredPotholes, this`filteredAt
      ensures filters == f && potholes == old(potholes)
      ensures filteredPotholes == Filter(potholes, Matches(f, now))
      ensures Valid()
    {
      filters := f;
      ApplyFilters(now);
    }

    /** `clearFilters`: no options, and the whole list shown. */
    method ClearFilters()
      modifies this`filters, this`filteredPotholes
      ensures filters == NoFilters && filteredPotholes == potholes
      ensures potholes == old(potholes)
      ensures Valid()
    {
      filters := NoFilters;
      filteredPotholes := potholes;
      NoFiltersKeepAll(potholes, filteredAt);
    }
  }

  /** The filtered list is an order-preserving subsequence of the list,
      holding exactly the potholes that pass every set filter. */
  lemma FilteredMembership(ps: seq<Pothole>, f: FilterOptions, now: int)
    ensures IsSubsequence(Filter(ps, Matches(f, now)), ps)
    ensures forall i :: 0 <= i < |ps| ==> (ps[i] in Filter(ps, Matches(f, now)) <==> Matches(f, now)(ps[i]))
    ensures forall p ::
      multiset(Filter(ps, Matches(f, now)))[p] == if Matches(f, now)(p) then multiset(ps)[p] else 0
  {
    var r := Filter(ps, Matches(f, now));
    FilterSpec(ps, Matches(f, now));
    FilterMultiset(ps, Matches(f, now));
    forall i | 0 <= i < |ps| && ps[i] in r
      ensures Matches(f, now)(ps[i])
    {
      var j :| 0 <= j < |r| && r[j] == ps[i];
    }
  }

  /** With no option set, the filtered list is the whole list. */
  lemma NoFiltersKeepAll(ps: seq<Pothole>, now: int)
    ensures Filter(ps, Matches(NoFilters, now)) == ps
  {
    FilterKeepsAll(ps, Matches(NoFilters, now));
  }

  /** Filtering again with the same options changes nothing. */
  lemma FilterIdempotent(ps: seq<Pothole>, f: FilterOptions, now: int)
    ensures Filter(Filter(ps, Matches(f, now)), Matches(f, now)) == Filter(ps, Matches(f, now))
  {
    var r := Filter(ps, Matches(f, now));
    FilterSpec(ps, Matches(f, now));
    forall x | x in r
      ensures Matches(f, now)(x)
    {
      var j :| 0 <= j < |r| && r[j] == x;
    }
    FilterKeepsAll(r, Matches(f, now));
  }

  /** For a pothole with a priority the overdue filter agrees with the
      escalation rules' overdue test; without a priority it allows 14
      days where the escalation rules fall back to the medium rule's 7. */
  lemma OverdueFilterAgreesWithRules(p: Pothole, now: int)
    ensures p.priority.Some? ==>
      (OverdueFilterKeeps(p, now) <==> p.status != Completed && IsOverdue(p, now))
    ensures p.priority.None? ==>
      OverdueDeadlineDays(p.priority) == 14 && RuleFor(p.priority).deadlineDays == 7
  {
    if p.priority.Some? {
      assert RuleFor(p.priority) == ESCALATION_RULES[RuleIndex(p.priority.value)];
    }
  }

  /** An open pothole without priority detected ten days ago is
      escalated by the monitor but not listed by the overdue filter. */
  lemma NoPriorityOverdueDisagreement(p: Pothole, now: int)
    requires p.priority.None? && p.status != Completed
    requires now == p.detectedAt + 10 * DAY_MS
    ensures ShouldEscalate(p, now)
    ensures !OverdueFilterKeeps(p, now)
  {
    assert DaysElapsed(p, now) == 10;
  }
}
