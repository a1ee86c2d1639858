/** The dashboard's priority alerts: each open pothole is classified into
    critical, high-priority and overdue alerts by its priority and the
    days left until its deadline, and the alerts are then sorted by
    category, critical first, then overdue, then high-priority. The
    rendering of the alerts is not part of the model. */
module DashboardAlerts {
  import opened Common
  import opened Seqs
  import opened PotholeTypes
  import opened NotificationService
  import opened NotificationServiceProperties

  datatype AlertType = CriticalAlert | OverdueAlert | HighPriorityAlert

  datatype AlertItem = AlertItem(
    id: string,
    kind: AlertType,
    title: string,
    description: string,
    priority: string,
    daysInfo: string,
    potholeId: string)

  /** The sort key `priorityOrder`: critical 0, overdue 1, high-priority 2. */
  function Rank(k: AlertType): nat {
    match k
    case CriticalAlert => 0
    case OverdueAlert => 1
    case HighPriorityAlert => 2
  }

  predicate IsCriticalAlert(a: AlertItem) { a.kind == CriticalAlert }
  predicate IsOverdueAlert(a: AlertItem) { a.kind == OverdueAlert }
  predicate IsHighPriorityAlert(a: AlertItem) { a.kind == HighPriorityAlert }

  function OverdueText(days: int): string {
    NatToString(Abs(days)) + " days overdue"
  }

  function LocationAndWard(p: Pothole): string {
    OrElse(p.roadName, "Unknown Location") + " - " + OrElse(p.ward, "No Ward")
  }

  function CriticalItem(p: Pothole, days: int): AlertItem {
    AlertItem("critical-" + p.id, CriticalAlert, "CRITICAL Priority Pothole", LocationAndWard(p),
      "critical", if days < 0 then OverdueText(days) else "Due in " + IntToString(days) + " days", p.id)
  }

  function HighItem(p: Pothole, days: int): AlertItem {
    AlertItem("high-" + p.id, HighPriorityAlert, "High Priority Repair Urgent", LocationAndWard(p),
      "high", if days < 0 then OverdueText(days) else "Due today", p.id)
  }

  function OverdueItem(p: Pothole, days: int): AlertItem {
    var upper := match p.priority case Some(q) => PriorityUpper(q) case None => "MEDIUM";
    var name := match p.priority case Some(q) => PriorityName(q) case None => "medium";
    AlertItem("overdue-" + p.id, OverdueAlert, "Overdue Repair",
      OrElse(p.roadName, "Unknown Location") + " - " + upper, name, OverdueText(days), p.id)
  }

  function CriticalPart(p: Pothole, days: int): seq<AlertItem> {
    if p.priority == Some(Critical) then [CriticalItem(p, days)] else []
  }

  function HighPart(p: Pothole, days: int): seq<AlertItem> {
    if p.priority == Some(High) && days <= 1 then [HighItem(p, days)] else []
  }

  function OverduePart(p: Pothole, days: int): seq<AlertItem> {
    if days < 0 then [OverdueItem(p, days)] else []
  }

  /** The alerts pushed for one pothole, in push order. */
  function PotholeAlerts(p: Pothole, now: int): (r: seq<AlertItem>)
    ensures |r| <= 2
    ensures p.status == Completed ==> r == []
  {
    if p.status == Completed then []
    else
      var days := GetDaysUntilDeadline(p, now);
      CriticalPart(p, days) + HighPart(p, days) + OverduePart(p, days)
  }

  /** The alerts pushed for a list of potholes, before sorting. */
  function RawAlerts(ps: seq<Pothole>, now: int): (r: seq<AlertItem>)
    ensures |r| <= 2 * |ps|
    decreases |ps|
  {
    if ps == [] then []
    else RawAlerts(ps[..|ps| - 1], now) + PotholeAlerts(ps[|ps| - 1], now)
  }

  /** The stable sort by rank that `newAlerts.sort(...)` performs: the
      critical alerts, then the overdue ones, then the high-priority
      ones, each group in its original order. */
  function SortByRank(s: seq<AlertItem>): seq<AlertItem> {
    Filter(s, IsCriticalAlert) + Filter(s, IsOverdueAlert) + Filter(s, IsHighPriorityAlert)
  }

  ghost predicate SortedByRank(s: seq<AlertItem>) {
    forall i, j :: 0 <= i < j < |s| ==> Rank(s[i].kind) <= Rank(s[j].kind)
  }

  /** `generateAlerts`: push the alerts of every open pothole, then sort. */
  method GenerateAlerts(potholes: seq<Pothole>, now: int) returns (alerts: seq<AlertItem>)
    ensures alerts == SortByRank(RawAlerts(potholes, now))
  {
    var newAlerts: seq<AlertItem> := [];
    var i := 0;
    while i < |potholes|
      invariant 0 <= i <= |potholes|
      invariant newAlerts == RawAlerts(potholes[..i], now)
    {
      assert potholes[..i + 1][..i] == potholes[..i];
      newAlerts := PushAlerts(newAlerts, potholes[i], now);
      i := i + 1;
    }
    assert potholes[..i] == potholes;
    alerts := SortByRank(newAlerts);
  }

  /** The body of the `forEach` in `generateAlerts`: the alerts of one
      pothole pushed in order critical, high priority, overdue. */
  method PushAlerts(newAlerts: seq<AlertItem>, pothole: Pothole, now: int) returns (r: seq<AlertItem>)
    ensures r == newAlerts + PotholeAlerts(pothole, now)
  {
    r := newAlerts;
    if pothole.status != Completed {
      var daysUntilDeadline := GetDaysUntilDeadline(pothole, now);
      if pothole.priority == Some(Critical) {
        r := r + [CriticalItem(pothole, daysUntilDeadline)];
      }
      assert r == newAlerts + CriticalPart(pothole, daysUntilDeadline);
      if pothole.priority == Some(High) && daysUntilDeadline <= 1 {
        r := r + [HighItem(pothole, daysUntilDeadline)];
      }
      assert r == newAlerts + CriticalPart(pothole, daysUntilDeadline)
        + HighPart(pothole, daysUntilDeadline);
      if daysUntilDeadline < 0 {
        r := r + [OverdueItem(pothole, daysUntilDeadline)];
      }
      assert r == newAlerts + CriticalPart(pothole, daysUntilDeadline)
        + HighPart(pothole, daysUntilDeadline) + OverduePart(pothole, daysUntilDeadline);
      AppendAssoc(newAlerts, CriticalPart(pothole, daysUntilDeadline),
        HighPart(pothole, daysUntilDeadline), OverduePart(pothole, daysUntilDeadline));
    }
  }

  /** A pothole raises a critical alert exactly when it is open and
      critical, whatever its age. */
  lemma CriticalAlertIff(p: Pothole, now: int)
    ensures Filter(PotholeAlerts(p, now), IsCriticalAlert)
         == if p.status != Completed && p.priority == Some(Critical)
            then [CriticalItem(p, GetDaysUntilDeadline(p, now))] else []
  {
    if p.status != Completed {
      var days := GetDaysUntilDeadline(p, now);
      FilterAppend3(CriticalPart(p, days), HighPart(p, days), OverduePart(p, days), IsCriticalAlert);
    }
  }

  /** A high-priority pothole raises its alert once two whole days have
      elapsed, one day before its three-day deadline, and not before. */
  lemma HighAlertIff(p: Pothole, now: int)
    ensures Filter(PotholeAlerts(p, now), IsHighPriorityAlert)
         == if p.status != Completed && p.priority == Some(High) && DaysElapsed(p, now) >= 2
            then [HighItem(p, GetDaysUntilDeadline(p, now))] else []
  {
    if p.status != Completed {
      var days := GetDaysUntilDeadline(p, now);
      FilterAppend3(CriticalPart(p, days), HighPart(p, days), OverduePart(p, days), IsHighPriorityAlert);
      if p.priority == Some(High) {
        assert RuleFor(p.priority) == ESCALATION_RULES[1];
      }
    }
  }

  /** A pothole raises an overdue alert exactly when the escalation
      scan would escalate it, and the alert's text then shows the
      scan's days overdue. */
  lemma OverdueAlertIff(p: Pothole, now: int)
    ensures Filter(PotholeAlerts(p, now), IsOverdueAlert)
         == if ShouldEscalate(p, now) then [OverdueItem(p, GetDaysUntilDeadline(p, now))] else []
    ensures ShouldEscalate(p, now) ==>
      OverdueItem(p, GetDaysUntilDeadline(p, now)).daysInfo
      == NatToString(DaysOverdue(p, now)) + " days overdue"
  {
    EscalationThreshold(p, now);
    if p.status != Completed {
      var days := GetDaysUntilDeadline(p, now);
      FilterAppend3(CriticalPart(p, days), HighPart(p, days), OverduePart(p, days), IsOverdueAlert);
    }
  }

  /** Alerts in three blocks of rank 0, 1 and 2 are sorted by rank. */
  lemma BlocksSorted(a: seq<AlertItem>, b: seq<AlertItem>, c: seq<AlertItem>)
    requires forall i :: 0 <= i < |a| ==> Rank(a[i].kind) == 0
    requires forall i :: 0 <= i < |b| ==> Rank(b[i].kind) == 1
    requires forall i :: 0 <= i < |c| ==> Rank(c[i].kind) == 2
    ensures SortedByRank(a + b + c)
  {
    var r := a + b + c;
    forall i | 0 <= i < |r|
      ensures Rank(r[i].kind) == if i < |a| then 0 else if i < |a| + |b| then 1 else 2
    {
      if i < |a| {
        assert r[i] == a[i];
      } else if i < |a| + |b| {
        assert r[i] == b[i - |a|];
      } else {
        assert r[i] == c[i - |a| - |b|];
      }
    }
  }

  /** The sort puts every critical alert before every overdue one and
      every overdue alert before every high-priority one. */
  lemma SortByRankSorted(s: seq<AlertItem>)
    ensures SortedByRank(SortByRank(s))
  {
    FilterSpec(s, IsCriticalAlert);
    FilterSpec(s, IsOverdueAlert);
    FilterSpec(s, IsHighPriorityAlert);
    BlocksSorted(Filter(s, IsCriticalAlert), Filter(s, IsOverdueAlert), Filter(s, IsHighPriorityAlert));
  }

  /** The sort keeps every alert exactly once. */
  lemma {:induction false} SortByRankPermutes(s: seq<AlertItem>)
    ensures multiset(SortByRank(s)) == multiset(s)
  {
    if s != [] {
      var x, t := s[0], s[1..];
      SortByRankPermutes(t);
      assert s == [x] + t;
      FilterCons(x, t, IsCriticalAlert);
      FilterCons(x, t, IsOverdueAlert);
      FilterCons(x, t, IsHighPriorityAlert);
    }
  }

  /** The sort is stable: each kind's alerts keep their relative order. */
  lemma SortByRankStable(s: seq<AlertItem>)
    ensures Filter(SortByRank(s), IsCriticalAlert) == Filter(s, IsCriticalAlert)
    ensures Filter(SortByRank(s), IsOverdueAlert) == Filter(s, IsOverdueAlert)
    ensures Filter(SortByRank(s), IsHighPriorityAlert) == Filter(s, IsHighPriorityAlert)
  {
    var a, b, c := Filter(s, IsCriticalAlert), Filter(s, IsOverdueAlert), Filter(s, IsHighPriorityAlert);
    FilterSpec(s, IsCriticalAlert);
    FilterSpec(s, IsOverdueAlert);
    FilterSpec(s, IsHighPriorityAlert);
    BlockFilter(a, b, c, IsCriticalAlert, 0);
    BlockFilter(a, b, c, IsOverdueAlert, 1);
    BlockFilter(a, b, c, IsHighPriorityAlert, 2);
  }

  /** Filtering three blocks of rank 0, 1 and 2 by one kind picks out
      that kind's block whole. */
  lemma BlockFilter(a: seq<AlertItem>, b: seq<AlertItem>, c: seq<AlertItem>,
                    keep: AlertItem -> bool, rank: nat)
    requires forall i :: 0 <= i < |a| ==> Rank(a[i].kind) == 0
    requires forall i :: 0 <= i < |b| ==> Rank(b[i].kind) == 1
    requires forall i :: 0 <= i < |c| ==> Rank(c[i].kind) == 2
    requires forall x :: keep(x) == (Rank(x.kind) == rank)
    requires rank <= 2
    ensures Filter(a + b + c, keep) == if rank == 0 then a else if rank == 1 then b else c
  {
    FilterAppend3(a, b, c, keep);
    if rank == 0 {
      FilterKeepsAll(a, keep);
      FilterKeepsNone(b, keep);
      FilterKeepsNone(c, keep);
      assert a + [] + [] == a;
    } else if rank == 1 {
      FilterKeepsNone(a, keep);
      FilterKeepsAll(b, keep);
      FilterKeepsNone(c, keep);
      assert [] + b + [] == b;
    } else {
      FilterKeepsNone(a, keep);
      FilterKeepsNone(b, keep);
      FilterKeepsAll(c, keep);
      assert [] + [] + c == c;
    }
  }

  lemma KindFilterFixed(s: seq<AlertItem>, keep: AlertItem -> bool)
    ensures Filter(Filter(s, keep), keep) == Filter(s, keep)
  {
    var f := Filter(s, keep);
    FilterSpec(s, keep);
    forall x | x in f
      ensures keep(x)
    {
      var i :| 0 <= i < |f| && f[i] == x;
    }
    FilterKeepsAll(f, keep);
  }

  /** The tail of a sorted list is sorted and ranks no lower than its head. */
  lemma SortedTail(t: seq<AlertItem>)
    requires t != [] && SortedByRank(t)
    ensures SortedByRank(t[1..])
    ensures forall j :: 0 <= j < |t[1..]| ==> Rank(t[0].kind) <= Rank(t[1..][j].kind)
  {
    var t1 := t[1..];
    forall i, j | 0 <= i < j < |t1|
      ensures Rank(t1[i].kind) <= Rank(t1[j].kind)
    {
      assert t1[i] == t[i + 1] && t1[j] == t[j + 1];
    }
    forall j | 0 <= j < |t1|
      ensures Rank(t[0].kind) <= Rank(t1[j].kind)
    {
      assert t1[j] == t[j + 1];
    }
  }

  /** A list already sorted by rank is left unchanged by the sort. */
  lemma {:induction false} SortedIsFixed(t: seq<AlertItem>)
    requires SortedByRank(t)
    ensures SortByRank(t) == t
  {
    if t != [] {
      var x, t1 := t[0], t[1..];
      SortedTail(t);
      SortedIsFixed(t1);
      assert t == [x] + t1;
      if x.kind == OverdueAlert {
        FilterKeepsNone(t1, IsCriticalAlert);
      } else if x.kind == HighPriorityAlert {
        FilterKeepsNone(t1, IsCriticalAlert);
        FilterKeepsNone(t1, IsOverdueAlert);
      }
      SortByRankCons(x, t1);
    }
  }

  /** An alert put in front of alerts of no lower rank stays in front. */
  lemma SortByRankCons(x: AlertItem, t: seq<AlertItem>)
    requires Rank(x.kind) >= 1 ==> Filter(t, IsCriticalAlert) == []
    requires Rank(x.kind) >= 2 ==> Filter(t, IsOverdueAlert) == []
    ensures SortByRank([x] + t) == [x] + SortByRank(t)
  {
    FilterCons(x, t, IsCriticalAlert);
    FilterCons(x, t, IsOverdueAlert);
    FilterCons(x, t, IsHighPriorityAlert);
    PrependToBlocks(x, Filter(t, IsCriticalAlert), Filter(t, IsOverdueAlert), Filter(t, IsHighPriorityAlert));
  }

  /** The sort's result is the only list sorted by rank that has the
      same alerts of each kind in the same order: what a stable sort by
      `priorityOrder` returns. */
  lemma SortCharacterized(s: seq<AlertItem>, t: seq<AlertItem>)
    requires SortedByRank(t)
    requires Filter(t, IsCriticalAlert) == Filter(s, IsCriticalAlert)
    requires Filter(t, IsOverdueAlert) == Filter(s, IsOverdueAlert)
    requires Filter(t, IsHighPriorityAlert) == Filter(s, IsHighPriorityAlert)
    ensures t == SortByRank(s)
  {
    SortedIsFixed(t);
  }

  function AlertPotholeId(a: AlertItem): string {
    a.potholeId
  }

  function PotholeId(p: Pothole): string {
    p.id
  }

  /** The dashboard's overdue alerts name exactly the potholes that the
      escalation scan escalates, in the same order. */
  lemma {:induction false} OverdueAlertsMatchEscalations(ps: seq<Pothole>, now: int)
    ensures Map(Filter(RawAlerts(ps, now), IsOverdueAlert), AlertPotholeId)
         == Map(Escalated(ps, now), PotholeId)
    decreases |ps|
  {
    if ps != [] {
      var init, last := ps[..|ps| - 1], ps[|ps| - 1];
      assert ps == init + [last];
      OverdueAlertsMatchEscalations(init, now);
      OverdueAlertIff(last, now);
      var front := Filter(RawAlerts(init, now), IsOverdueAlert);
      var lastAlerts := Filter(PotholeAlerts(last, now), IsOverdueAlert);
      assert Map(lastAlerts, AlertPotholeId) == Map(Filter([last], Escalates(now)), PotholeId);
      MapFilterStep(front, lastAlerts, AlertPotholeId, init, last, Escalates(now), PotholeId);
      FilterAppend(RawAlerts(init, now), PotholeAlerts(last, now), IsOverdueAlert);
    }
  }
}
