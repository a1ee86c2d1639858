/** The work-order store: work orders, crews, and the time and cost logs,
    each a list that every action replaces. The getters take the list they
    read as a parameter. Persistence to browser storage is not part of the
    model; the clock is the parameter `now`. */
module WorkOrderStore {
  import opened Common
  import opened Seqs
  import opened WorkOrderTypes

  // ---------------------------------------------------------------
  // Work orders
  // ---------------------------------------------------------------

  function UpdatedIf(id: string, updates: WorkOrderPatch, now: int): WorkOrder -> WorkOrder {
    (wo: WorkOrder) => if wo.id == id then MergeWorkOrder(wo, updates).(updatedAt := now) else wo
  }

  /** The list after `updateWorkOrder(id, updates)` at time `now`: the
      entries with that id take the updates and the new time stamp, the
      others stay as they are, in place. */
  function UpdateWorkOrders(s: seq<WorkOrder>, id: string, updates: WorkOrderPatch, now: int)
    : (r: seq<WorkOrder>)
    ensures |r| == |s|
    ensures forall i :: 0 <= i < |s| && s[i].id != id ==> r[i] == s[i]
    ensures forall i :: 0 <= i < |s| && s[i].id == id ==>
      r[i] == MergeWorkOrder(s[i], updates).(updatedAt := now)
  {
    Map(s, UpdatedIf(id, updates, now))
  }

  function WorkOrderIdIsNot(id: string): WorkOrder -> bool {
    (wo: WorkOrder) => wo.id != id
  }

  /** The list after `deleteWorkOrder(id)`: every entry with another id,
      in order, and none with this one. */
  function DeleteWorkOrders(s: seq<WorkOrder>, id: string): (r: seq<WorkOrder>)
    ensures IsSubsequence(r, s)
    ensures forall i :: 0 <= i < |r| ==> r[i].id != id
    ensures forall i :: 0 <= i < |s| && s[i].id != id ==> s[i] in r
    ensures forall x :: multiset(r)[x] == if x.id != id then multiset(s)[x] else 0
  {
    FilterSpec(s, WorkOrderIdIsNot(id));
    FilterMultiset(s, WorkOrderIdIsNot(id));
    Filter(s, WorkOrderIdIsNot(id))
  }

  function WorkOrderIdIs(id: string): WorkOrder -> bool {
    (wo: WorkOrder) => wo.id == id
  }

  /** `getWorkOrderById(id)`: the first entry with that id, if any. */
  function GetWorkOrderById(s: seq<WorkOrder>, id: string): (r: Option<WorkOrder>)
    ensures r.None? <==> forall i :: 0 <= i < |s| ==> s[i].id != id
    ensures r.Some? ==> r.value.id == id
    ensures r.Some? ==>
      exists k :: 0 <= k < |s| && s[k] == r.value && forall j :: 0 <= j < k ==> s[j].id != id
  {
    var k := FirstIndex(s, WorkOrderIdIs(id));
    assert k < |s| ==> forall j :: 0 <= j < k ==> s[j].id != id;
    Find(s, WorkOrderIdIs(id))
  }

  function HasStatus(status: WorkOrderStatus): WorkOrder -> bool {
    (wo: WorkOrder) => wo.status == status
  }

  /** `getWorkOrdersByStatus(status)`: the entries with that status, in
      list order. */
  function GetWorkOrdersByStatus(s: seq<WorkOrder>, status: WorkOrderStatus): (r: seq<WorkOrder>)
    ensures IsSubsequence(r, s)
    ensures forall i :: 0 <= i < |r| ==> r[i].status == status
    ensures forall i :: 0 <= i < |s| && s[i].status == status ==> s[i] in r
    ensures forall x :: multiset(r)[x] == if x.status == status then multiset(s)[x] else 0
  {
    FilterSpec(s, HasStatus(status));
    FilterMultiset(s, HasStatus(status));
    Filter(s, HasStatus(status))
  }

  function AssignedTo(crewId: string): WorkOrder -> bool {
    (wo: WorkOrder) => wo.assignedCrewId == Some(crewId)
  }

  /** `getWorkOrdersByCrew(crewId)`: the entries assigned to that crew,
      in list order; an unassigned entry never matches. */
  function GetWorkOrdersByCrew(s: seq<WorkOrder>, crewId: string): (r: seq<WorkOrder>)
    ensures IsSubsequence(r, s)
    ensures forall i :: 0 <= i < |r| ==> r[i].assignedCrewId == Some(crewId)
    ensures forall i :: 0 <= i < |s| && s[i].assignedCrewId == Some(crewId) ==> s[i] in r
    ensures forall x ::
      multiset(r)[x] == if x.assignedCrewId == Some(crewId) then multiset(s)[x] else 0
  {
    FilterSpec(s, AssignedTo(crewId));
    FilterMultiset(s, AssignedTo(crewId));
    Filter(s, AssignedTo(crewId))
  }

  // ---------------------------------------------------------------
  // Crews
  // ---------------------------------------------------------------

  function CrewUpdatedIf(id: string, updates: CrewPatch): Crew -> Crew {
    (c: Crew) => if c.id == id then MergeCrew(c, updates) else c
  }

  /** The crews after `updateCrew(id, updates)`: only the crews with that
      id change, and the list keeps its length and order. */
  function UpdateCrews(crews: seq<Crew>, id: string, updates: CrewPatch): (r: seq<Crew>)
    ensures |r| == |crews|
    ensures forall i :: 0 <= i < |crews| && crews[i].id != id ==> r[i] == crews[i]
    ensures forall i :: 0 <= i < |crews| && crews[i].id == id ==> r[i] == MergeCrew(crews[i], updates)
  {
    Map(crews, CrewUpdatedIf(id, updates))
  }

  function OnDate(date: string): CrewAvailability -> bool {
    (a: CrewAvailability) => a.date == date
  }

  /** The test of `getAvailableCrews(date)` for one crew: its status is
      available, and the first calendar entry for that date, if there is
      one, says available. */
  predicate IsAvailableOn(c: Crew, date: string) {
    && c.status == CrewAvailable
    && var entry := Find(c.availability, OnDate(date));
       entry.None? || entry.value.available
  }

  function AvailableOn(date: string): Crew -> bool {
    (c: Crew) => IsAvailableOn(c, date)
  }

  /** `getAvailableCrews(date)`: the crews available on that date, in
      list order. */
  function GetAvailableCrews(crews: seq<Crew>, date: string): (r: seq<Crew>)
    ensures IsSubsequence(r, crews)
    ensures forall i :: 0 <= i < |r| ==> IsAvailableOn(r[i], date)
    ensures forall i :: 0 <= i < |crews| && IsAvailableOn(crews[i], date) ==> crews[i] in r
    ensures forall x :: multiset(r)[x] == if IsAvailableOn(x, date) then multiset(crews)[x] else 0
  {
    FilterSpec(crews, AvailableOn(date));
    FilterMultiset(crews, AvailableOn(date));
    Filter(crews, AvailableOn(date))
  }

  // ---------------------------------------------------------------
  // Crew assignment
  // ---------------------------------------------------------------

  function AssignedOrderIf(workOrderId: string, crewId: string, now: int): WorkOrder -> WorkOrder {
    (wo: WorkOrder) =>
      if wo.id == workOrderId
      then wo.(assignedCrewId := Some(crewId), status := Assigned, updatedAt := now)
      else wo
  }

  /** The work orders after `assignCrewToWorkOrder(workOrderId, crewId)`:
      the matching entries name the crew, are assigned and carry the new
      time stamp; nothing else changes. */
  function AssignOrders(s: seq<WorkOrder>, workOrderId: string, crewId: string, now: int)
    : (r: seq<WorkOrder>)
    ensures |r| == |s|
    ensures forall i :: 0 <= i < |s| && s[i].id != workOrderId ==> r[i] == s[i]
    ensures forall i :: 0 <= i < |s| && s[i].id == workOrderId ==>
      && r[i].assignedCrewId == Some(crewId) && r[i].status == Assigned && r[i].updatedAt == now
      && r[i] == s[i].(assignedCrewId := r[i].assignedCrewId, status := r[i].status, updatedAt := now)
  {
    Map(s, AssignedOrderIf(workOrderId, crewId, now))
  }

  function AssignedCrewIf(crewId: string, workOrderId: string): Crew -> Crew {
    (c: Crew) =>
      if c.id == crewId then c.(status := CrewAssigned, currentWorkOrderId := Some(workOrderId)) else c
  }

  /** The crews after the same assignment: the matching crews are
      assigned and point at the work order; nothing else changes. */
  function AssignCrews(crews: seq<Crew>, crewId: string, workOrderId: string): (r: seq<Crew>)
    ensures |r| == |crews|
    ensures forall i :: 0 <= i < |crews| && crews[i].id != crewId ==> r[i] == crews[i]
    ensures forall i :: 0 <= i < |crews| && crews[i].id == crewId ==>
      && r[i].status == CrewAssigned && r[i].currentWorkOrderId == Some(workOrderId)
      && r[i] == crews[i].(status := r[i].status, currentWorkOrderId := r[i].currentWorkOrderId)
  {
    Map(crews, AssignedCrewIf(crewId, workOrderId))
  }

  // ---------------------------------------------------------------
  // Time and cost logs
  // ---------------------------------------------------------------

  function TimeLogFor(workOrderId: string): TimeLog -> bool {
    (log: TimeLog) => log.workOrderId == workOrderId
  }

  /** `getTimeLogsByWorkOrder(workOrderId)`. */
  function GetTimeLogsByWorkOrder(logs: seq<TimeLog>, workOrderId: string): (r: seq<TimeLog>)
    ensures IsSubsequence(r, logs)
    ensures forall i :: 0 <= i < |r| ==> r[i].workOrderId == workOrderId
    ensures forall i :: 0 <= i < |logs| && logs[i].workOrderId == workOrderId ==> logs[i] in r
    ensures forall x ::
      multiset(r)[x] == if x.workOrderId == workOrderId then multiset(logs)[x] else 0
  {
    FilterSpec(logs, TimeLogFor(workOrderId));
    FilterMultiset(logs, TimeLogFor(workOrderId));
    Filter(logs, TimeLogFor(workOrderId))
  }

  function CostLogFor(workOrderId: string): CostLog -> bool {
    (log: CostLog) => log.workOrderId == workOrderId
  }

  /** `getCostLogsByWorkOrder(workOrderId)`. */
  function GetCostLogsByWorkOrder(logs: seq<CostLog>, workOrderId: string): (r: seq<CostLog>)
    ensures IsSubsequence(r, logs)
    ensures forall i :: 0 <= i < |r| ==> r[i].workOrderId == workOrderId
    ensures forall i :: 0 <= i < |logs| && logs[i].workOrderId == workOrderId ==> logs[i] in r
    ensures forall x ::
      multiset(r)[x] == if x.workOrderId == workOrderId then multiset(logs)[x] else 0
  {
    FilterSpec(logs, CostLogFor(workOrderId));
    FilterMultiset(logs, CostLogFor(workOrderId));
    Filter(logs, CostLogFor(workOrderId))
  }

  /** `logs.reduce((sum, log) => sum + log.amount, 0)`, added from the
      left. */
  function SumAmounts(logs: seq<CostLog>): real {
    if logs == [] then 0.0 else SumAmounts(logs[..|logs| - 1]) + logs[|logs| - 1].amount
  }

  /** `getTotalCost(workOrderId)`: the sum of the amounts booked against
      the work order, 0 when there are none. */
  function GetTotalCost(logs: seq<CostLog>, workOrderId: string): (total: real)
    ensures (forall i :: 0 <= i < |logs| ==> logs[i].workOrderId != workOrderId) ==> total == 0.0
  {
    var mine := Filter(logs, CostLogFor(workOrderId));
    FilterKeepsNoneIf(logs, CostLogFor(workOrderId));
    SumAmounts(mine)
  }

  lemma FilterKeepsNoneIf(logs: seq<CostLog>, keep: CostLog -> bool)
    ensures (forall i :: 0 <= i < |logs| ==> !keep(logs[i])) ==> Filter(logs, keep) == []
  {
    if forall i :: 0 <= i < |logs| ==> !keep(logs[i]) {
      FilterKeepsNone(logs, keep);
    }
  }

  // ---------------------------------------------------------------
  // The store
  // ---------------------------------------------------------------

  class Store {
    var workOrders: seq<WorkOrder>
    var crews: seq<Crew>
    var timeLogs: seq<TimeLog>
    var costLogs: seq<CostLog>

    constructor ()
      ensures workOrders == [] && crews == [] && timeLogs == [] && costLogs == []
    {
      workOrders := [];
      crews := [];
      timeLogs := [];
      costLogs := [];
    }

    /** `addWorkOrder`: appended at the end. */
    method AddWorkOrder(workOrder: WorkOrder)
      modifies this`workOrders
      ensures workOrders == old(workOrders) + [workOrder]
    {
      workOrders := workOrders + [workOrder];
    }

    /** `updateWorkOrder(id, updates)`, at time `now`. */
    method UpdateWorkOrder(id: string, updates: WorkOrderPatch, now: int)
      modifies this`workOrders
      ensures workOrders == UpdateWorkOrders(old(workOrders), id, updates, now)
    {
      workOrders := Map(workOrders, UpdatedIf(id, updates, now));
    }

    /** `deleteWorkOrder(id)`. */
    method DeleteWorkOrder(id: string)
      modifies this`workOrders
      ensures workOrders == DeleteWorkOrders(old(workOrders), id)
    {
      workOrders := Filter(workOrders, WorkOrderIdIsNot(id));
    }

    /** `addCrew`: appended at the end. */
    method AddCrew(crew: Crew)
      modifies this`crews
      ensures crews == old(crews) + [crew]
    {
      crews := crews + [crew];
    }

    /** `updateCrew(id, updates)`. */
    method UpdateCrew(id: string, updates: CrewPatch)
      modifies this`crews
      ensures crews == UpdateCrews(old(crews), id, updates)
    {
      crews := Map(crews, CrewUpdatedIf(id, updates));
    }

    /** `assignCrewToWorkOrder(workOrderId, crewId)`, at time `now`: one
        update of both lists. */
    method AssignCrewToWorkOrder(workOrderId: string, crewId: string, now: int)
      modifies this`workOrders, this`crews
      ensures workOrders == AssignOrders(old(workOrders), workOrderId, crewId, now)
      ensures crews == AssignCrews(old(crews), crewId, workOrderId)
    {
      workOrders := Map(workOrders, AssignedOrderIf(workOrderId, crewId, now));
      crews := Map(crews, AssignedCrewIf(crewId, workOrderId));
    }

    /** `addTimeLog`: appended at the end. */
    method AddTimeLog(timeLog: TimeLog)
      modifies this`timeLogs
      ensures timeLogs == old(timeLogs) + [timeLog]
    {
      timeLogs := timeLogs + [timeLog];
    }

    /** `addCostLog`: appended at the end. */
    method AddCostLog(costLog: CostLog)
      modifies this`costLogs
      ensures costLogs == old(costLogs) + [costLog]
    {
      costLogs := costLogs + [costLog];
    }
  }

  // ---------------------------------------------------------------
  // Properties
  // ---------------------------------------------------------------

  /** An id that no work order has: updating, deleting and assigning
      change nothing, and the lookup finds nothing. */
  lemma UnknownWorkOrderIdIsNoop(s: seq<WorkOrder>, id: string, updates: WorkOrderPatch,
                                 crewId: string, now: int)
    requires forall i :: 0 <= i < |s| ==> s[i].id != id
    ensures UpdateWorkOrders(s, id, updates, now) == s
    ensures DeleteWorkOrders(s, id) == s
    ensures AssignOrders(s, id, crewId, now) == s
    ensures GetWorkOrderById(s, id) == None
  {
    FilterKeepsAll(s, WorkOrderIdIsNot(id));
  }

  /** A crew id that no crew has: updating and assigning change nothing. */
  lemma UnknownCrewIdIsNoop(crews: seq<Crew>, id: string, updates: CrewPatch, workOrderId: string)
    requires forall i :: 0 <= i < |crews| ==> crews[i].id != id
    ensures UpdateCrews(crews, id, updates) == crews
    ensures AssignCrews(crews, id, workOrderId) == crews
  {
  }

  /** The same update twice at the same time is the update once. A patch
      that renames the entry makes the second update miss it, which
      leaves it as the first update made it. */
  lemma UpdateWorkOrderIdempotent(s: seq<WorkOrder>, id: string, updates: WorkOrderPatch, now: int)
    ensures UpdateWorkOrders(UpdateWorkOrders(s, id, updates, now), id, updates, now)
         == UpdateWorkOrders(s, id, updates, now)
  {
    var once := UpdateWorkOrders(s, id, updates, now);
    var twice := UpdateWorkOrders(once, id, updates, now);
    forall i | 0 <= i < |s|
      ensures twice[i] == once[i]
    {
      if s[i].id == id {
        MergeWorkOrderTwice(s[i], updates, now);
      }
    }
  }

  /** Merging the same patch again, at the same time, changes nothing. */
  lemma MergeWorkOrderTwice(wo: WorkOrder, updates: WorkOrderPatch, now: int)
    ensures var once := MergeWorkOrder(wo, updates).(updatedAt := now);
      MergeWorkOrder(once, updates).(updatedAt := now) == once
  {
  }

  /** After an append the lookup still finds the first entry with the
      id, so a second work order with a known id is never returned. */
  lemma GetByIdAfterAdd(s: seq<WorkOrder>, wo: WorkOrder, id: string)
    ensures GetWorkOrderById(s + [wo], id)
         == if GetWorkOrderById(s, id).Some? then GetWorkOrderById(s, id)
            else if wo.id == id then Some(wo) else None
  {
    FindAppend(s, [wo], WorkOrderIdIs(id));
  }

  /** After a delete the lookup of that id finds nothing. */
  lemma GetByIdAfterDelete(s: seq<WorkOrder>, id: string)
    ensures GetWorkOrderById(DeleteWorkOrders(s, id), id) == None
  {
  }

  /** An appended work order joins the end of its status query and of
      the query of the crew it names. */
  lemma QueriesAfterAdd(s: seq<WorkOrder>, wo: WorkOrder, status: WorkOrderStatus, crewId: string)
    ensures GetWorkOrdersByStatus(s + [wo], status)
         == GetWorkOrdersByStatus(s, status) + (if wo.status == status then [wo] else [])
    ensures GetWorkOrdersByCrew(s + [wo], crewId)
         == GetWorkOrdersByCrew(s, crewId) + (if wo.assignedCrewId == Some(crewId) then [wo] else [])
  {
    FilterSnoc(s, wo, HasStatus(status));
    FilterSnoc(s, wo, AssignedTo(crewId));
  }

  /** `getAvailableCrews` uses the FIRST calendar entry for the date: a
      crew with an available status is listed exactly when every entry
      for the date that has no earlier entry for the date says available. */
  lemma AvailableOnFirstEntry(c: Crew, date: string)
    ensures IsAvailableOn(c, date) <==>
      && c.status == CrewAvailable
      && forall j :: 0 <= j < |c.availability| && c.availability[j].date == date
           && (forall k :: 0 <= k < j ==> c.availability[k].date != date)
           ==> c.availability[j].available
  {
    var av := c.availability;
    var first := FirstIndex(av, OnDate(date));
    forall j | 0 <= j < |av| && av[j].date == date && (forall k :: 0 <= k < j ==> av[k].date != date)
      ensures j == first
    {
    }
  }

  /** A calendar that first says unavailable and later available for the
      same date leaves the crew unavailable on it. */
  lemma FirstEntryWins(c: Crew, date: string, later: nat)
    requires c.status == CrewAvailable
    requires 0 < later < |c.availability|
    requires c.availability[0].date == date && !c.availability[0].available
    requires c.availability[later].date == date && c.availability[later].available
    ensures !IsAvailableOn(c, date)
  {
    AvailableOnFirstEntry(c, date);
  }

  /** After an assignment, the crew is no longer offered as available on
      any date, and every work order with the id is found under the
      crew's query with status assigned. */
  lemma AssignmentLinksBothSides(s: seq<WorkOrder>, crews: seq<Crew>, workOrderId: string,
                                 crewId: string, date: string, now: int)
    ensures forall c :: c in GetAvailableCrews(AssignCrews(crews, crewId, workOrderId), date) ==>
      c.id != crewId
    ensures var orders := AssignOrders(s, workOrderId, crewId, now);
      forall i :: 0 <= i < |orders| && orders[i].id == workOrderId ==>
        orders[i] in GetWorkOrdersByCrew(orders, crewId) && orders[i].status == Assigned
  {
    var afterAssign := AssignCrews(crews, crewId, workOrderId);
    FilterMembers(afterAssign, AvailableOn(date));
    forall c | c in GetAvailableCrews(afterAssign, date)
      ensures c.id != crewId
    {
      var j :| 0 <= j < |afterAssign| && afterAssign[j] == c;
    }
    var orders := AssignOrders(s, workOrderId, crewId, now);
    forall i | 0 <= i < |orders| && orders[i].id == workOrderId
      ensures orders[i].assignedCrewId == Some(crewId) && orders[i].status == Assigned
    {
      assert s[i].id == workOrderId;
    }
  }

  lemma {:induction false} SumAmountsAppend(a: seq<CostLog>, b: seq<CostLog>)
    ensures SumAmounts(a + b) == SumAmounts(a) + SumAmounts(b)
    decreases |b|
  {
    if b == [] {
      assert a + b == a;
    } else {
      var n := |b| - 1;
      assert (a + b)[..|a + b| - 1] == a + b[..n];
      SumAmountsAppend(a, b[..n]);
    }
  }

  /** A cost log adds its amount to the total of its own work order and
      to no other. */
  lemma TotalCostAfterAdd(logs: seq<CostLog>, log: CostLog, workOrderId: string)
    ensures GetTotalCost(logs + [log], workOrderId)
         == GetTotalCost(logs, workOrderId) + (if log.workOrderId == workOrderId then log.amount else 0.0)
  {
    var keep := CostLogFor(workOrderId);
    FilterAppend(logs, [log], keep);
    SumAmountsAppend(Filter(logs, keep), Filter([log], keep));
    assert SumAmounts([log]) == log.amount by {
      assert [log][..0] == [];
    }
  }

  lemma {:induction false} SumAmountsNonNegative(logs: seq<CostLog>)
    requires forall log :: log in logs ==> log.amount >= 0.0
    ensures SumAmounts(logs) >= 0.0
  {
    if logs != [] {
      var n := |logs| - 1;
      assert forall log :: log in logs[..n] ==> log in logs;
      SumAmountsNonNegative(logs[..n]);
    }
  }

  /** With no negative amount booked, no total is negative. */
  lemma TotalCostNonNegative(logs: seq<CostLog>, workOrderId: string)
    requires forall log :: log in logs ==> log.amount >= 0.0
    ensures GetTotalCost(logs, workOrderId) >= 0.0
  {
    FilterMembers(logs, CostLogFor(workOrderId));
    SumAmountsNonNegative(Filter(logs, CostLogFor(workOrderId)));
  }
}
