/** The records of the work-order store: work orders, crews with their
    availability calendar, and the time and cost logs booked against a
    work order. Timestamps are milliseconds; dates that the source keeps
    as `YYYY-MM-DD` strings and only compares for equality stay strings. */
module WorkOrderTypes {
  import opened Common

  datatype WorkOrderStatus = Draft | Assigned | InProgress | Completed | Cancelled

  datatype WorkOrderPriority = Low | Medium | High | Critical

  datatype Material = Material(
    id: string,
    name: string,
    quantity: real,
    unit: string,
    costPerUnit: real,
    totalCost: real)

  datatype Equipment = Equipment(
    id: string,
    name: string,
    hoursUsed: real,
    costPerHour: real,
    totalCost: real)

  datatype WorkOrder = WorkOrder(
    id: string,
    potholeId: string,
    title: string,
    description: string,
    status: WorkOrderStatus,
    priority: WorkOrderPriority,
    createdAt: int,
    updatedAt: int,
    scheduledDate: Option<string>,
    completedDate: Option<string>,
    assignedCrewId: Option<string>,
    estimatedCost: real,
    actualCost: Option<real>,
    estimatedHours: real,
    actualHours: Option<real>,
    materialsUsed: Option<seq<Material>>,
    equipmentUsed: Option<seq<Equipment>>,
    notes: Option<string>)

  /** A `Partial<WorkOrder>`: `Some` for each key the update object has.
      An optional field can be given a value, not removed. */
  datatype WorkOrderPatch = WorkOrderPatch(
    id: Option<string>,
    potholeId: Option<string>,
    title: Option<string>,
    description: Option<string>,
    status: Option<WorkOrderStatus>,
    priority: Option<WorkOrderPriority>,
    createdAt: Option<int>,
    updatedAt: Option<int>,
    scheduledDate: Option<string>,
    completedDate: Option<string>,
    assignedCrewId: Option<string>,
    estimatedCost: Option<real>,
    actualCost: Option<real>,
    estimatedHours: Option<real>,
    actualHours: Option<real>,
    materialsUsed: Option<seq<Material>>,
    equipmentUsed: Option<seq<Equipment>>,
    notes: Option<string>)

  /** `{ ...wo, ...updates }`: every key the patch has overrides the
      work order's. */
  function MergeWorkOrder(wo: WorkOrder, p: WorkOrderPatch): (r: WorkOrder)
    ensures p == EmptyWorkOrderPatch ==> r == wo
    ensures p.id.Some? ==> r.id == p.id.value
    ensures p.id.None? ==> r.id == wo.id
    ensures p.status.Some? ==> r.status == p.status.value
    ensures p.status.None? ==> r.status == wo.status
    ensures p.assignedCrewId.None? ==> r.assignedCrewId == wo.assignedCrewId
  {
    WorkOrder(
      p.id.GetOr(wo.id),
      p.potholeId.GetOr(wo.potholeId),
      p.title.GetOr(wo.title),
      p.description.GetOr(wo.description),
      p.status.GetOr(wo.status),
      p.priority.GetOr(wo.priority),
      p.createdAt.GetOr(wo.createdAt),
      p.updatedAt.GetOr(wo.updatedAt),
      Overriding(wo.scheduledDate, p.scheduledDate),
      Overriding(wo.completedDate, p.completedDate),
      Overriding(wo.assignedCrewId, p.assignedCrewId),
      p.estimatedCost.GetOr(wo.estimatedCost),
      Overriding(wo.actualCost, p.actualCost),
      p.estimatedHours.GetOr(wo.estimatedHours),
      Overriding(wo.actualHours, p.actualHours),
      Overriding(wo.materialsUsed, p.materialsUsed),
      Overriding(wo.equipmentUsed, p.equipmentUsed),
      Overriding(wo.notes, p.notes))
  }

  const EmptyWorkOrderPatch := WorkOrderPatch(None, None, None, None, None, None, None, None, None,
                                              None, None, None, None, None, None, None, None, None)

  datatype CrewStatus = CrewAvailable | CrewAssigned | OnLeave

  /** One day of a crew's calendar. */
  datatype CrewAvailability = CrewAvailability(date: string, available: bool, reason: Option<string>)

  datatype Crew = Crew(
    id: string,
    name: string,
    members: seq<string>,
    supervisor: string,
    specializations: seq<string>,
    availability: seq<CrewAvailability>,
    status: CrewStatus,
    currentWorkOrderId: Option<string>)

  /** A `Partial<Crew>`. */
  datatype CrewPatch = CrewPatch(
    id: Option<string>,
    name: Option<string>,
    members: Option<seq<string>>,
    supervisor: Option<string>,
    specializations: Option<seq<string>>,
    availability: Option<seq<CrewAvailability>>,
    status: Option<CrewStatus>,
    currentWorkOrderId: Option<string>)

  /** `{ ...crew, ...updates }`. */
  function MergeCrew(c: Crew, p: CrewPatch): (r: Crew)
    ensures p == CrewPatch(None, None, None, None, None, None, None, None) ==> r == c
    ensures p.id.Some? ==> r.id == p.id.value
    ensures p.id.None? ==> r.id == c.id
    ensures p.status.None? ==> r.status == c.status
    ensures p.availability.None? ==> r.availability == c.availability
  {
    Crew(
      p.id.GetOr(c.id),
      p.name.GetOr(c.name),
      p.members.GetOr(c.members),
      p.supervisor.GetOr(c.supervisor),
      p.specializations.GetOr(c.specializations),
      p.availability.GetOr(c.availability),
      p.status.GetOr(c.status),
      Overriding(c.currentWorkOrderId, p.currentWorkOrderId))
  }

  datatype TimeLog = TimeLog(
    id: string,
    workOrderId: string,
    crewId: string,
    date: string,
    hoursWorked: real,
    description: string,
    createdBy: string)

  datatype CostType = MaterialCost | EquipmentCost | LaborCost | OtherCost

  datatype CostLog = CostLog(
    id: string,
    workOrderId: string,
    kind: CostType,
    description: string,
    amount: real,
    date: string,
    createdBy: string)
}
