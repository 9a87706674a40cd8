/** The work-order application's records: work orders with their two approval
    tracks and work record, the photos attached to them and the parts they used. */
module WorkOrderModels {
  import opened Common

  /** The six status choices of a work order; a closed set, so a status is always one of them. */
  datatype WorkOrderStatus = AwaitingApproval | Open | InProgress | OnHold | Completed | Closed

  /** A work order created without explicit values awaits approval, at priority 3. */
  const DefaultWorkOrderStatus: WorkOrderStatus := AwaitingApproval
  const DefaultPriority: int := 3

  /** The code stored in the database for each status choice. */
  function WorkOrderStatusCode(s: WorkOrderStatus): string
  {
    match s
    case AwaitingApproval => "awaiting_approval"
    case Open => "open"
    case InProgress => "in_progress"
    case OnHold => "on_hold"
    case Completed => "completed"
    case Closed => "closed"
  }

  /** Reads a stored status code back; exactly the six choice codes are accepted. */
  function ParseWorkOrderStatus(code: string): (r: Option<WorkOrderStatus>)
    ensures r.Some? <==> code in {"awaiting_approval", "open", "in_progress", "on_hold", "completed", "closed"}
    ensures r.Some? ==> WorkOrderStatusCode(r.value) == code
  {
    if code == "awaiting_approval" then Some(AwaitingApproval)
    else if code == "open" then Some(Open)
    else if code == "in_progress" then Some(InProgress)
    else if code == "on_hold" then Some(OnHold)
    else if code == "completed" then Some(Completed)
    else if code == "closed" then Some(Closed)
    else None
  }

  lemma ParseWorkOrderStatusCode(s: WorkOrderStatus)
    ensures ParseWorkOrderStatus(WorkOrderStatusCode(s)) == Some(s)
  {
  }

  /** The two independent sign-offs a work order needs before work may start. */
  datatype Track = Maintenance | Production

  /** A maintenance task on an asset. Each approval track is a pair of nullable
      columns, the approver and the time of approval. */
  datatype WorkOrder = WorkOrder(
    title: string,
    description: Option<string>,
    asset: AssetId,
    assignedTo: Option<UserId>,
    status: WorkOrderStatus,
    priority: int,
    completedAt: Option<Time>,
    ticket: Option<TicketId>,
    maintenanceApprover: Option<UserId>,
    maintenanceApprovedAt: Option<Time>,
    productionApprover: Option<UserId>,
    productionApprovedAt: Option<Time>,
    rootCause: Option<string>,
    actionTaken: Option<string>,
    actualStartAt: Option<Time>,
    nextOsRecommendation: Option<string>)

  /** A work order with only its required columns given: every other column takes
      the model's default (status awaiting approval, priority 3, everything else null). */
  function Blank(title: string, description: Option<string>, asset: AssetId): (r: WorkOrder)
    ensures r.title == title && r.description == description && r.asset == asset
    ensures r.status == AwaitingApproval && r.priority == 3
    ensures r.assignedTo.None? && r.ticket.None? && r.completedAt.None? && r.actualStartAt.None?
    ensures r.maintenanceApprover.None? && r.maintenanceApprovedAt.None?
    ensures r.productionApprover.None? && r.productionApprovedAt.None?
    ensures r.rootCause.None? && r.actionTaken.None? && r.nextOsRecommendation.None?
  {
    WorkOrder(title, description, asset, None, DefaultWorkOrderStatus, DefaultPriority, None, None,
              None, None, None, None, None, None, None, None)
  }

  function Approver(wo: WorkOrder, track: Track): Option<UserId>
  {
    match track
    case Maintenance => wo.maintenanceApprover
    case Production => wo.productionApprover
  }

  function ApprovedAt(wo: WorkOrder, track: Track): Option<Time>
  {
    match track
    case Maintenance => wo.maintenanceApprovedAt
    case Production => wo.productionApprovedAt
  }

  /** Both approval times are recorded: the condition for releasing a work order. */
  predicate FullyApproved(wo: WorkOrder)
  {
    wo.maintenanceApprovedAt.Some? && wo.productionApprovedAt.Some?
  }

  /** A photo attached to a work order: a reference to the uploaded image. */
  datatype WorkOrderPhoto = WorkOrderPhoto(
    workOrder: WorkOrderId,
    photo: PhotoBlob,
    uploadedBy: UserId,
    description: Option<string>)

  /** The junction row recording how many of a part a work order used. */
  datatype WorkOrderPart = WorkOrderPart(workOrder: WorkOrderId, part: PartId, quantityUsed: int)
}
