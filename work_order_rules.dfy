/** The work-order state machine of the work-order service, one function per
    transition: creation from a ticket (straight into `on_hold`), the two approval
    tracks with their release gate, starting work and completing it. Each function
    checks its guards in the source's order and either raises or returns the updated
    record; the store's methods are proved to behave exactly as these functions say. */
module WorkOrderRules {
  import opened Common
  import opened CoreModels
  import TicketModels
  import opened WorkOrderModels
  import opened Completion

  /** Tickets that are resolved or closed can no longer get a work order. */
  predicate Finished(s: TicketModels.TicketStatus)
  {
    s == TicketModels.Resolved || s == TicketModels.Closed
  }

  /** No approval column is set on either track. */
  predicate Unapproved(wo: WorkOrder)
  {
    wo.maintenanceApprover.None? && wo.maintenanceApprovedAt.None?
    && wo.productionApprover.None? && wo.productionApprovedAt.None?
  }

  /** Creating a work order for ticket `tid`. `alreadyLinked` says whether some work
      order already references the ticket; that is checked first, then the ticket's
      status, then the database's demand for an asset. The new work order copies the
      ticket's title, description and asset, links the ticket, and waits on hold at
      priority 3 with nothing approved, assigned or recorded yet. */
  function FromTicket(tid: TicketId, t: TicketModels.Ticket, alreadyLinked: bool): (r: Result<WorkOrder>)
    ensures alreadyLinked ==> r == Failure(ValueError(WorkOrderAlreadyExists))
    ensures !alreadyLinked && Finished(t.status) ==> r == Failure(ValueError(TicketAlreadyFinished))
    ensures (!alreadyLinked && !Finished(t.status) && t.asset.None?) ==> r == Failure(IntegrityError(AssetRequired))
    ensures r.Success? <==> !alreadyLinked && !Finished(t.status) && t.asset.Some?
    ensures r.Success? ==> r.value.title == t.title && r.value.description == Some(t.description)
    ensures r.Success? ==> t.asset == Some(r.value.asset) && r.value.ticket == Some(tid)
    ensures r.Success? ==> r.value.status == OnHold && r.value.priority == 3
    ensures r.Success? ==> Unapproved(r.value) && r.value.assignedTo.None?
    ensures r.Success? ==> r.value.actualStartAt.None? && r.value.completedAt.None?
  {
    if alreadyLinked then Failure(ValueError(WorkOrderAlreadyExists))
    else if Finished(t.status) then Failure(ValueError(TicketAlreadyFinished))
    else if t.asset.None? then Failure(IntegrityError(AssetRequired))
    else Success(Blank(t.title, Some(t.description), t.asset.value).(ticket := Some(tid), status := OnHold, priority := 3))
  }

  function OtherTrack(track: Track): Track
  {
    match track
    case Maintenance => Production
    case Production => Maintenance
  }

  function AlreadyApproved(track: Track): Problem
  {
    match track
    case Maintenance => MaintenanceAlreadyApproved
    case Production => ProductionAlreadyApproved
  }

  /** `b` differs from `a` at most in its status and its approval columns. */
  predicate SameExceptApprovals(a: WorkOrder, b: WorkOrder)
  {
    b.(status := a.status,
       maintenanceApprover := a.maintenanceApprover, maintenanceApprovedAt := a.maintenanceApprovedAt,
       productionApprover := a.productionApprover, productionApprovedAt := a.productionApprovedAt) == a
  }

  /** The shared approval procedure. A role other than manager or admin is refused
      first, then a work order that is not on hold, then a track that already has an
      approver; so a second approval on a track never replaces the first. On success
      only the named track's approver and time are set, and the work order is
      released (open) exactly when both approval times are now recorded; otherwise
      it stays on hold. */
  function Approve(wo: WorkOrder, approver: User, track: Track, now: Time): (r: Result<WorkOrder>)
    ensures !IsManagerOrAdmin(approver.role) ==> r == Failure(PermissionError(ApprovalNotAllowed))
    ensures (IsManagerOrAdmin(approver.role) && wo.status != OnHold) ==> r == Failure(ValueError(NotOnHold))
    ensures (IsManagerOrAdmin(approver.role) && wo.status == OnHold && Approver(wo, track).Some?)
      ==> r == Failure(ValueError(AlreadyApproved(track)))
    ensures r.Success? <==> IsManagerOrAdmin(approver.role) && wo.status == OnHold && Approver(wo, track).None?
    ensures r.Success? ==> Approver(r.value, track) == Some(approver.id) && ApprovedAt(r.value, track) == Some(now)
    ensures r.Success? ==> Approver(r.value, OtherTrack(track)) == Approver(wo, OtherTrack(track))
    ensures r.Success? ==> ApprovedAt(r.value, OtherTrack(track)) == ApprovedAt(wo, OtherTrack(track))
    ensures r.Success? ==> (r.value.status == Open <==> FullyApproved(r.value))
    ensures r.Success? ==> (r.value.status == Open || r.value.status == OnHold)
    ensures r.Success? ==> SameExceptApprovals(wo, r.value)
  {
    if !IsManagerOrAdmin(approver.role) then Failure(PermissionError(ApprovalNotAllowed))
    else if wo.status != OnHold then Failure(ValueError(NotOnHold))
    else if Approver(wo, track).Some? then Failure(ValueError(AlreadyApproved(track)))
    else
      var signed := match track
        case Maintenance => wo.(maintenanceApprover := Some(approver.id), maintenanceApprovedAt := Some(now))
        case Production => wo.(productionApprover := Some(approver.id), productionApprovedAt := Some(now));
      Success(if FullyApproved(signed) then signed.(status := Open) else signed)
  }

  /** Who may start or complete a work order: its assignee, or any manager or admin. */
  predicate MayExecute(wo: WorkOrder, user: User)
  {
    wo.assignedTo == Some(user.id) || IsManagerOrAdmin(user.role)
  }

  /** Starting work: only an open work order (checked first), only by someone who may
      execute it; it becomes in progress with its start time recorded, and nothing
      else changes. */
  function Start(wo: WorkOrder, user: User, now: Time): (r: Result<WorkOrder>)
    ensures wo.status != Open ==> r == Failure(ValueError(CannotStart))
    ensures (wo.status == Open && !MayExecute(wo, user)) ==> r == Failure(PermissionError(NotAssignedTechnician))
    ensures r.Success? <==> wo.status == Open && MayExecute(wo, user)
    ensures r.Success? ==> r.value.status == InProgress && r.value.actualStartAt == Some(now)
    ensures r.Success? ==> r.value.(status := wo.status, actualStartAt := wo.actualStartAt) == wo
  {
    if wo.status != Open then Failure(ValueError(CannotStart))
    else if !MayExecute(wo, user) then Failure(PermissionError(NotAssignedTechnician))
    else Success(wo.(status := InProgress, actualStartAt := Some(now)))
  }

  /** Completing work, as far as the work order's own columns go: only a work order in
      progress (checked first), only by someone who may execute it; it becomes
      completed with its completion time and the three texts from the submitted data,
      and nothing else changes. */
  function Complete(wo: WorkOrder, data: CompletionData, user: User, now: Time): (r: Result<WorkOrder>)
    ensures wo.status != InProgress ==> r == Failure(ValueError(CannotComplete))
    ensures (wo.status == InProgress && !MayExecute(wo, user)) ==> r == Failure(PermissionError(CompletionNotAllowed))
    ensures r.Success? <==> wo.status == InProgress && MayExecute(wo, user)
    ensures r.Success? ==> r.value.status == Completed && r.value.completedAt == Some(now)
    ensures r.Success? ==> r.value.rootCause == data.rootCause && r.value.actionTaken == data.actionTaken
    ensures r.Success? ==> r.value.nextOsRecommendation == data.nextOsRecommendation
    ensures r.Success? ==> r.value.(status := wo.status, completedAt := wo.completedAt, rootCause := wo.rootCause,
                                    actionTaken := wo.actionTaken, nextOsRecommendation := wo.nextOsRecommendation) == wo
  {
    if wo.status != InProgress then Failure(ValueError(CannotComplete))
    else if !MayExecute(wo, user) then Failure(PermissionError(CompletionNotAllowed))
    else Success(wo.(status := Completed, completedAt := Some(now), rootCause := data.rootCause,
                     actionTaken := data.actionTaken, nextOsRecommendation := data.nextOsRecommendation))
  }

  // ------------------------------------------------------- lemmas

  /** The release gate does not depend on the order of the two approvals: either
      order ends in the same open work order. */
  lemma ApprovalOrderIrrelevant(wo: WorkOrder, m: User, p: User, tm: Time, tp: Time)
    requires wo.status == OnHold && Unapproved(wo)
    requires IsManagerOrAdmin(m.role) && IsManagerOrAdmin(p.role)
    ensures Approve(wo, m, Maintenance, tm).Success? && Approve(wo, p, Production, tp).Success?
    ensures Approve(wo, m, Maintenance, tm).value.status == OnHold
    ensures Approve(wo, p, Production, tp).value.status == OnHold
    ensures Approve(Approve(wo, m, Maintenance, tm).value, p, Production, tp)
         == Approve(Approve(wo, p, Production, tp).value, m, Maintenance, tm)
    ensures Approve(Approve(wo, m, Maintenance, tm).value, p, Production, tp).Success?
    ensures Approve(Approve(wo, m, Maintenance, tm).value, p, Production, tp).value.status == Open
  {
  }

  /** After a successful approval, approving the same track again always fails,
      whoever asks and whenever. */
  lemma ReapprovalRejected(wo: WorkOrder, a: User, b: User, track: Track, t1: Time, t2: Time)
    requires Approve(wo, a, track, t1).Success?
    ensures Approve(Approve(wo, a, track, t1).value, b, track, t2).Failure?
  {
  }

  /** The happy path of a work order created from a ticket: two approvals, start and
      completion by a manager all succeed and end in a completed work order. */
  lemma LifecycleFromTicket(tid: TicketId, t: TicketModels.Ticket, manager: User, data: CompletionData, t1: Time, t2: Time, t3: Time, t4: Time)
    requires !Finished(t.status) && t.asset.Some? && IsManagerOrAdmin(manager.role)
    ensures FromTicket(tid, t, false).Success?
    ensures var created := FromTicket(tid, t, false).value;
      var m := Approve(created, manager, Maintenance, t1);
      m.Success? && m.value.status == OnHold
      && var p := Approve(m.value, manager, Production, t2);
      p.Success? && p.value.status == Open
      && var s := Start(p.value, manager, t3);
      s.Success? && Complete(s.value, data, manager, t4).Success?
      && Complete(s.value, data, manager, t4).value.status == Completed
  {
  }
}
