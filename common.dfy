/** Shared vocabulary of the maintenance backend: optional values, the outcome of a
    service call, record identities and the exceptions the services raise. */
module Common {

  datatype Option<+T> = None | Some(value: T)

  /** A service call either returns its value or raises one of the errors below;
      a raised error rolls back the surrounding atomic block. */
  datatype Result<+T> = Success(value: T) | Failure(error: Error)

  // Primary keys. The source uses random UUIDs; here they are opaque numbers.
  type UserId = nat
  type TicketId = nat
  type WorkOrderId = nat
  type PartId = nat
  type AssetId = nat

  /** A point in time as returned by the clock (`timezone.now()`). */
  type Time = nat

  /** An uploaded image: only a reference is recorded, never its bytes. */
  type PhotoBlob = nat

  /** Why a `PermissionError` was raised: one message per guard. */
  datatype Denial =
    | ApprovalNotAllowed      // only managers and admins approve work orders
    | NotAssignedTechnician   // starting work: neither the assignee nor a manager/admin
    | CompletionNotAllowed    // completing work: neither the assignee nor a manager/admin
    | ResolutionNotAllowed    // only managers and admins resolve tickets
    | NotOriginalRequester    // feedback comes only from the ticket's requester
    | ClosingNotAllowed       // only managers and admins close tickets

  /** Why a `ValueError` was raised: one message per guard. */
  datatype Problem =
    | WorkOrderAlreadyExists        // the ticket already has a work order
    | TicketAlreadyFinished         // the ticket is resolved or closed
    | NotOnHold                     // approvals need a work order on hold
    | MaintenanceAlreadyApproved
    | ProductionAlreadyApproved
    | CannotStart                   // work order is not open
    | CannotComplete                // work order is not in progress
    | TicketNotPending              // resolving needs a pending ticket
    | WorkOrderNotCompleted         // the ticket's work order exists but is not completed
    | NoWorkOrderForTicket          // the ticket has no work order at all
    | FeedbackNeedsResolvedTicket
    | FeedbackAlreadyExists
    | TicketNotResolved             // closing needs a resolved ticket
    | EmailRequired
    | SuperuserNeedsStaff
    | SuperuserNeedsSuperuser

  /** Database constraints whose violation raises `IntegrityError`. */
  datatype Constraint =
    | AssetRequired            // WorkOrder.asset is NOT NULL
    | UniqueWorkOrderPart      // one WorkOrderPart row per (work order, part)
    | NonNegativeStock         // Part.quantity_on_hand is a positive-integer column

  datatype Error =
    | PermissionError(denial: Denial)
    | ValueError(problem: Problem)
    | PartDoesNotExist                 // `Part.objects.get` found no row
    | IntegrityError(constraint: Constraint)
    | TypeError                        // a keyword argument naming no field of the model being created
}
