/** The ticket state machine of the ticket service: resolving a pending ticket once
    its work order is completed, collecting the requester's feedback once, and
    closing a resolved ticket. Each function checks its guards in the source's order
    and either raises or returns the updated record. */
module TicketRules {
  import opened Common
  import opened CoreModels
  import opened TicketModels
  import WorkOrderModels

  /** How far along its lifecycle a ticket is: open, pending, resolved, closed. */
  function Stage(s: TicketStatus): nat
  {
    match s
    case Open => 0
    case Pending => 1
    case Resolved => 2
    case Closed => 3
  }

  /** Resolving ticket `t` whose work order, if it has one, has status `linked`.
      The role is checked first, then the ticket's status, then the work order:
      a missing work order and one not yet completed are refused with different
      messages. On success only the status changes, to resolved. */
  function Resolve(t: Ticket, actor: User, linked: Option<WorkOrderModels.WorkOrderStatus>): (r: Result<Ticket>)
    ensures !IsManagerOrAdmin(actor.role) ==> r == Failure(PermissionError(ResolutionNotAllowed))
    ensures (IsManagerOrAdmin(actor.role) && t.status != Pending) ==> r == Failure(ValueError(TicketNotPending))
    ensures (IsManagerOrAdmin(actor.role) && t.status == Pending && linked.None?)
      ==> r == Failure(ValueError(NoWorkOrderForTicket))
    ensures (IsManagerOrAdmin(actor.role) && t.status == Pending && linked.Some? && linked.value != WorkOrderModels.Completed)
      ==> r == Failure(ValueError(WorkOrderNotCompleted))
    ensures r.Success? <==> IsManagerOrAdmin(actor.role) && t.status == Pending && linked == Some(WorkOrderModels.Completed)
    ensures r.Success? ==> r.value.status == Resolved && Stage(r.value.status) == Stage(t.status) + 1
    ensures r.Success? ==> r.value.(status := t.status) == t
  {
    if !IsManagerOrAdmin(actor.role) then Failure(PermissionError(ResolutionNotAllowed))
    else if t.status != Pending then Failure(ValueError(TicketNotPending))
    else if linked.None? then Failure(ValueError(NoWorkOrderForTicket))
    else if linked.value != WorkOrderModels.Completed then Failure(ValueError(WorkOrderNotCompleted))
    else Success(t.(status := Resolved))
  }

  /** Feedback on ticket `tid` by `user`. Only the ticket's original requester may
      give it (a ticket without a requester accepts nobody), only once the ticket is
      resolved, and only if the ticket has none yet (`hasFeedback`). The rating and
      comments are stored as given; the ticket itself is not touched. */
  function SubmitFeedback(tid: TicketId, t: Ticket, user: User, hasFeedback: bool, rating: int, comments: string)
    : (r: Result<Feedback>)
    ensures t.requester != Some(user.id) ==> r == Failure(PermissionError(NotOriginalRequester))
    ensures (t.requester == Some(user.id) && t.status != Resolved) ==> r == Failure(ValueError(FeedbackNeedsResolvedTicket))
    ensures (t.requester == Some(user.id) && t.status == Resolved && hasFeedback)
      ==> r == Failure(ValueError(FeedbackAlreadyExists))
    ensures r.Success? <==> t.requester == Some(user.id) && t.status == Resolved && !hasFeedback
    ensures r.Success? ==> r.value.ticket == Some(tid) && r.value.user == Some(user.id)
    ensures r.Success? ==> r.value.rating == rating && r.value.comments == Some(comments)
  {
    if t.requester != Some(user.id) then Failure(PermissionError(NotOriginalRequester))
    else if t.status != Resolved then Failure(ValueError(FeedbackNeedsResolvedTicket))
    else if hasFeedback then Failure(ValueError(FeedbackAlreadyExists))
    else Success(Feedback(Some(tid), Some(user.id), rating, Some(comments)))
  }

  /** Closing a ticket: the role is checked first, then that the ticket is resolved.
      On success only the status changes, to closed, the final stage. */
  function Close(t: Ticket, actor: User): (r: Result<Ticket>)
    ensures !IsManagerOrAdmin(actor.role) ==> r == Failure(PermissionError(ClosingNotAllowed))
    ensures (IsManagerOrAdmin(actor.role) && t.status != Resolved) ==> r == Failure(ValueError(TicketNotResolved))
    ensures r.Success? <==> IsManagerOrAdmin(actor.role) && t.status == Resolved
    ensures r.Success? ==> r.value.status == Closed && Stage(r.value.status) == Stage(t.status) + 1
    ensures r.Success? ==> r.value.(status := t.status) == t
  {
    if !IsManagerOrAdmin(actor.role) then Failure(PermissionError(ClosingNotAllowed))
    else if t.status != Resolved then Failure(ValueError(TicketNotResolved))
    else Success(t.(status := Closed))
  }

  /** A closed ticket is final: it can be neither resolved nor closed again, and it
      takes no feedback. */
  lemma ClosedIsFinal(t: Ticket, actor: User, linked: Option<WorkOrderModels.WorkOrderStatus>,
                      tid: TicketId, user: User, hasFeedback: bool, rating: int, comments: string)
    requires t.status == Closed
    ensures Resolve(t, actor, linked).Failure? && Close(t, actor).Failure?
    ensures SubmitFeedback(tid, t, user, hasFeedback, rating, comments).Failure?
  {
  }
}
