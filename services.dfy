/** The work-order and ticket services over the database. `Store` holds the tables
    the services read and write; each service operation is a method that checks its
    guards in the source's order and either raises, leaving every table as it was,
    or updates the rows it owns. Every method is proved to agree with the transition
    function of `WorkOrderRules`, `TicketRules` or `Completion` that specifies it, and
    to keep the cross-table invariants of `Valid`. */
module Services {
  import opened Common
  import opened CoreModels
  import opened TicketModels
  import opened WorkOrderModels
  import opened Completion
  import WorkOrderRules
  import TicketRules

  // ------------------------------------------------------- cross-table invariants

  /** Some work order references ticket `t`. */
  predicate Linked(wos: map<WorkOrderId, WorkOrder>, t: TicketId)
  {
    exists k :: k in wos && wos[k].ticket == Some(t)
  }

  /** The status of ticket `t`'s work order, if it has one. */
  ghost function LinkedStatus(wos: map<WorkOrderId, WorkOrder>, t: TicketId): Option<WorkOrderStatus>
  {
    if Linked(wos, t) then
      var k :| k in wos && wos[k].ticket == Some(t);
      Some(wos[k].status)
    else None
  }

  /** At most one work order references any ticket. */
  ghost predicate OneWorkOrderPerTicket(wos: map<WorkOrderId, WorkOrder>)
  {
    forall a, b :: a in wos && b in wos && wos[a].ticket.Some? && wos[a].ticket == wos[b].ticket ==> a == b
  }

  /** The statuses a work order reaches only after its release. */
  predicate Released(s: WorkOrderStatus)
  {
    s == WorkOrderStatus.Open || s == InProgress || s == Completed
  }

  /** A work order is open, in progress or completed only with both approvals recorded. */
  ghost predicate ReleasedOnlyWhenApproved(wos: map<WorkOrderId, WorkOrder>)
  {
    forall k :: k in wos && Released(wos[k].status) ==> FullyApproved(wos[k])
  }

  /** Ticket and work order move together: a ticket has left `open` exactly when a
      work order references it, the referenced ticket exists, and a resolved or closed
      ticket's work order is completed. */
  ghost predicate TicketsFollowWork(tickets: map<TicketId, Ticket>, wos: map<WorkOrderId, WorkOrder>)
  {
    && (forall t :: t in tickets && tickets[t].status != TicketStatus.Open ==> Linked(wos, t))
    && (forall k :: k in wos && wos[k].ticket.Some? ==>
          wos[k].ticket.value in tickets && tickets[wos[k].ticket.value].status != TicketStatus.Open)
    && (forall k :: k in wos && wos[k].ticket.Some? && WorkOrderRules.Finished(tickets[wos[k].ticket.value].status)
          ==> wos[k].status == Completed)
  }

  /** Junction rows and photos belong to completed work orders. */
  ghost predicate RecordsOfCompletedWork(rows: seq<WorkOrderPart>, photos: seq<WorkOrderPhoto>, wos: map<WorkOrderId, WorkOrder>)
  {
    && (forall i :: 0 <= i < |rows| ==> rows[i].workOrder in wos && wos[rows[i].workOrder].status == Completed)
    && (forall i :: 0 <= i < |photos| ==> photos[i].workOrder in wos && wos[photos[i].workOrder].status == Completed)
  }

  predicate HasFeedback(fbs: seq<Feedback>, t: TicketId)
  {
    exists i :: 0 <= i < |fbs| && fbs[i].ticket == Some(t)
  }

  /** Each ticket has at most one feedback, and only a resolved or closed one has any. */
  ghost predicate FeedbackOncePerFinishedTicket(fbs: seq<Feedback>, tickets: map<TicketId, Ticket>)
  {
    && (forall i, j :: 0 <= i < |fbs| && 0 <= j < |fbs| && fbs[i].ticket.Some? && fbs[i].ticket == fbs[j].ticket ==> i == j)
    && (forall i :: 0 <= i < |fbs| && fbs[i].ticket.Some? ==>
          fbs[i].ticket.value in tickets && WorkOrderRules.Finished(tickets[fbs[i].ticket.value].status))
  }

  lemma LinksKept(wos: map<WorkOrderId, WorkOrder>, wos2: map<WorkOrderId, WorkOrder>)
    requires forall k :: k in wos ==> k in wos2 && wos2[k].ticket == wos[k].ticket
    ensures forall t: TicketId :: Linked(wos, t) ==> Linked(wos2, t)
  {
    forall t: TicketId | Linked(wos, t) ensures Linked(wos2, t) {
      var k :| k in wos && wos[k].ticket == Some(t);
      assert k in wos2 && wos2[k].ticket == Some(t);
    }
  }

  lemma LinkedStatusIs(wos: map<WorkOrderId, WorkOrder>, t: TicketId, k: WorkOrderId)
    requires OneWorkOrderPerTicket(wos) && k in wos && wos[k].ticket == Some(t)
    ensures LinkedStatus(wos, t) == Some(wos[k].status)
  {
  }

  /** The parts loop of completion, on the transaction's pending copy of the stock:
      entry by entry in the submitted order, stopping at the first that fails. */
  method StageParts(entries: seq<PartUsage>, wo: WorkOrderId, tech: UserId, s: PartsTables) returns (r: Result<PartsTables>)
    ensures r == ApplyParts(entries, wo, tech, s)
  {
    var stockLevels, rows, txns := s.parts, s.rows, s.ledger;
    var i := 0;
    while i < |entries|
      invariant i <= |entries|
      invariant ApplyParts(entries[..i], wo, tech, s) == Success(PartsTables(stockLevels, rows, txns))
    {
      var entry := entries[i];
      assert entries[..i + 1][..i] == entries[..i];
      if entry.partId.Some? && entry.quantityUsed.Some? && entry.quantityUsed.value > 0 {
        var p, q := entry.partId.value, entry.quantityUsed.value;
        if p !in stockLevels {
          FailurePersists(entries, i + 1, wo, tech, s);
          return Failure(PartDoesNotExist);
        }
        if exists j :: 0 <= j < |rows| && rows[j].workOrder == wo && rows[j].part == p {
          FailurePersists(entries, i + 1, wo, tech, s);
          return Failure(IntegrityError(UniqueWorkOrderPart));
        }
        rows := rows + [WorkOrderPart(wo, p, q)];
        txns := txns + [InventoryTransaction(p, q, Deduction, Some(tech), Some(wo))];
        if stockLevels[p].quantityOnHand < q {
          FailurePersists(entries, i + 1, wo, tech, s);
          return Failure(IntegrityError(NonNegativeStock));
        }
        stockLevels := stockLevels[p := stockLevels[p].(quantityOnHand := stockLevels[p].quantityOnHand - q)];
      }
      i := i + 1;
    }
    assert entries[..i] == entries;
    r := Success(PartsTables(stockLevels, rows, txns));
  }

  /** The photo loop of completion: one attachment per uploaded photo, in order. */
  method StagePhotos(wo: WorkOrderId, uploader: UserId, uploads: seq<PhotoBlob>) returns (added: seq<WorkOrderPhoto>)
    ensures added == Attachments(wo, uploader, uploads)
  {
    added := [];
    var j := 0;
    while j < |uploads|
      invariant j <= |uploads|
      invariant added == Attachments(wo, uploader, uploads[..j])
    {
      assert uploads[..j + 1][..j] == uploads[..j];
      added := added + [WorkOrderPhoto(wo, uploads[j], uploader, None)];
      j := j + 1;
    }
    assert uploads[..j] == uploads;
  }

  /** The invariant the services keep over the tables. */
  ghost predicate Consistent(tickets: map<TicketId, Ticket>, wos: map<WorkOrderId, WorkOrder>,
                             rows: seq<WorkOrderPart>, photos: seq<WorkOrderPhoto>, fbs: seq<Feedback>,
                             nextTicketId: TicketId, nextWorkOrderId: WorkOrderId)
  {
    && (forall t :: t in tickets ==> t < nextTicketId)
    && (forall k :: k in wos ==> k < nextWorkOrderId)
    && OneWorkOrderPerTicket(wos)
    && ReleasedOnlyWhenApproved(wos)
    && TicketsFollowWork(tickets, wos)
    && UniquePairs(rows)
    && RecordsOfCompletedWork(rows, photos, wos)
    && FeedbackOncePerFinishedTicket(fbs, tickets)
  }

  /** Replacing work order `id` by `w` keeps the invariant when the ticket link stays,
      a released `w` has both approvals, and a completed work order stays completed. */
  lemma WorkOrderUpdateKeepsConsistent(tickets: map<TicketId, Ticket>, wos: map<WorkOrderId, WorkOrder>,
                                       rows: seq<WorkOrderPart>, photos: seq<WorkOrderPhoto>, fbs: seq<Feedback>,
                                       nt: TicketId, nw: WorkOrderId, id: WorkOrderId, w: WorkOrder)
    requires Consistent(tickets, wos, rows, photos, fbs, nt, nw)
    requires id in wos && w.ticket == wos[id].ticket
    requires Released(w.status) ==> FullyApproved(w)
    requires wos[id].status == Completed ==> w.status == Completed
    ensures Consistent(tickets, wos[id := w], rows, photos, fbs, nt, nw)
  {
    var wos2 := wos[id := w];
    LinksKept(wos, wos2);
    assert OneWorkOrderPerTicket(wos2);
    assert TicketsFollowWork(tickets, wos2);
    assert RecordsOfCompletedWork(rows, photos, wos2);
  }

  /** Junction rows and attachments for a completed work order, with the rows keeping
      the uniqueness rule, keep the invariant. */
  lemma RecordsAppendedKeepConsistent(tickets: map<TicketId, Ticket>, wos: map<WorkOrderId, WorkOrder>,
                                      rows: seq<WorkOrderPart>, photos: seq<WorkOrderPhoto>, fbs: seq<Feedback>,
                                      nt: TicketId, nw: WorkOrderId,
                                      id: WorkOrderId, newRows: seq<WorkOrderPart>, added: seq<WorkOrderPhoto>)
    requires Consistent(tickets, wos, rows, photos, fbs, nt, nw)
    requires id in wos && wos[id].status == Completed
    requires UniquePairs(rows + newRows)
    requires forall i :: 0 <= i < |newRows| ==> newRows[i].workOrder == id
    requires forall i :: 0 <= i < |added| ==> added[i].workOrder == id
    ensures Consistent(tickets, wos, rows + newRows, photos + added, fbs, nt, nw)
  {
    var rows2, photos2 := rows + newRows, photos + added;
    forall i | 0 <= i < |rows2| ensures rows2[i].workOrder in wos && wos[rows2[i].workOrder].status == Completed {
      if i < |rows| { assert rows2[i] == rows[i]; } else { assert rows2[i] == newRows[i - |rows|]; }
    }
    forall i | 0 <= i < |photos2| ensures photos2[i].workOrder in wos && wos[photos2[i].workOrder].status == Completed {
      if i < |photos| { assert photos2[i] == photos[i]; } else { assert photos2[i] == added[i - |photos|]; }
    }
  }

  /** Completing work order `id`, which was in progress, with new junction rows and
      attachments that all belong to it, keeps the invariant. */
  lemma CompletionKeepsConsistent(tickets: map<TicketId, Ticket>, wos: map<WorkOrderId, WorkOrder>,
                                  rows: seq<WorkOrderPart>, photos: seq<WorkOrderPhoto>, fbs: seq<Feedback>,
                                  nt: TicketId, nw: WorkOrderId,
                                  id: WorkOrderId, done: WorkOrder, rows2: seq<WorkOrderPart>,
                                  newRows: seq<WorkOrderPart>, added: seq<WorkOrderPhoto>)
    requires Consistent(tickets, wos, rows, photos, fbs, nt, nw)
    requires id in wos && wos[id].status == InProgress
    requires done.status == Completed && done.ticket == wos[id].ticket && FullyApproved(done)
    requires rows2 == rows + newRows && UniquePairs(rows2)
    requires forall i :: 0 <= i < |newRows| ==> newRows[i].workOrder == id
    requires forall i :: 0 <= i < |added| ==> added[i].workOrder == id
    ensures Consistent(tickets, wos[id := done], rows2, photos + added, fbs, nt, nw)
  {
    WorkOrderUpdateKeepsConsistent(tickets, wos, rows, photos, fbs, nt, nw, id, done);
    RecordsAppendedKeepConsistent(tickets, wos[id := done], rows, photos, fbs, nt, nw, id, newRows, added);
  }

  /** A new work order on hold for an open ticket, which becomes pending, keeps the
      invariant. */
  lemma CreationKeepsConsistent(tickets: map<TicketId, Ticket>, wos: map<WorkOrderId, WorkOrder>,
                                rows: seq<WorkOrderPart>, photos: seq<WorkOrderPhoto>, fbs: seq<Feedback>,
                                nt: TicketId, nw: WorkOrderId, tid: TicketId, w: WorkOrder)
    requires Consistent(tickets, wos, rows, photos, fbs, nt, nw)
    requires tid in tickets && !Linked(wos, tid)
    requires w.ticket == Some(tid) && w.status == OnHold
    ensures Consistent(tickets[tid := tickets[tid].(status := Pending)], wos[nw := w], rows, photos, fbs, nt, nw + 1)
  {
    var tickets2, wos2 := tickets[tid := tickets[tid].(status := Pending)], wos[nw := w];
    LinksKept(wos, wos2);
    assert Linked(wos2, tid) by {
      assert wos2[nw].ticket == Some(tid);
    }
    assert forall k :: k in wos ==> wos[k].ticket != Some(tid);
    assert OneWorkOrderPerTicket(wos2);
    forall k | k in wos2 && wos2[k].ticket.Some?
      ensures wos2[k].ticket.value in tickets2 && tickets2[wos2[k].ticket.value].status != TicketStatus.Open
      ensures WorkOrderRules.Finished(tickets2[wos2[k].ticket.value].status) ==> wos2[k].status == Completed
    {
      if k != nw {
        assert wos2[k] == wos[k] && wos[k].ticket.value != tid;
      }
    }
    assert TicketsFollowWork(tickets2, wos2);
    assert RecordsOfCompletedWork(rows, photos, wos2);
    assert FeedbackOncePerFinishedTicket(fbs, tickets2);
  }

  /** Moving a ticket that has left `open` to another status other than `open` keeps
      the invariant, when a resolved or closed ticket stays so and its work order `k`
      is completed. */
  lemma TicketUpdateKeepsConsistent(tickets: map<TicketId, Ticket>, wos: map<WorkOrderId, WorkOrder>,
                                    rows: seq<WorkOrderPart>, photos: seq<WorkOrderPhoto>, fbs: seq<Feedback>,
                                    nt: TicketId, nw: WorkOrderId, tid: TicketId, t: Ticket, k: WorkOrderId)
    requires Consistent(tickets, wos, rows, photos, fbs, nt, nw)
    requires tid in tickets && tickets[tid].status != TicketStatus.Open && t.status != TicketStatus.Open
    requires WorkOrderRules.Finished(tickets[tid].status) ==> WorkOrderRules.Finished(t.status)
    requires WorkOrderRules.Finished(t.status) ==> k in wos && wos[k].ticket == Some(tid) && wos[k].status == Completed
    ensures Consistent(tickets[tid := t], wos, rows, photos, fbs, nt, nw)
  {
    var tickets2 := tickets[tid := t];
    assert TicketsFollowWork(tickets2, wos);
    assert FeedbackOncePerFinishedTicket(fbs, tickets2);
  }

  /** The first feedback on a resolved or closed ticket keeps the invariant. */
  lemma FeedbackKeepsConsistent(tickets: map<TicketId, Ticket>, wos: map<WorkOrderId, WorkOrder>,
                                rows: seq<WorkOrderPart>, photos: seq<WorkOrderPhoto>, fbs: seq<Feedback>,
                                nt: TicketId, nw: WorkOrderId, tid: TicketId, f: Feedback)
    requires Consistent(tickets, wos, rows, photos, fbs, nt, nw)
    requires tid in tickets && WorkOrderRules.Finished(tickets[tid].status)
    requires !HasFeedback(fbs, tid) && f.ticket == Some(tid)
    ensures Consistent(tickets, wos, rows, photos, fbs + [f], nt, nw)
  {
    var fbs2 := fbs + [f];
    forall i, j | 0 <= i < |fbs2| && 0 <= j < |fbs2| && fbs2[i].ticket.Some? && fbs2[i].ticket == fbs2[j].ticket
      ensures i == j
    {
      assert fbs2[|fbs|] == f;
    }
    assert forall i :: 0 <= i < |fbs| ==> fbs2[i] == fbs[i];
  }

  // ------------------------------------------------------- the store

  class Store {
    var tickets: map<TicketId, Ticket>
    var workOrders: map<WorkOrderId, WorkOrder>
    var parts: map<PartId, Part>
    var workOrderParts: seq<WorkOrderPart>
    var photos: seq<WorkOrderPhoto>
    var feedbacks: seq<Feedback>
    var ledger: seq<InventoryTransaction>
    var nextTicketId: TicketId
    var nextWorkOrderId: WorkOrderId

    ghost predicate Valid()
      reads this
    {
      Consistent(tickets, workOrders, workOrderParts, photos, feedbacks, nextTicketId, nextWorkOrderId)
    }

    /** An empty database with a given parts catalogue. */
    constructor (catalogue: map<PartId, Part>)
      ensures Valid()
      ensures parts == catalogue && tickets == map[] && workOrders == map[]
      ensures workOrderParts == [] && photos == [] && feedbacks == [] && ledger == []
    {
      tickets, workOrders, parts := map[], map[], catalogue;
      workOrderParts, photos, feedbacks, ledger := [], [], [], [];
      nextTicketId, nextWorkOrderId := 0, 0;
    }

    /** A requester files a ticket; it starts with the model's default status, open. */
    method FileTicket(title: string, description: string, asset: Option<AssetId>, requester: UserId)
      returns (id: TicketId)
      requires Valid()
      modifies this`tickets, this`nextTicketId
      ensures Valid()
      ensures id !in old(tickets)
      ensures tickets == old(tickets)[id := NewTicket(title, description, asset, Some(requester))]
      ensures tickets[id].status == TicketStatus.Open
    {
      id := nextTicketId;
      tickets := tickets[id := NewTicket(title, description, asset, Some(requester))];
      nextTicketId := nextTicketId + 1;
    }

    /** A manager assigns a technician to a work order. */
    method AssignTechnician(id: WorkOrderId, technician: UserId)
      requires Valid() && id in workOrders
      modifies this`workOrders
      ensures Valid()
      ensures workOrders == old(workOrders)[id := old(workOrders[id]).(assignedTo := Some(technician))]
    {
      var wo := workOrders[id];
      wo := wo.(assignedTo := Some(technician));
      WorkOrderUpdateKeepsConsistent(tickets, workOrders, workOrderParts, photos, feedbacks,
                                     nextTicketId, nextWorkOrderId, id, wo);
      workOrders := workOrders[id := wo];
    }

    // ----------------------------------------------------- work-order service

    /** Creates the work order for ticket `tid` and marks the ticket pending; a ticket
        that already has one, or is resolved or closed, is refused. */
    method CreateWorkOrderFromTicket(tid: TicketId) returns (r: Result<WorkOrder>, id: WorkOrderId)
      requires Valid() && tid in tickets
      modifies this`workOrders, this`tickets, this`nextWorkOrderId
      ensures Valid()
      ensures r == WorkOrderRules.FromTicket(tid, old(tickets[tid]), Linked(old(workOrders), tid))
      ensures r.Failure? ==> unchanged(this)
      ensures r.Success? ==> id !in old(workOrders) && workOrders == old(workOrders)[id := r.value]
      ensures r.Success? ==> tickets == old(tickets)[tid := old(tickets[tid]).(status := Pending)]
    {
      if exists k :: k in workOrders && workOrders[k].ticket == Some(tid) {
        return Failure(ValueError(WorkOrderAlreadyExists)), nextWorkOrderId;
      }
      var ticket := tickets[tid];
      if ticket.status == Resolved || ticket.status == TicketStatus.Closed {
        return Failure(ValueError(TicketAlreadyFinished)), nextWorkOrderId;
      }
      if ticket.asset.None? {
        return Failure(IntegrityError(AssetRequired)), nextWorkOrderId;
      }
      var wo := Blank(ticket.title, Some(ticket.description), ticket.asset.value);
      wo := wo.(ticket := Some(tid), status := OnHold, priority := 3);
      id := nextWorkOrderId;
      CreationKeepsConsistent(tickets, workOrders, workOrderParts, photos, feedbacks,
                              nextTicketId, nextWorkOrderId, tid, wo);
      workOrders := workOrders[id := wo];
      nextWorkOrderId := nextWorkOrderId + 1;
      ticket := ticket.(status := Pending);
      tickets := tickets[tid := ticket];
      r := Success(wo);
    }

    method ApproveMaintenance(id: WorkOrderId, approver: User, now: Time) returns (r: Result<WorkOrder>)
      requires Valid() && id in workOrders
      modifies this`workOrders
      ensures Valid()
      ensures r == WorkOrderRules.Approve(old(workOrders[id]), approver, Maintenance, now)
      ensures r.Failure? ==> unchanged(this)
      ensures r.Success? ==> workOrders == old(workOrders)[id := r.value]
    {
      r := ProcessApproval(id, approver, Maintenance, now);
    }

    method ApproveProduction(id: WorkOrderId, approver: User, now: Time) returns (r: Result<WorkOrder>)
      requires Valid() && id in workOrders
      modifies this`workOrders
      ensures Valid()
      ensures r == WorkOrderRules.Approve(old(workOrders[id]), approver, Production, now)
      ensures r.Failure? ==> unchanged(this)
      ensures r.Success? ==> workOrders == old(workOrders)[id := r.value]
    {
      r := ProcessApproval(id, approver, Production, now);
    }

    /** The approval procedure both tracks share. */
    method ProcessApproval(id: WorkOrderId, approver: User, track: Track, now: Time) returns (r: Result<WorkOrder>)
      requires Valid() && id in workOrders
      modifies this`workOrders
      ensures Valid()
      ensures r == WorkOrderRules.Approve(old(workOrders[id]), approver, track, now)
      ensures r.Failure? ==> unchanged(this)
      ensures r.Success? ==> workOrders == old(workOrders)[id := r.value]
    {
      var wo := workOrders[id];
      if !IsManagerOrAdmin(approver.role) {
        return Failure(PermissionError(ApprovalNotAllowed));
      }
      if wo.status != OnHold {
        return Failure(ValueError(NotOnHold));
      }
      match track {
        case Maintenance =>
          if wo.maintenanceApprover.Some? {
            return Failure(ValueError(MaintenanceAlreadyApproved));
          }
          wo := wo.(maintenanceApprover := Some(approver.id), maintenanceApprovedAt := Some(now));
        case Production =>
          if wo.productionApprover.Some? {
            return Failure(ValueError(ProductionAlreadyApproved));
          }
          wo := wo.(productionApprover := Some(approver.id), productionApprovedAt := Some(now));
      }
      if wo.maintenanceApprovedAt.Some? && wo.productionApprovedAt.Some? {
        wo := wo.(status := WorkOrderStatus.Open);
      }
      WorkOrderUpdateKeepsConsistent(tickets, workOrders, workOrderParts, photos, feedbacks,
                                     nextTicketId, nextWorkOrderId, id, wo);
      workOrders := workOrders[id := wo];
      r := Success(wo);
    }

    /** Moves an open work order to in progress and records when work started. */
    method StartWork(id: WorkOrderId, technician: User, now: Time) returns (r: Result<WorkOrder>)
      requires Valid() && id in workOrders
      modifies this`workOrders
      ensures Valid()
      ensures r == WorkOrderRules.Start(old(workOrders[id]), technician, now)
      ensures r.Failure? ==> unchanged(this)
      ensures r.Success? ==> workOrders == old(workOrders)[id := r.value]
    {
      var wo := workOrders[id];
      if wo.status != WorkOrderStatus.Open {
        return Failure(ValueError(CannotStart));
      }
      if !(wo.assignedTo == Some(technician.id) || IsManagerOrAdmin(technician.role)) {
        return Failure(PermissionError(NotAssignedTechnician));
      }
      wo := wo.(status := InProgress, actualStartAt := Some(now));
      WorkOrderUpdateKeepsConsistent(tickets, workOrders, workOrderParts, photos, feedbacks,
                                     nextTicketId, nextWorkOrderId, id, wo);
      workOrders := workOrders[id := wo];
      r := Success(wo);
    }

    /** Completes a work order in one atomic step: the work record, then one junction
        row, one ledger deduction and one stock decrement per consumed parts entry,
        then one attachment per photo. The parts and photos are staged and written
        only at the end, so a failure anywhere leaves every table as it was. */
    method CompleteWork(id: WorkOrderId, data: CompletionData, technician: User, now: Time)
      returns (r: Result<WorkOrder>)
      requires Valid() && id in workOrders
      modifies this`workOrders, this`parts, this`workOrderParts, this`ledger, this`photos
      ensures Valid()
      ensures var done := WorkOrderRules.Complete(old(workOrders[id]), data, technician, now);
              var used := ApplyParts(data.partsUsed, id, technician.id, old(PartsTables(parts, workOrderParts, ledger)));
              r == if done.Failure? then done else if used.Failure? then Failure(used.error) else done
      ensures r.Failure? ==> unchanged(this)
      ensures r.Success? ==> workOrders == old(workOrders)[id := r.value]
      ensures r.Success? ==> PartsTables(parts, workOrderParts, ledger)
                             == ApplyParts(data.partsUsed, id, technician.id, old(PartsTables(parts, workOrderParts, ledger))).value
      ensures r.Success? ==> workOrderParts == old(workOrderParts) + RowsFor(id, data.partsUsed)
      ensures r.Success? ==> ledger == old(ledger) + DeductionsFor(id, technician.id, data.partsUsed)
      ensures r.Success? ==> parts.Keys == old(parts).Keys
      ensures r.Success? ==> forall p :: p in old(parts) ==>
                parts[p].quantityOnHand == old(parts[p].quantityOnHand) - TotalUsed(data.partsUsed, p)
      ensures r.Success? ==> photos == old(photos) + Attachments(id, technician.id, data.photos)
    {
      var wo := workOrders[id];
      if wo.status != InProgress {
        return Failure(ValueError(CannotComplete));
      }
      if !(wo.assignedTo == Some(technician.id) || IsManagerOrAdmin(technician.role)) {
        return Failure(PermissionError(CompletionNotAllowed));
      }
      wo := wo.(status := Completed, completedAt := Some(now), rootCause := data.rootCause,
                actionTaken := data.actionTaken, nextOsRecommendation := data.nextOsRecommendation);

      // The parts and the photos, staged as the transaction's pending writes.
      ghost var before := PartsTables(parts, workOrderParts, ledger);
      var used := StageParts(data.partsUsed, id, technician.id, PartsTables(parts, workOrderParts, ledger));
      if used.Failure? {
        return Failure(used.error);
      }
      var added := StagePhotos(id, technician.id, data.photos);
      ApplyPartsOutcome(data.partsUsed, id, technician.id, before);
      assert FullyApproved(old(workOrders[id]));
      Commit(id, wo, used.value, RowsFor(id, data.partsUsed), added);
      r := Success(wo);
    }

    /** The end of the completion transaction: the work record and the staged tables
        are written together. */
    method Commit(id: WorkOrderId, done: WorkOrder, staged: PartsTables,
                  newRows: seq<WorkOrderPart>, added: seq<WorkOrderPhoto>)
      requires Valid() && id in workOrders && workOrders[id].status == InProgress
      requires done.status == Completed && done.ticket == workOrders[id].ticket && FullyApproved(done)
      requires staged.rows == workOrderParts + newRows && UniquePairs(staged.rows)
      requires forall i :: 0 <= i < |newRows| ==> newRows[i].workOrder == id
      requires forall i :: 0 <= i < |added| ==> added[i].workOrder == id
      modifies this`workOrders, this`parts, this`workOrderParts, this`ledger, this`photos
      ensures Valid()
      ensures workOrders == old(workOrders)[id := done]
      ensures PartsTables(parts, workOrderParts, ledger) == staged
      ensures photos == old(photos) + added
    {
      CompletionKeepsConsistent(tickets, workOrders, workOrderParts, photos, feedbacks,
                                nextTicketId, nextWorkOrderId, id, done, staged.rows, newRows, added);
      workOrders := workOrders[id := done];
      parts, workOrderParts, ledger, photos := staged.parts, staged.rows, staged.ledger, photos + added;
    }

    // ----------------------------------------------------- ticket service

    /** Resolves a pending ticket whose work order is completed. */
    method ResolveTicket(tid: TicketId, manager: User) returns (r: Result<Ticket>)
      requires Valid() && tid in tickets
      modifies this`tickets
      ensures Valid()
      ensures r == TicketRules.Resolve(old(tickets[tid]), manager, LinkedStatus(old(workOrders), tid))
      ensures r.Failure? ==> unchanged(this)
      ensures r.Success? ==> tickets == old(tickets)[tid := r.value]
    {
      var ticket := tickets[tid];
      if !IsManagerOrAdmin(manager.role) {
        return Failure(PermissionError(ResolutionNotAllowed));
      }
      if ticket.status != Pending {
        return Failure(ValueError(TicketNotPending));
      }
      if !exists k :: k in workOrders && workOrders[k].ticket == Some(tid) {
        return Failure(ValueError(NoWorkOrderForTicket));
      }
      var k :| k in workOrders && workOrders[k].ticket == Some(tid);
      LinkedStatusIs(workOrders, tid, k);
      if workOrders[k].status != Completed {
        return Failure(ValueError(WorkOrderNotCompleted));
      }
      ticket := ticket.(status := Resolved);
      TicketUpdateKeepsConsistent(tickets, workOrders, workOrderParts, photos, feedbacks,
                                  nextTicketId, nextWorkOrderId, tid, ticket, k);
      tickets := tickets[tid := ticket];
      r := Success(ticket);
    }

    /** Records the requester's feedback on a resolved ticket, once. */
    method SubmitFeedback(tid: TicketId, requester: User, rating: int, comments: string) returns (r: Result<Feedback>)
      requires Valid() && tid in tickets
      modifies this`feedbacks
      ensures Valid()
      ensures r == TicketRules.SubmitFeedback(tid, old(tickets[tid]), requester, HasFeedback(old(feedbacks), tid), rating, comments)
      ensures r.Failure? ==> unchanged(this)
      ensures r.Success? ==> feedbacks == old(feedbacks) + [r.value]
    {
      var ticket := tickets[tid];
      if ticket.requester != Some(requester.id) {
        return Failure(PermissionError(NotOriginalRequester));
      }
      if ticket.status != Resolved {
        return Failure(ValueError(FeedbackNeedsResolvedTicket));
      }
      if exists i :: 0 <= i < |feedbacks| && feedbacks[i].ticket == Some(tid) {
        return Failure(ValueError(FeedbackAlreadyExists));
      }
      var feedback := Feedback(Some(tid), Some(requester.id), rating, Some(comments));
      FeedbackKeepsConsistent(tickets, workOrders, workOrderParts, photos, feedbacks,
                              nextTicketId, nextWorkOrderId, tid, feedback);
      feedbacks := feedbacks + [feedback];
      r := Success(feedback);
    }

    /** Closes a resolved ticket. */
    method CloseTicket(tid: TicketId, manager: User) returns (r: Result<Ticket>)
      requires Valid() && tid in tickets
      modifies this`tickets
      ensures Valid()
      ensures r == TicketRules.Close(old(tickets[tid]), manager)
      ensures r.Failure? ==> unchanged(this)
      ensures r.Success? ==> tickets == old(tickets)[tid := r.value]
    {
      var ticket := tickets[tid];
      if !IsManagerOrAdmin(manager.role) {
        return Failure(PermissionError(ClosingNotAllowed));
      }
      if ticket.status != Resolved {
        return Failure(ValueError(TicketNotResolved));
      }
      ticket := ticket.(status := TicketStatus.Closed);
      ghost var k :| k in workOrders && workOrders[k].ticket == Some(tid);
      TicketUpdateKeepsConsistent(tickets, workOrders, workOrderParts, photos, feedbacks,
                                  nextTicketId, nextWorkOrderId, tid, ticket, k);
      tickets := tickets[tid := ticket];
      r := Success(ticket);
    }
  }

  // ------------------------------------------------------- a ticket's journey

  /** The approval part of a ticket's journey: an open ticket with an asset gets its
      work order, which a manager approves on both tracks. The ticket ends pending,
      linked to an open work order. */
  method ApprovalJourney(store: Store, tid: TicketId, manager: User, t1: Time, t2: Time)
    returns (id: WorkOrderId)
    requires store.Valid() && tid in store.tickets
    requires store.tickets[tid].status == TicketStatus.Open && store.tickets[tid].asset.Some?
    requires IsManagerOrAdmin(manager.role)
    modifies store
    ensures store.Valid() && tid in store.tickets
    ensures store.tickets[tid] == old(store.tickets[tid]).(status := Pending)
    ensures store.feedbacks == old(store.feedbacks)
    ensures id in store.workOrders && store.workOrders[id].ticket == Some(tid)
    ensures store.workOrders[id].status == WorkOrderStatus.Open
  {
    assert !Linked(store.workOrders, tid);
    var created;
    created, id := store.CreateWorkOrderFromTicket(tid);
    assert created.Success? && store.workOrders[id].status == OnHold && WorkOrderRules.Unapproved(store.workOrders[id]);
    var approved := store.ApproveMaintenance(id, manager, t1);
    assert approved.Success? && store.workOrders[id].status == OnHold;
    approved := store.ApproveProduction(id, manager, t2);
    assert approved.Success?;
  }

  /** The work-order half of a ticket's journey: after the approvals, a manager starts
      the work order and completes it without parts. The ticket ends pending, linked
      to a completed work order. */
  method WorkOrderJourney(store: Store, tid: TicketId, manager: User, data: CompletionData,
                          t1: Time, t2: Time, t3: Time, t4: Time) returns (id: WorkOrderId)
    requires store.Valid() && tid in store.tickets
    requires store.tickets[tid].status == TicketStatus.Open && store.tickets[tid].asset.Some?
    requires IsManagerOrAdmin(manager.role)
    requires Consumed(data.partsUsed) == []
    modifies store
    ensures store.Valid() && tid in store.tickets
    ensures store.tickets[tid] == old(store.tickets[tid]).(status := Pending)
    ensures store.feedbacks == old(store.feedbacks)
    ensures id in store.workOrders && store.workOrders[id].ticket == Some(tid)
    ensures store.workOrders[id].status == Completed
  {
    id := ApprovalJourney(store, tid, manager, t1, t2);
    var started := store.StartWork(id, manager, t3);
    assert started.Success? && store.workOrders[id].status == InProgress;
    ghost var tables := PartsTables(store.parts, store.workOrderParts, store.ledger);
    SkippedEntriesIgnored(data.partsUsed, id, manager.id, tables);
    assert ApplyParts(data.partsUsed, id, manager.id, tables).Success?;
    var completed := store.CompleteWork(id, data, manager, t4);
    assert completed.Success?;
  }

  /** The path every ticket is meant to take, through a fresh store: filed, turned
      into a work order, approved on both tracks, started, completed without parts,
      resolved, given feedback by its requester and closed. Every step succeeds. */
  method TicketJourney(catalogue: map<PartId, Part>, requester: User, manager: User,
                       title: string, description: string, asset: AssetId, data: CompletionData,
                       rating: int, comments: string, t1: Time, t2: Time, t3: Time, t4: Time)
    returns (feedback: Result<Feedback>, closed: Result<Ticket>)
    requires IsManagerOrAdmin(manager.role)
    requires Consumed(data.partsUsed) == []
    ensures feedback.Success? && feedback.value.user == Some(requester.id) && feedback.value.rating == rating
    ensures closed.Success? && closed.value.status == TicketStatus.Closed
    ensures closed.value.title == title && closed.value.requester == Some(requester.id)
  {
    var store := new Store(catalogue);
    var tid := store.FileTicket(title, description, Some(asset), requester.id);
    var id := WorkOrderJourney(store, tid, manager, data, t1, t2, t3, t4);
    LinkedStatusIs(store.workOrders, tid, id);
    var resolved := store.ResolveTicket(tid, manager);
    assert resolved.Success? && store.tickets[tid].status == Resolved;
    assert !HasFeedback(store.feedbacks, tid);
    feedback := store.SubmitFeedback(tid, requester, rating, comments);
    closed := store.CloseTicket(tid, manager);
  }
}
