# Maintenance work-order and ticket lifecycle

This project models the core of a maintenance-management (CMMS) backend in Dafny and proves properties about it. In that backend a requester files a **ticket** about an asset. A manager turns the ticket into a **work order**, which waits `on_hold` until two independent sign-offs are recorded: maintenance and production. Only then is it released to `open`. A technician (the assignee, or any manager or admin) starts the work, moving it to `in_progress`. The technician then completes it with a work record (root cause, action taken, next recommendation), a list of parts used, and photos. Completing the work writes one junction row per consumed part, one `deduction` record in the inventory ledger, a lower stock level, and one attachment per photo, all in one atomic step. The store writes each deduction with a link to the work order, kept in the model's ledger record as an optional `workOrder` field. This is the corrected behaviour: the ledger model of the source declares no such column, yet the service passes it as a keyword, so as written every completion that uses a part raises `TypeError` and is rolled back (see "## Findings"). Once the work order is completed a manager resolves the ticket. The requester may then leave feedback once, and a manager closes the ticket.

Modules:

- `Common`: shared vocabulary.
  - `Option` and `Result`.
  - Record identities; the clock (`Time`) and uploaded images (`PhotoBlob`) as opaque numbers.
  - The exceptions the services raise: `PermissionError`, `ValueError`, a missing part, database `IntegrityError`s and `TypeError`.
- `CoreModels`: users and roles, the user manager (`create_user`, `create_superuser`), parts and ledger records.
- `TicketModels`, `WorkOrderModels`: the remaining records, their status choices and their defaults.
  - A ticket starts `open`.
  - A work order defaults to `awaiting_approval` and priority 3.
  - A part's stock is a `nat` and defaults to 0 (`NewPart`).
- `Completion`: what completing a work order writes besides the work order itself.
  - `ApplyParts` specifies the parts loop.
  - Reference functions give the rows, ledger records, total quantities and attachments it must produce.
- `WorkOrderRules`, `TicketRules`: one pure transition function per service operation.
  - Each checks its guards in the service's order and either raises or returns the updated record.
- `Services`: class `Store` holds the database tables as fields.
  - Tickets, work orders and parts are maps. Junction rows, photos, feedback and the ledger are sequences.
  - Each service operation is one method. It is proved to agree with its transition function, to leave every table unchanged when it raises, and to keep the cross-table invariant `Valid`:
    - at most one work order per ticket;
    - a released work order has both approvals;
    - a ticket has left `open` exactly when a work order references it;
    - a resolved or closed ticket's work order is completed;
    - junction rows are unique per (work order, part);
    - junction rows and photos belong to completed work orders;
    - there is at most one feedback per ticket, and only on resolved or closed tickets.

Completion is atomic. `CompleteWork` stages the parts loop and the photo loop in locals, which stand for the transaction's pending writes, and assigns the fields only when nothing has raised.

Where the outcome is decided by the database or by Django rather than by a guard in the service code:

- **Stock overdraw.** An overdraw raises `IntegrityError(NonNegativeStock)` and rolls the completion back. The decrement itself is unguarded, but the stock column is a positive-integer field, which the database enforces with a non-negative check.
- **Unknown part.** A consumed entry for an unknown part raises and rolls back (the code's `Part.objects.get`). It is not skipped.
- **Ticket without an asset.** Creating a work order from such a ticket raises `IntegrityError(AssetRequired)`, because the work order's asset column is not nullable.
- **Repeated part.** A part repeated in one `parts_used` list breaks the junction table's `unique_together` rule and aborts the whole completion.

## Model

| member | source | states |
|---|---|---|
| CoreModels.ParseRole | all-models.py:106-115 | a stored role is one of exactly the four choice codes, and reads back as the role with that code |
| CoreModels.ParseRoleCode | all-models.py:106-111 | every role's code reads back as that role |
| CoreModels.CreateUser | all-models.py:81-88 | an empty email is refused first; otherwise the user is created iff every extra field fits the model (the user's columns with values of their kind, the timestamp columns with any value); unspecified fields take the defaults (role requester, active, not staff, not superuser); a password given or not decides whether it is usable |
| CoreModels.SetDefault | all-models.py:91-93 | `setdefault`: a present value wins, an absent key gets the default, other keys are untouched |
| CoreModels.CreateSuperuser | all-models.py:90-99 | staff and superuser default to true and role to admin; an explicit staff flag that is not true is refused before an explicit superuser flag that is not true; after that the result is exactly `create_user` on the completed keyword arguments (so an email is required, an unaccepted keyword raises `TypeError`, the full name is taken as given), and a created superuser is staff and superuser |
| TicketModels.ParseTicketStatus | all-models.py:13-18 | a stored ticket status is one of exactly open, pending, resolved, closed, and reads back as that status |
| TicketModels.ParseTicketStatusCode | all-models.py:13-18 | every ticket status's code reads back as that status |
| TicketModels.NewTicket | all-models.py:20-25 | a filed ticket keeps the given title, description, asset and requester and starts with the default status open |
| CoreModels.NewPart | all-models.py:192-195 | a part created without a stock count has 0 on hand |
| WorkOrderModels.ParseWorkOrderStatus | all-models.py:234-241 | a stored work-order status is one of exactly the six choices, and reads back as that status |
| WorkOrderModels.ParseWorkOrderStatusCode | all-models.py:234-241 | every work-order status's code reads back as that status |
| WorkOrderModels.Blank | all-models.py:243-300 | a work order created with only title, description and asset awaits approval at priority 3, with every nullable column (assignee, ticket, approvals, times, work record) empty |
| Completion.Consumed | all-services.py:144-149 | there are no more consumed entries than submitted ones, and each names a part and a positive quantity |
| Completion.ConsumedIsFilter | all-services.py:144-149 | the consumed entries are exactly the submitted entries that name a part and a positive quantity, each as often as submitted; every such entry is consumed |
| Completion.Deduct | all-services.py:144-168 | one pass of the loop body: a skipped entry changes nothing; otherwise an unknown part raises `PartDoesNotExist` first, then an existing junction row for the pair raises `IntegrityError(UniqueWorkOrderPart)`, then an overdraw raises `IntegrityError(NonNegativeStock)`; on success only that part's stock drops by the quantity, and exactly one row and one deduction linked to the work order are appended |
| Completion.ApplyParts | all-services.py:143-168 | the whole parts loop raises only a missing part, a duplicate junction row or an overdraw |
| Completion.RowsFor | all-services.py:153-157 | one junction row per consumed entry, for this work order, with a positive quantity |
| Completion.DeductionsFor | all-services.py:159-165 | one ledger record per consumed entry: a deduction of a positive quantity by the technician, linked to the work order |
| Completion.Attachments | all-services.py:171-177 | one attachment per uploaded photo, in order, by the technician, without description |
| Completion.FailurePersists | all-services.py:144-168 | the first raising entry decides the outcome of the whole loop; later entries cannot undo it |
| Completion.ApplyPartsRecords | all-services.py:144-165 | on success the catalogue keeps its parts, and exactly the consumed entries' rows and deductions are appended, in order |
| Completion.ApplyPartsStock | all-services.py:167-168 | on success each part's stock is lower by exactly the total quantity consumed for it, and nothing else about the part changes |
| Completion.AppendKeepsUnique | all-models.py:345-347 | adding a row for a pair that has none keeps the junction table's uniqueness rule |
| Completion.ApplyPartsOutcome | all-services.py:143-168 | a successful parts loop keeps the catalogue's parts, appends exactly the consumed entries' rows and deductions in order, keeps the junction table's uniqueness rule and lowers each part's stock by the total consumed for it |
| Completion.ApplyPartsKeepsPairsUnique | all-models.py:345-347 | a successful parts loop never breaks the one-row-per-(work order, part) rule |
| Completion.UnknownPartAborts | all-services.py:151 | a consumed entry naming a part that does not exist aborts the whole completion |
| Completion.RowsForHas | all-services.py:153-157 | every consumed entry's part has its junction row |
| Completion.RepeatedPartAborts | all-services.py:153-157 | two consumed entries for the same part abort the whole completion, since the second junction row would violate `unique_together` (all-models.py:347) |
| Completion.HasRowAppend | all-models.py:345-347 | a (work order, part) pair has a row in two concatenated tables iff it has one in either |
| Completion.RowsForOnlyNamedParts | all-services.py:153-157 | the junction rows of a list hold no row for a part that none of its consumed entries names |
| Completion.ExistingRowAborts | all-services.py:153-157 | a consumed entry for a part that already has a junction row for the work order aborts the whole completion, whatever entries come before it (all-models.py:347) |
| Completion.GoodListSucceeds | all-services.py:143-168 | a parts list goes through the loop when every consumed entry names an existing part with no row yet for the work order, no part is named twice, and no part is asked for beyond its stock; with `UnknownPartAborts`, `ExistingRowAborts`, `RepeatedPartAborts` and `OverdrawAborts`, which show that breaking any of these four conditions aborts the list, this gives both directions of the loop's success condition |
| Completion.OverdrawAborts | all-services.py:167-168 | consuming more of a part than is in stock aborts the whole completion (the column cannot go negative, all-models.py:195) |
| Completion.SkippedEntriesIgnored | all-services.py:148-149 | entries without a part or with a missing or non-positive quantity have no effect: the loop behaves as on the consumed entries alone |
| Completion.LedgerMatchesRows | all-services.py:153-165 | ledger record i deducts the part and quantity of junction row i |
| Completion.RecordsMirrorConsumed | all-services.py:153-165 | row i and ledger record i carry exactly the i-th consumed entry's part and quantity, with the technician and the work order |
| Completion.DeductAsWritten | all-services.py:151-165 | the loop body as written: an unknown part raises `PartDoesNotExist` and an existing junction row raises `IntegrityError(UniqueWorkOrderPart)`, as in `Deduct`; otherwise the ledger record with an undeclared work-order link raises `TypeError`; it succeeds only on a skipped entry, changing nothing |
| Completion.ApplyPartsAsWritten | all-services.py:143-168 | the loop as written raises only a missing part, a duplicate junction row or a type error, and when it succeeds it has written nothing |
| Completion.AsWrittenSucceedsOnlyWithoutParts | all-services.py:159-165 | as written, creating the ledger record with a work-order link that the ledger class lacks (all-models.py:213) makes every completion that consumes a part fail |
| Completion.LedgerLinkCounterexample | all-services.py:159-165 | one well-formed entry for a part in stock: recorded by the corrected loop, a type error as written |
| WorkOrderRules.FromTicket | all-services.py:22-49 | an existing work order for the ticket is refused first, then a resolved or closed ticket; on success the work order copies title, description and asset, links the ticket, is on hold at priority 3 with nothing approved, assigned or started |
| WorkOrderRules.Approve | all-services.py:72-99 | a role other than manager or admin is refused first, then a work order not on hold, then an already approved track; on success only the named track's approver and time are set, and the work order is open iff both approval times are set, otherwise on hold |
| WorkOrderRules.Start | all-services.py:103-117 | only open to in progress, status checked before the assignee-or-manager permission; records the start time and changes nothing else |
| WorkOrderRules.Complete | all-services.py:129-140 | only in progress to completed, status checked before permission; records completion time, root cause, action taken and next recommendation from the data and changes nothing else |
| WorkOrderRules.ApprovalOrderIrrelevant | all-services.py:94-96 | after one approval the work order stays on hold; both orders of the two approvals end in the same open work order |
| WorkOrderRules.ReapprovalRejected | all-services.py:82-92 | once a track is approved, approving it again fails whoever asks, so the first approver and time are never overwritten |
| WorkOrderRules.LifecycleFromTicket | all-services.py:22-140 | a work order created from an unfinished ticket with an asset goes through both approvals, start and completion by a manager |
| TicketRules.Resolve | all-services.py:200-221 | the role is checked first, then that the ticket is pending, then a missing work order and a work order not completed are refused with distinct errors; on success only the status changes, to resolved |
| TicketRules.SubmitFeedback | all-services.py:225-250 | only the original requester, only on a resolved ticket, only if none exists yet; the feedback records ticket, requester, rating and comments as given |
| TicketRules.Close | all-services.py:255-272 | the role is checked first, then that the ticket is resolved; on success only the status changes, to closed |
| TicketRules.ClosedIsFinal | all-services.py:207-208 | a closed ticket can be neither resolved nor closed again, nor take feedback |
| Services.LinkedStatusIs | all-services.py:211 | with at most one work order per ticket, the ticket's work order lookup finds that one |
| Services.CompletionKeepsConsistent | all-services.py:129-177 | completing an in-progress work order, with rows and photos that belong to it, keeps every cross-table invariant |
| Services.WorkOrderUpdateKeepsConsistent | all-services.py:72-117 | replacing a work order while keeping its ticket link, with both approvals recorded whenever it is open, in progress or completed, and with a completed one staying completed, keeps every cross-table invariant |
| Services.RecordsAppendedKeepConsistent | all-services.py:143-177 | junction rows that keep the one-row-per-(work order, part) rule and photos, all belonging to a completed work order, keep every cross-table invariant |
| Services.CreationKeepsConsistent | all-services.py:22-49 | a new on-hold work order under the next id, for a ticket no work order references, with that ticket turned pending, keeps every cross-table invariant |
| Services.TicketUpdateKeepsConsistent | all-services.py:200-272 | moving a ticket that has left open to another status that is not open keeps every cross-table invariant, provided a resolved or closed ticket stays so and its work order is completed |
| Services.FeedbackKeepsConsistent | all-services.py:225-250 | appending the first feedback of a resolved or closed ticket keeps every cross-table invariant |
| Services.StageParts | all-services.py:143-168 | the parts loop computes exactly `ApplyParts`, stopping at the first raising entry |
| Services.StagePhotos | all-services.py:171-177 | the photo loop creates exactly the attachments `Attachments` lists |
| Services.Store.FileTicket | all-models.py:20-25 | a filed ticket gets a fresh id, the given fields and the default status open |
| Services.Store.AssignTechnician | all-models.py:251-257 | assigning a technician changes only the work order's assignee |
| Services.Store.CreateWorkOrderFromTicket | all-services.py:22-49 | behaves as `FromTicket`, where the ticket counts as linked iff some stored work order references it; on success the work order is stored under a fresh id and only the ticket's status changes, to pending; on failure nothing changes |
| Services.Store.ApproveMaintenance | all-services.py:53-59 | the maintenance track of `Approve`; on failure nothing changes |
| Services.Store.ApproveProduction | all-services.py:63-69 | the production track of `Approve`; on failure nothing changes |
| Services.Store.ProcessApproval | all-services.py:72-99 | behaves as `Approve` on the stored work order and stores the result; on failure nothing changes |
| Services.Store.StartWork | all-services.py:103-117 | behaves as `Start` on the stored work order; on failure nothing changes |
| Services.Store.CompleteWork | all-services.py:121-180 | the work-order checks of `Complete` come first, then the parts loop's errors; on success the work order is completed, the rows and deductions of the consumed entries are appended, every part's stock drops by its total consumed quantity, and one attachment per photo is added; on any failure nothing changes. This is the corrected ledger call, with the deductions' work-order link kept as the model's optional `workOrder` field (core_models.dfy); as written, the service raises `TypeError` on every consumed entry (see "## Findings") |
| Services.Store.Commit | all-services.py:120-180 | the end of the atomic completion: the completed work order, the staged parts, rows and ledger, and the new photos are written together and the cross-table invariants hold afterwards |
| Services.Store.ResolveTicket | all-services.py:200-221 | behaves as `Resolve` with the status of the ticket's work order, if any; on failure nothing changes |
| Services.Store.SubmitFeedback | all-services.py:225-250 | behaves as `SubmitFeedback`, where the ticket has feedback iff a stored one references it; the feedback is appended; on failure nothing changes |
| Services.Store.CloseTicket | all-services.py:255-272 | behaves as `Close` on the stored ticket; on failure nothing changes |
| Services.ApprovalJourney | all-services.py:22-99 | an open ticket with an asset gets its work order, which a manager approves on both tracks; every step succeeds, the ticket ends pending and the work order open |
| Services.WorkOrderJourney | all-services.py:22-180 | after the approvals, a manager starts the work order and completes it without parts; every step succeeds, the ticket ends pending and the work order completed |
| Services.TicketJourney | all-services.py:22-272 | on a fresh store a filed ticket goes through creation, both approvals, start, completion without parts, resolution, feedback and closing, every step succeeding and ending closed |

## Left out

- HTTP layer: views, URL routing and serializers are not part of this model. `FileTicket` and `AssignTechnician` stand in for the two CRUD writes the lifecycle needs. The work-order serializer leaves `status` writable, so through that path the store's invariant is not guaranteed; only the service operations are modelled.
- Frontend code and browser automation: not part of this model.
- Concurrency: operations are sequential and each is all-or-nothing. The atomicity of the `F('quantity_on_hand') - quantity` expression and row locking are not modelled.
- Clock values are not modelled: `timezone.now()` is a `now` parameter. `created_at`, `updated_at`, `uploaded_at` and `scheduled_start` are left out, and so is the tickets' ordering by creation time.
- Password hashing and `normalize_email` are foreign calls. Only whether a password was given is recorded, and the email is stored as given. Email uniqueness is not modelled.
- Image files and their storage: a photo is an opaque token.
- `Map`, `Location`, `Asset`, `PmSchedule`, `TicketComment`: records with no behaviour in the service code. An asset is only an id.
- The `awaiting_approval` status is modelled as the default, but no operation leads out of it, and creation from a ticket never uses it.
- Feedback rating: stored as given. The 1-5 range appears only in help text and is not enforced.
- `WorkOrder.objects.get(ticket=...)` raising `MultipleObjectsReturned`: excluded by the store's invariant of at most one work order per ticket.
- CreateUser: a keyword argument naming no field raises `TypeError`, as Django's model constructor does. The timestamp columns `last_login`, `created_at` and `updated_at` are accepted but not recorded. A keyword `id` is refused with `TypeError` here, where Django would use it as the primary key; the id is a parameter of the model instead. A value of the wrong kind for a known field, and a role string outside the four choices, also give `TypeError` here. Django would store such a role without complaint, because saving does not validate choices.
- CompleteWork: on a failure the work order's in-memory object keeps the fields the service set before it raised. Only the database rollback is modelled.
- Identifiers are unbounded numbers handed out by counters instead of random UUIDs. A part id that is missing and one that is an empty string are the same `None`.

## Findings

| source | as written | input that shows it | evidently intended | confidence | as-written member | corrected member |
|---|---|---|---|---|---|---|
| all-services.py:159-165 | the deduction record is created with `work_order=`, but `InventoryTransaction` declares no such field (all-models.py:213 is commented out); Django's model constructor raises `TypeError` for it, and the atomic block rolls the completion back | completing a work order with `parts_used = [{part_id: p, quantity_used: 1}]` for an existing part `p` in stock | every consumed entry yields a deduction record linked to the work order, and completion succeeds | not executed; high for the declared model class | Completion.AsWrittenSucceedsOnlyWithoutParts, Completion.LedgerLinkCounterexample | Completion.ApplyParts (properties: Completion.ApplyPartsRecords, Completion.RecordsMirrorConsumed) |
