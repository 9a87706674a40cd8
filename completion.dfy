/** What completing a work order writes besides the work order itself: for every
    usable entry of the parts list a junction row, a deduction in the inventory
    ledger and a lower stock level; for every uploaded photo an attachment record.
    `ApplyParts` is the specification the completion service's parts loop is
    proved against; the lemmas state what it promises. */
module Completion {
  import opened Common
  import opened CoreModels
  import opened WorkOrderModels

  /** One entry of the `parts_used` list; either key may be missing. */
  datatype PartUsage = PartUsage(partId: Option<PartId>, quantityUsed: Option<int>)

  /** The data a technician submits when completing a work order. A missing
      `parts_used` or `photos` key is an empty list. */
  datatype CompletionData = CompletionData(
    rootCause: Option<string>,
    actionTaken: Option<string>,
    nextOsRecommendation: Option<string>,
    partsUsed: seq<PartUsage>,
    photos: seq<PhotoBlob>)

  /** An entry is consumed when it names a part and a positive quantity; any other
      entry is skipped without effect. */
  predicate Consumes(e: PartUsage)
  {
    e.partId.Some? && e.quantityUsed.Some? && e.quantityUsed.value > 0
  }

  /** The tables the parts loop writes: stock levels, junction rows and the ledger. */
  datatype PartsTables = PartsTables(parts: map<PartId, Part>, rows: seq<WorkOrderPart>, ledger: seq<InventoryTransaction>)

  predicate HasRow(rows: seq<WorkOrderPart>, wo: WorkOrderId, p: PartId)
  {
    exists i :: 0 <= i < |rows| && rows[i].workOrder == wo && rows[i].part == p
  }

  /** The junction table's uniqueness rule: one row per (work order, part). */
  predicate UniquePairs(rows: seq<WorkOrderPart>)
  {
    forall i, j ::
      (0 <= i < |rows| && 0 <= j < |rows| && rows[i].workOrder == rows[j].workOrder && rows[i].part == rows[j].part)
      ==> i == j
  }

  /** One pass of the loop body: look the part up, create the junction row, record
      the deduction and lower the stock. A part that does not exist, a second row for
      the same pair or a stock level that would drop below zero raises. */
  function Deduct(e: PartUsage, wo: WorkOrderId, tech: UserId, s: PartsTables): (r: Result<PartsTables>)
    ensures !Consumes(e) ==> r == Success(s)
    ensures Consumes(e) && e.partId.value !in s.parts ==> r == Failure(PartDoesNotExist)
    ensures (Consumes(e) && e.partId.value in s.parts && HasRow(s.rows, wo, e.partId.value))
      ==> r == Failure(IntegrityError(UniqueWorkOrderPart))
    ensures (Consumes(e) && e.partId.value in s.parts && !HasRow(s.rows, wo, e.partId.value)
             && s.parts[e.partId.value].quantityOnHand < e.quantityUsed.value)
      ==> r == Failure(IntegrityError(NonNegativeStock))
    ensures r.Success? <==> !Consumes(e) || (e.partId.value in s.parts && !HasRow(s.rows, wo, e.partId.value)
                                             && e.quantityUsed.value <= s.parts[e.partId.value].quantityOnHand)
    ensures r.Success? ==> r.value.parts.Keys == s.parts.Keys
    ensures r.Success? && Consumes(e) ==>
      && r.value.parts[e.partId.value].quantityOnHand + e.quantityUsed.value == s.parts[e.partId.value].quantityOnHand
      && (forall p :: p in s.parts && p != e.partId.value ==> r.value.parts[p] == s.parts[p])
      && r.value.rows == s.rows + [WorkOrderPart(wo, e.partId.value, e.quantityUsed.value)]
      && r.value.ledger == s.ledger + [InventoryTransaction(e.partId.value, e.quantityUsed.value, Deduction, Some(tech), Some(wo))]
  {
    if !Consumes(e) then Success(s)
    else
      var p := e.partId.value;
      var q := e.quantityUsed.value;
      if p !in s.parts then Failure(PartDoesNotExist)
      else if HasRow(s.rows, wo, p) then Failure(IntegrityError(UniqueWorkOrderPart))
      else if s.parts[p].quantityOnHand < q then Failure(IntegrityError(NonNegativeStock))
      else
        Success(PartsTables(s.parts[p := s.parts[p].(quantityOnHand := s.parts[p].quantityOnHand - q)],
                      s.rows + [WorkOrderPart(wo, p, q)],
                      s.ledger + [InventoryTransaction(p, q, Deduction, Some(tech), Some(wo))]))
  }

  /** The whole parts loop: the entries in order, the first error aborting all of them. */
  function ApplyParts(entries: seq<PartUsage>, wo: WorkOrderId, tech: UserId, s: PartsTables): (r: Result<PartsTables>)
    ensures r.Failure? ==> r.error in {PartDoesNotExist, IntegrityError(UniqueWorkOrderPart), IntegrityError(NonNegativeStock)}
    decreases |entries|
  {
    if |entries| == 0 then Success(s)
    else
      match ApplyParts(entries[..|entries| - 1], wo, tech, s)
      case Failure(e) => Failure(e)
      case Success(mid) => Deduct(entries[|entries| - 1], wo, tech, mid)
  }

  // ------------------------------------------------------- reference definitions

  /** The entries the loop consumes, in order. */
  function Consumed(entries: seq<PartUsage>): (r: seq<PartUsage>)
    ensures |r| <= |entries|
    ensures forall i :: 0 <= i < |r| ==> Consumes(r[i])
    decreases |entries|
  {
    if |entries| == 0 then []
    else
      var last := entries[|entries| - 1];
      Consumed(entries[..|entries| - 1]) + (if Consumes(last) then [last] else [])
  }

  /** The junction rows a list of entries yields: one per consumed entry. */
  function RowsFor(wo: WorkOrderId, entries: seq<PartUsage>): (r: seq<WorkOrderPart>)
    ensures |r| == |Consumed(entries)|
    ensures forall i :: 0 <= i < |r| ==> r[i].workOrder == wo && r[i].quantityUsed > 0
    decreases |entries|
  {
    if |entries| == 0 then []
    else
      var last := entries[|entries| - 1];
      RowsFor(wo, entries[..|entries| - 1])
        + (if Consumes(last) then [WorkOrderPart(wo, last.partId.value, last.quantityUsed.value)] else [])
  }

  /** The ledger records a list of entries yields: one deduction per consumed entry,
      recording the positive quantity, the technician and the work order. */
  function DeductionsFor(wo: WorkOrderId, tech: UserId, entries: seq<PartUsage>): (r: seq<InventoryTransaction>)
    ensures |r| == |Consumed(entries)|
    ensures forall i :: 0 <= i < |r| ==>
      r[i].transactionType == Deduction && r[i].quantityChanged > 0
      && r[i].user == Some(tech) && r[i].workOrder == Some(wo)
    decreases |entries|
  {
    if |entries| == 0 then []
    else
      var last := entries[|entries| - 1];
      DeductionsFor(wo, tech, entries[..|entries| - 1])
        + (if Consumes(last) then [InventoryTransaction(last.partId.value, last.quantityUsed.value, Deduction, Some(tech), Some(wo))] else [])
  }

  /** The total quantity of part `p` the consumed entries ask for. */
  function TotalUsed(entries: seq<PartUsage>, p: PartId): (n: nat)
    decreases |entries|
  {
    if |entries| == 0 then 0
    else
      var last := entries[|entries| - 1];
      TotalUsed(entries[..|entries| - 1], p)
        + (if Consumes(last) && last.partId.value == p then last.quantityUsed.value else 0)
  }

  /** The attachment records the photo loop creates: one per photo, in order. */
  function Attachments(wo: WorkOrderId, uploader: UserId, photos: seq<PhotoBlob>): (r: seq<WorkOrderPhoto>)
    ensures |r| == |photos|
    ensures forall i :: 0 <= i < |r| ==> r[i] == WorkOrderPhoto(wo, photos[i], uploader, None)
    decreases |photos|
  {
    if |photos| == 0 then []
    else Attachments(wo, uploader, photos[..|photos| - 1]) + [WorkOrderPhoto(wo, photos[|photos| - 1], uploader, None)]
  }

  // ------------------------------------------------------- lemmas

  /** Once a prefix of the list fails, the whole list fails with the same error. */
  lemma {:induction false} FailurePersists(entries: seq<PartUsage>, n: nat, wo: WorkOrderId, tech: UserId, s: PartsTables)
    requires n <= |entries|
    requires ApplyParts(entries[..n], wo, tech, s).Failure?
    ensures ApplyParts(entries, wo, tech, s) == ApplyParts(entries[..n], wo, tech, s)
    decreases |entries| - n
  {
    if n == |entries| {
      assert entries[..n] == entries;
    } else {
      var prefix := entries[..|entries| - 1];
      assert prefix[..n] == entries[..n];
      FailurePersists(prefix, n, wo, tech, s);
    }
  }

  /** On success the parts catalogue keeps its keys, and exactly the rows and the
      deductions of the consumed entries are appended, in order. */
  lemma {:induction false} ApplyPartsRecords(entries: seq<PartUsage>, wo: WorkOrderId, tech: UserId, s: PartsTables)
    requires ApplyParts(entries, wo, tech, s).Success?
    ensures ApplyParts(entries, wo, tech, s).value.parts.Keys == s.parts.Keys
    ensures ApplyParts(entries, wo, tech, s).value.rows == s.rows + RowsFor(wo, entries)
    ensures ApplyParts(entries, wo, tech, s).value.ledger == s.ledger + DeductionsFor(wo, tech, entries)
    decreases |entries|
  {
    if |entries| > 0 {
      var prefix := entries[..|entries| - 1];
      ApplyPartsRecords(prefix, wo, tech, s);
    }
  }

  /** On success each part's stock is lower by exactly the total quantity the
      consumed entries ask for, and nothing else about the part changes. */
  lemma {:induction false} ApplyPartsStock(entries: seq<PartUsage>, wo: WorkOrderId, tech: UserId, s: PartsTables, p: PartId)
    requires ApplyParts(entries, wo, tech, s).Success?
    requires p in s.parts
    ensures p in ApplyParts(entries, wo, tech, s).value.parts
    ensures ApplyParts(entries, wo, tech, s).value.parts[p].quantityOnHand == s.parts[p].quantityOnHand - TotalUsed(entries, p)
    ensures ApplyParts(entries, wo, tech, s).value.parts[p].(quantityOnHand := s.parts[p].quantityOnHand) == s.parts[p]
    decreases |entries|
  {
    if |entries| > 0 {
      var prefix := entries[..|entries| - 1];
      ApplyPartsStock(prefix, wo, tech, s, p);
    }
  }

  lemma AppendKeepsUnique(rows: seq<WorkOrderPart>, row: WorkOrderPart)
    requires UniquePairs(rows) && !HasRow(rows, row.workOrder, row.part)
    ensures UniquePairs(rows + [row])
  {
    var all := rows + [row];
    assert forall i :: 0 <= i < |rows| ==> all[i] == rows[i];
  }

  /** The loop never breaks the junction table's uniqueness rule. */
  lemma {:induction false} ApplyPartsKeepsPairsUnique(entries: seq<PartUsage>, wo: WorkOrderId, tech: UserId, s: PartsTables)
    requires UniquePairs(s.rows)
    requires ApplyParts(entries, wo, tech, s).Success?
    ensures UniquePairs(ApplyParts(entries, wo, tech, s).value.rows)
    decreases |entries|
  {
    if |entries| > 0 {
      var prefix := entries[..|entries| - 1];
      ApplyPartsKeepsPairsUnique(prefix, wo, tech, s);
      var mid := ApplyParts(prefix, wo, tech, s).value;
      var last := entries[|entries| - 1];
      if Consumes(last) {
        AppendKeepsUnique(mid.rows, WorkOrderPart(wo, last.partId.value, last.quantityUsed.value));
      }
    }
  }

  /** What a successful loop leaves behind, in one place: the catalogue's keys, the
      rows and deductions appended in order, the uniqueness rule kept and each part's
      stock lowered by exactly what the list consumed of it. */
  lemma ApplyPartsOutcome(entries: seq<PartUsage>, wo: WorkOrderId, tech: UserId, s: PartsTables)
    requires UniquePairs(s.rows)
    requires ApplyParts(entries, wo, tech, s).Success?
    ensures var t := ApplyParts(entries, wo, tech, s).value;
            && t.parts.Keys == s.parts.Keys
            && t.rows == s.rows + RowsFor(wo, entries)
            && t.ledger == s.ledger + DeductionsFor(wo, tech, entries)
            && UniquePairs(t.rows)
            && forall p :: p in s.parts ==> t.parts[p].quantityOnHand == s.parts[p].quantityOnHand - TotalUsed(entries, p)
  {
    ApplyPartsRecords(entries, wo, tech, s);
    ApplyPartsKeepsPairsUnique(entries, wo, tech, s);
    forall p | p in s.parts
      ensures ApplyParts(entries, wo, tech, s).value.parts[p].quantityOnHand == s.parts[p].quantityOnHand - TotalUsed(entries, p)
    {
      ApplyPartsStock(entries, wo, tech, s, p);
    }
  }

  /** A pair has a row in two concatenated tables iff it has one in either. */
  lemma HasRowAppend(a: seq<WorkOrderPart>, b: seq<WorkOrderPart>, wo: WorkOrderId, p: PartId)
    ensures HasRow(a + b, wo, p) <==> HasRow(a, wo, p) || HasRow(b, wo, p)
  {
    if HasRow(a + b, wo, p) {
      var k :| 0 <= k < |a + b| && (a + b)[k].workOrder == wo && (a + b)[k].part == p;
      if k < |a| {
        assert (a + b)[k] == a[k];
      } else {
        assert (a + b)[k] == b[k - |a|];
      }
    }
    if HasRow(a, wo, p) {
      var k :| 0 <= k < |a| && a[k].workOrder == wo && a[k].part == p;
      assert (a + b)[k] == a[k];
    }
    if HasRow(b, wo, p) {
      var k :| 0 <= k < |b| && b[k].workOrder == wo && b[k].part == p;
      assert (a + b)[|a| + k] == b[k];
    }
  }

  /** The rows of a list hold no row for a part none of its consumed entries names. */
  lemma {:induction false} RowsForOnlyNamedParts(wo: WorkOrderId, entries: seq<PartUsage>, p: PartId)
    requires forall i :: 0 <= i < |entries| && Consumes(entries[i]) ==> entries[i].partId != Some(p)
    ensures !HasRow(RowsFor(wo, entries), wo, p)
    decreases |entries|
  {
    if |entries| > 0 {
      var prefix := entries[..|entries| - 1];
      var last := entries[|entries| - 1];
      assert forall i :: 0 <= i < |prefix| ==> prefix[i] == entries[i];
      RowsForOnlyNamedParts(wo, prefix, p);
      var tail := if Consumes(last) then [WorkOrderPart(wo, last.partId.value, last.quantityUsed.value)] else [];
      HasRowAppend(RowsFor(wo, prefix), tail, wo, p);
      assert !HasRow(tail, wo, p);
    }
  }

  /** The converse of the three ways the loop aborts: a list whose consumed entries
      name existing parts without a row for this work order yet, name each part at
      most once, and ask for no more of any part than is in stock, goes through. */
  lemma {:induction false} GoodListSucceeds(entries: seq<PartUsage>, wo: WorkOrderId, tech: UserId, s: PartsTables)
    requires forall i :: 0 <= i < |entries| && Consumes(entries[i]) ==>
               entries[i].partId.value in s.parts && !HasRow(s.rows, wo, entries[i].partId.value)
    requires forall i, j :: 0 <= i < j < |entries| && Consumes(entries[i]) && Consumes(entries[j]) ==>
               entries[i].partId != entries[j].partId
    requires forall p :: p in s.parts ==> TotalUsed(entries, p) <= s.parts[p].quantityOnHand
    ensures ApplyParts(entries, wo, tech, s).Success?
    decreases |entries|
  {
    if |entries| > 0 {
      var n := |entries| - 1;
      var prefix := entries[..n];
      var last := entries[n];
      assert forall i :: 0 <= i < |prefix| ==> prefix[i] == entries[i];
      GoodListSucceeds(prefix, wo, tech, s);
      if Consumes(last) {
        var p := last.partId.value;
        var mid := ApplyParts(prefix, wo, tech, s).value;
        ApplyPartsRecords(prefix, wo, tech, s);
        ApplyPartsStock(prefix, wo, tech, s, p);
        RowsForOnlyNamedParts(wo, prefix, p);
        HasRowAppend(s.rows, RowsFor(wo, prefix), wo, p);
        assert TotalUsed(entries, p) == TotalUsed(prefix, p) + last.quantityUsed.value;
      }
    }
  }

  /** A consumed entry that names a part not in the catalogue aborts the whole list. */
  lemma UnknownPartAborts(entries: seq<PartUsage>, k: nat, wo: WorkOrderId, tech: UserId, s: PartsTables)
    requires k < |entries| && Consumes(entries[k]) && entries[k].partId.value !in s.parts
    ensures ApplyParts(entries, wo, tech, s).Failure?
  {
    var upTo := entries[..k + 1];
    assert upTo[..k] == entries[..k];
    if ApplyParts(entries[..k], wo, tech, s).Success? {
      ApplyPartsRecords(entries[..k], wo, tech, s);
    }
    assert ApplyParts(upTo, wo, tech, s).Failure?;
    FailurePersists(entries, k + 1, wo, tech, s);
  }

  lemma {:induction false} RowsForHas(wo: WorkOrderId, entries: seq<PartUsage>, j: nat)
    requires j < |entries| && Consumes(entries[j])
    ensures HasRow(RowsFor(wo, entries), wo, entries[j].partId.value)
    decreases |entries|
  {
    var prefix := entries[..|entries| - 1];
    var rows := RowsFor(wo, entries);
    if j < |entries| - 1 {
      RowsForHas(wo, prefix, j);
      var i :| 0 <= i < |RowsFor(wo, prefix)| && RowsFor(wo, prefix)[i].workOrder == wo
        && RowsFor(wo, prefix)[i].part == entries[j].partId.value;
      assert rows[i] == RowsFor(wo, prefix)[i];
    } else {
      assert rows[|rows| - 1].part == entries[j].partId.value;
    }
  }

  /** Two consumed entries for the same part would need two junction rows for one
      (work order, part) pair, so the whole list aborts. */
  lemma RepeatedPartAborts(entries: seq<PartUsage>, j: nat, k: nat, wo: WorkOrderId, tech: UserId, s: PartsTables)
    requires j < k < |entries| && Consumes(entries[j]) && Consumes(entries[k])
    requires entries[j].partId == entries[k].partId
    ensures ApplyParts(entries, wo, tech, s).Failure?
  {
    var upTo := entries[..k + 1];
    assert upTo[..k] == entries[..k];
    var p := entries[k].partId.value;
    if ApplyParts(entries[..k], wo, tech, s).Success? {
      var mid := ApplyParts(entries[..k], wo, tech, s).value;
      ApplyPartsRecords(entries[..k], wo, tech, s);
      RowsForHas(wo, entries[..k], j);
      var rs := RowsFor(wo, entries[..k]);
      var i :| 0 <= i < |rs| && rs[i].workOrder == wo && rs[i].part == p;
      assert mid.rows[|s.rows| + i] == rs[i];
      assert HasRow(mid.rows, wo, p);
    }
    assert ApplyParts(upTo, wo, tech, s).Failure?;
    FailurePersists(entries, k + 1, wo, tech, s);
  }

  /** Asking for more of a part than is in stock aborts the whole list. */
  /** A consumed entry for a part that already has a junction row for this work order
      aborts the whole list, whatever comes before it. */
  lemma ExistingRowAborts(entries: seq<PartUsage>, k: nat, wo: WorkOrderId, tech: UserId, s: PartsTables)
    requires k < |entries| && Consumes(entries[k]) && HasRow(s.rows, wo, entries[k].partId.value)
    ensures ApplyParts(entries, wo, tech, s).Failure?
  {
    var upTo := entries[..k + 1];
    assert upTo[..k] == entries[..k];
    if ApplyParts(entries[..k], wo, tech, s).Success? {
      ApplyPartsRecords(entries[..k], wo, tech, s);
      HasRowAppend(s.rows, RowsFor(wo, entries[..k]), wo, entries[k].partId.value);
    }
    assert ApplyParts(upTo, wo, tech, s).Failure?;
    FailurePersists(entries, k + 1, wo, tech, s);
  }

  lemma OverdrawAborts(entries: seq<PartUsage>, wo: WorkOrderId, tech: UserId, s: PartsTables, p: PartId)
    requires p in s.parts && TotalUsed(entries, p) > s.parts[p].quantityOnHand
    ensures ApplyParts(entries, wo, tech, s).Failure?
  {
    if ApplyParts(entries, wo, tech, s).Success? {
      ApplyPartsStock(entries, wo, tech, s, p);
    }
  }

  /** Skipped entries have no effect at all: the loop behaves as if only the consumed
      entries had been submitted. */
  lemma {:induction false} SkippedEntriesIgnored(entries: seq<PartUsage>, wo: WorkOrderId, tech: UserId, s: PartsTables)
    ensures ApplyParts(entries, wo, tech, s) == ApplyParts(Consumed(entries), wo, tech, s)
    decreases |entries|
  {
    if |entries| > 0 {
      var prefix := entries[..|entries| - 1];
      var last := entries[|entries| - 1];
      SkippedEntriesIgnored(prefix, wo, tech, s);
      if Consumes(last) {
        var c := Consumed(prefix) + [last];
        assert Consumed(entries) == c;
        assert c[..|c| - 1] == Consumed(prefix) && c[|c| - 1] == last;
        assert ApplyParts(c, wo, tech, s) == match ApplyParts(Consumed(prefix), wo, tech, s)
          case Failure(e) => Failure(e)
          case Success(mid) => Deduct(last, wo, tech, mid);
      } else {
        assert Consumed(entries) == Consumed(prefix);
        assert ApplyParts(entries, wo, tech, s) == ApplyParts(prefix, wo, tech, s);
      }
    }
  }

  /** The consumed entries are exactly the submitted entries that name a part and a
      positive quantity, each as often as it was submitted; the others are dropped. */
  lemma {:induction false} ConsumedIsFilter(entries: seq<PartUsage>)
    ensures forall e :: multiset(Consumed(entries))[e] == if Consumes(e) then multiset(entries)[e] else 0
    ensures forall j :: 0 <= j < |entries| && Consumes(entries[j]) ==> entries[j] in Consumed(entries)
    decreases |entries|
  {
    if |entries| > 0 {
      var prefix := entries[..|entries| - 1];
      ConsumedIsFilter(prefix);
      assert entries == prefix + [entries[|entries| - 1]];
    }
  }

  /** The ledger mirrors the junction rows: record i deducts what row i used. */
  lemma {:induction false} LedgerMatchesRows(wo: WorkOrderId, tech: UserId, entries: seq<PartUsage>, i: nat)
    requires i < |RowsFor(wo, entries)|
    ensures i < |DeductionsFor(wo, tech, entries)|
    ensures DeductionsFor(wo, tech, entries)[i].part == RowsFor(wo, entries)[i].part
    ensures DeductionsFor(wo, tech, entries)[i].quantityChanged == RowsFor(wo, entries)[i].quantityUsed
    decreases |entries|
  {
    var prefix := entries[..|entries| - 1];
    if i < |RowsFor(wo, prefix)| {
      LedgerMatchesRows(wo, tech, prefix, i);
    }
  }
  /** Row i and ledger record i both come from the i-th consumed entry: its part and
      its quantity, deducted in the technician's name against the work order. */
  lemma {:induction false} RecordsMirrorConsumed(wo: WorkOrderId, tech: UserId, entries: seq<PartUsage>, i: nat)
    requires i < |Consumed(entries)|
    ensures i < |RowsFor(wo, entries)| && i < |DeductionsFor(wo, tech, entries)|
    ensures RowsFor(wo, entries)[i]
         == WorkOrderPart(wo, Consumed(entries)[i].partId.value, Consumed(entries)[i].quantityUsed.value)
    ensures DeductionsFor(wo, tech, entries)[i]
         == InventoryTransaction(Consumed(entries)[i].partId.value, Consumed(entries)[i].quantityUsed.value,
                                 Deduction, Some(tech), Some(wo))
    decreases |entries|
  {
    var prefix := entries[..|entries| - 1];
    if i < |Consumed(prefix)| {
      RecordsMirrorConsumed(wo, tech, prefix, i);
    }
  }
  // ------------------------------------------------------- the ledger record as written

  /** One pass of the loop body against the ledger class as it is declared, without a
      work-order column: the part lookup and the junction row behave as in `Deduct`,
      but creating the ledger record with a work-order link names a field the class
      does not have, and the record's constructor raises a type error. */
  function DeductAsWritten(e: PartUsage, wo: WorkOrderId, s: PartsTables): (r: Result<PartsTables>)
    ensures r.Success? <==> !Consumes(e)
    ensures r.Success? ==> r.value == s
    ensures Consumes(e) && e.partId.value !in s.parts ==> r == Failure(PartDoesNotExist)
    ensures (Consumes(e) && e.partId.value in s.parts && HasRow(s.rows, wo, e.partId.value))
      ==> r == Failure(IntegrityError(UniqueWorkOrderPart))
    ensures (Consumes(e) && e.partId.value in s.parts && !HasRow(s.rows, wo, e.partId.value)) ==> r == Failure(TypeError)
  {
    if !Consumes(e) then Success(s)
    else if e.partId.value !in s.parts then Failure(PartDoesNotExist)
    else if HasRow(s.rows, wo, e.partId.value) then Failure(IntegrityError(UniqueWorkOrderPart))
    else Failure(TypeError)
  }

  function ApplyPartsAsWritten(entries: seq<PartUsage>, wo: WorkOrderId, s: PartsTables): (r: Result<PartsTables>)
    ensures r.Failure? ==> r.error in {PartDoesNotExist, IntegrityError(UniqueWorkOrderPart), TypeError}
    ensures r.Success? ==> r.value == s
    decreases |entries|
  {
    if |entries| == 0 then Success(s)
    else
      match ApplyPartsAsWritten(entries[..|entries| - 1], wo, s)
      case Failure(e) => Failure(e)
      case Success(mid) => DeductAsWritten(entries[|entries| - 1], wo, mid)
  }

  /** As written, a completion succeeds only when no parts entry is consumed at all,
      and then it writes nothing to the stock tables. */
  lemma {:induction false} AsWrittenSucceedsOnlyWithoutParts(entries: seq<PartUsage>, wo: WorkOrderId, s: PartsTables)
    ensures ApplyPartsAsWritten(entries, wo, s).Success? ==>
              Consumed(entries) == [] && ApplyPartsAsWritten(entries, wo, s).value == s
    decreases |entries|
  {
    if |entries| > 0 {
      AsWrittenSucceedsOnlyWithoutParts(entries[..|entries| - 1], wo, s);
    }
  }

  /** A single well-formed entry for a part in stock: the corrected loop records it,
      the loop as written raises a type error. */
  lemma LedgerLinkCounterexample(p: PartId, q: nat, wo: WorkOrderId, tech: UserId, s: PartsTables)
    requires p in s.parts && 0 < q <= s.parts[p].quantityOnHand && !HasRow(s.rows, wo, p)
    ensures ApplyPartsAsWritten([PartUsage(Some(p), Some(q))], wo, s) == Failure(TypeError)
    ensures ApplyParts([PartUsage(Some(p), Some(q))], wo, tech, s).Success?
  {
    var one := [PartUsage(Some(p), Some(q))];
    assert one[..0] == [];
  }
}
