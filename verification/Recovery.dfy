/** Recovery inspection: one consistent page of operations with their owners, and
    the guarantee that on a reachable store it never reports an integrity error. */
module Recovery {
  import opened Basics
  import opened Records
  import opened Storage
  import opened Invariant
  import opened Memory

  datatype RecoveryClass =
    | Pending
    | IsReady
    | EvaluateExecution
    | Unknown
    | VerifiedCompletion
    | KnownFailure
    | IsCancelled

  datatype RecoveryItem = RecoveryItem(
    operation: Operation, task: Task, attempt: Option<Attempt>, revocation: Option<Revocation>, class_: RecoveryClass)

  datatype RecoveryPage = RecoveryPage(items: seq<RecoveryItem>, next: Id)

  function Classify(s: OperationState): RecoveryClass {
    match s
    case Planned => Pending
    case Ready => IsReady
    case Executing => EvaluateExecution
    case Verifying => EvaluateExecution
    case UnknownOutcome => Unknown
    case Succeeded => VerifiedCompletion
    case Failed => KnownFailure
    case OperationCancelled => IsCancelled
  }

  predicate Bound(r: Reservation, a: Attempt) {
    r.operationId == a.operationId && r.attemptId == a.id && r.leaseId == a.leaseId && r.generation == a.generation
  }

  function CheckReservations(d: Data, a: Attempt, scopes: seq<string>): Result<()>
    decreases |scopes|
  {
    if scopes == [] then Ok(())
    else
      var r :- Get(d.reservations, scopes[0]);
      if !Bound(r, a) then Err(Integrity) else CheckReservations(d, a, scopes[1..])
  }

  function Inspect(d: Data, op: Operation): Result<RecoveryItem> {
    var task :- Get(d.tasks, op.descriptor.taskId);
    if op.active == "" then Ok(RecoveryItem(op, task, None, None, Classify(op.state)))
    else
      var a :- Get(d.attempts, op.active);
      if a.operationId != op.descriptor.id || a.generation != op.generation then Err(Integrity)
      else
        var revocation := if a.id in d.revocations then Some(d.revocations[a.id]) else None;
        var _ :- if Holds(op) then CheckReservations(d, a, op.descriptor.conflictScope) else Ok(());
        Ok(RecoveryItem(op, task, Some(a), revocation, Classify(op.state)))
  }

  function InspectAll(d: Data, ids: seq<Id>): Result<seq<RecoveryItem>>
    decreases |ids|
  {
    if ids == [] then Ok([])
    else
      var op :- Get(d.ops, ids[0]);
      var item :- Inspect(d, op);
      var rest :- InspectAll(d, ids[1..]);
      Ok([item] + rest)
  }

  function PageIds(d: Data, after: Id, limit: nat): seq<Id> {
    Storage.First(Sorted(OperationIdsAfter(d, after)), limit)
  }

  function InspectRecovery(d: Data, after: Id, limit: int): Result<RecoveryPage> {
    if limit < 1 || limit > MAX_PAGE_SIZE then Err(Integrity)
    else
      var ids := PageIds(d, after, limit);
      var items :- InspectAll(d, ids);
      Ok(RecoveryPage(items, if |ids| == limit then items[|items| - 1].operation.descriptor.id else ""))
  }

  function Prepend(items: seq<RecoveryItem>, r: Result<seq<RecoveryItem>>): Result<seq<RecoveryItem>> {
    var rest :- r;
    Ok(items + rest)
  }

  lemma PrependNone(r: Result<seq<RecoveryItem>>)
    ensures Prepend([], r) == r
  {
    if r.Ok? {
      assert [] + r.value == r.value;
    }
  }

  lemma PrependOne(items: seq<RecoveryItem>, item: RecoveryItem, r: Result<seq<RecoveryItem>>)
    ensures Prepend(items, Prepend([item], r)) == Prepend(items + [item], r)
  {
    if r.Ok? {
      assert items + ([item] + r.value) == (items + [item]) + r.value;
    }
  }

  /** The page loop over one snapshot. */
  method InspectPage(tx: Tx, after: Id, limit: int) returns (r: Result<RecoveryPage>)
    ensures r == InspectRecovery(tx.d, after, limit)
  {
    hide Sorted;
    var ids := tx.OperationsAfter(after, limit);
    if ids.Err? {
      return Err(ids.error);
    }
    var items: seq<RecoveryItem> := [];
    PrependNone(InspectAll(tx.d, ids.value));
    for i := 0 to |ids.value|
      invariant |items| == i
      invariant InspectAll(tx.d, ids.value) == Prepend(items, InspectAll(tx.d, ids.value[i..]))
    {
      assert ids.value[i..] == [ids.value[i]] + ids.value[i + 1..];
      if ids.value[i] !in tx.d.ops {
        return Err(NotFound);
      }
      var item := InspectOne(tx, tx.d.ops[ids.value[i]]);
      if item.Err? {
        return Err(item.error);
      }
      PrependOne(items, item.value, InspectAll(tx.d, ids.value[i + 1..]));
      items := items + [item.value];
    }
    assert ids.value[|ids.value|..] == [];
    assert items + [] == items;
    return Ok(RecoveryPage(items, if |ids.value| == limit then items[|items| - 1].operation.descriptor.id else ""));
  }

  method InspectOne(tx: Tx, op: Operation) returns (r: Result<RecoveryItem>)
    ensures r == Inspect(tx.d, op)
  {
    if op.descriptor.taskId !in tx.d.tasks {
      return Err(NotFound);
    }
    var item := RecoveryItem(op, tx.d.tasks[op.descriptor.taskId], None, None, Classify(op.state));
    if op.active != "" {
      if op.active !in tx.d.attempts {
        return Err(NotFound);
      }
      var a := tx.d.attempts[op.active];
      if a.operationId != op.descriptor.id || a.generation != op.generation {
        return Err(Integrity);
      }
      item := item.(attempt := Some(a));
      if a.id in tx.d.revocations {
        item := item.(revocation := Some(tx.d.revocations[a.id]));
      }
      if Holds(op) {
        for i := 0 to |op.descriptor.conflictScope|
          invariant CheckReservations(tx.d, a, op.descriptor.conflictScope[i..]) ==
                    CheckReservations(tx.d, a, op.descriptor.conflictScope)
        {
          var scope := op.descriptor.conflictScope[i];
          assert op.descriptor.conflictScope[i..] == [scope] + op.descriptor.conflictScope[i + 1..];
          if scope !in tx.d.reservations {
            return Err(NotFound);
          }
          if !Bound(tx.d.reservations[scope], a) {
            return Err(Integrity);
          }
        }
      }
    }
    return Ok(item);
  }

  // ---- it never fails on a consistent store ---------------------------------

  lemma {:induction false} ReservationsCheck(d: Data, id: Id, scopes: seq<string>)
    requires ReservationsSound(d.ops, d.attempts, d.reservations) && ReservationsComplete(d.ops, d.reservations)
    requires id in d.ops && Holds(d.ops[id]) && d.ops[id].active in d.attempts
    requires ActiveOk(d.attempts, id, d.ops[id]) && d.ops[id].active != ""
    requires d.attempts[d.ops[id].active].id == d.ops[id].active
    requires forall s :: s in scopes ==> s in d.ops[id].descriptor.conflictScope
    ensures CheckReservations(d, d.attempts[d.ops[id].active], scopes) == Ok(())
    decreases |scopes|
  {
    if scopes != [] {
      assert scopes[0] in d.ops[id].descriptor.conflictScope;
      assert ReservationOk(d.ops, d.attempts, scopes[0], d.reservations[scopes[0]]);
      ReservationsCheck(d, id, scopes[1..]);
    }
  }

  /** What a page says about one operation: its task, and for work in flight the
      attempt that owns it and whether that attempt was withdrawn. */
  ghost predicate Describes(d: Data, id: Id, item: RecoveryItem) {
    && id in d.ops && item.operation == d.ops[id]
    && d.ops[id].descriptor.taskId in d.tasks && item.task == d.tasks[d.ops[id].descriptor.taskId]
    && item.class_ == Classify(d.ops[id].state)
    && (item.attempt.Some? <==> InFlight(d.ops[id].state))
    && (item.attempt.Some? ==>
          && d.ops[id].active in d.attempts && item.attempt.value == d.attempts[d.ops[id].active]
          && (item.revocation.Some? <==> d.ops[id].active in d.revocations)
          && (item.revocation.Some? ==> item.revocation.value == d.revocations[d.ops[id].active]))
  }

  lemma InspectSucceeds(d: Data, id: Id)
    requires Inv(d) && id in d.ops
    ensures Inspect(d, d.ops[id]).Ok? && Describes(d, id, Inspect(d, d.ops[id]).value)
  {
    hide TasksOk, WorkOk, MessagesOk, LeasesUnique, GenerationsUnique, GenerationsComplete, SettledOk, RecordInv,
         ValidDescriptor, ReservationsSound, ReservationsComplete, CheckReservations;
    var op := d.ops[id];
    assert OperationOk(d.tasks, id, op) && ActiveOk(d.attempts, id, op);
    if op.active != "" {
      assert AttemptOk(d.ops, d.attempts, op.active, d.attempts[op.active]);
      if Holds(op) {
        ReservationsCheck(d, id, op.descriptor.conflictScope);
      }
    }
  }

  lemma {:induction false} InspectAllSucceeds(d: Data, ids: seq<Id>)
    requires Inv(d) && forall k :: k in ids ==> k in d.ops
    ensures InspectAll(d, ids).Ok? && |InspectAll(d, ids).value| == |ids|
    ensures forall i :: 0 <= i < |ids| ==> Describes(d, ids[i], InspectAll(d, ids).value[i])
    decreases |ids|
  {
    hide Inv, Describes, Inspect;
    if ids != [] {
      InspectSucceeds(d, ids[0]);
      InspectAllSucceeds(d, ids[1..]);
    }
  }

  lemma PageIdsStored(d: Data, after: Id, limit: nat)
    ensures forall k :: k in PageIds(d, after, limit) ==> k in d.ops && Less(after, k)
  {
    hide Sorted;
    forall k | k in PageIds(d, after, limit)
      ensures k in d.ops && Less(after, k)
    {
      assert k in Sorted(OperationIdsAfter(d, after));
    }
  }

  /** The operation's row agrees with the rows it refers to: its task is stored, its
      active attempt is its own and of its generation, and an attempt of a mutation in
      flight holds every scope. */
  predicate Agrees(d: Data, op: Operation) {
    && op.descriptor.taskId in d.tasks
    && (op.active != "" ==>
          && op.active in d.attempts
          && d.attempts[op.active].operationId == op.descriptor.id && d.attempts[op.active].generation == op.generation
          && (op.descriptor.effect == Mutation && op.state in {Executing, Verifying, UnknownOutcome} ==>
                forall s :: s in op.descriptor.conflictScope ==>
                  && s in d.reservations
                  && d.reservations[s].operationId == op.descriptor.id && d.reservations[s].attemptId == d.attempts[op.active].id
                  && d.reservations[s].leaseId == d.attempts[op.active].leaseId
                  && d.reservations[s].generation == op.generation))
  }

  lemma {:induction false} ReservationsExactly(d: Data, a: Attempt, scopes: seq<string>)
    ensures CheckReservations(d, a, scopes).Ok? <==>
            forall s :: s in scopes ==> s in d.reservations && Bound(d.reservations[s], a)
    decreases |scopes|
  {
    if scopes != [] {
      ReservationsExactly(d, a, scopes[1..]);
      assert forall s :: s in scopes <==> s == scopes[0] || s in scopes[1..];
    }
  }

  lemma InspectsExactly(d: Data, op: Operation)
    ensures Inspect(d, op).Ok? <==> Agrees(d, op)
  {
    hide CheckReservations;
    if op.active in d.attempts {
      ReservationsExactly(d, d.attempts[op.active], op.descriptor.conflictScope);
    }
  }

  lemma {:induction false} AllInspected(d: Data, ids: seq<Id>)
    requires forall k :: k in ids ==> k in d.ops
    ensures InspectAll(d, ids).Ok? <==> forall k :: k in ids ==> Agrees(d, d.ops[k])
    decreases |ids|
  {
    hide Agrees, Inspect;
    if ids != [] {
      InspectsExactly(d, d.ops[ids[0]]);
      AllInspected(d, ids[1..]);
      assert forall k :: k in ids <==> k == ids[0] || k in ids[1..];
    }
  }

  /** On any store, sound or not, a page is delivered exactly when its limit is from 1
      to 100 and each of its operations agrees with the rows it refers to: damage is
      reported, not listed. */
  lemma PageExactly(d: Data, after: Id, limit: int)
    ensures InspectRecovery(d, after, limit).Ok? <==>
            && 1 <= limit <= 100
            && forall k :: k in PageIds(d, after, limit) ==> k in d.ops && Agrees(d, d.ops[k])
  {
    hide Agrees, PageIds, InspectAll;
    if 1 <= limit <= 100 {
      PageIdsStored(d, after, limit);
      AllInspected(d, PageIds(d, after, limit));
    }
  }

  /** Every legal page of a consistent store is delivered, and describes its
      operations truthfully: no integrity branch is reachable. */
  lemma InspectRecoverySucceeds(d: Data, after: Id, limit: int)
    requires Inv(d) && 1 <= limit <= MAX_PAGE_SIZE
    ensures InspectRecovery(d, after, limit).Ok?
    ensures var ids := PageIds(d, after, limit);
            var page := InspectRecovery(d, after, limit).value;
            && |page.items| == |ids|
            && (forall i :: 0 <= i < |ids| ==> Describes(d, ids[i], page.items[i]))
            && page.next == if |ids| == limit then ids[|ids| - 1] else ""
  {
    hide Inv, InspectAll, PageIds, Describes;
    var ids := PageIds(d, after, limit);
    PageIdsStored(d, after, limit);
    InspectAllSucceeds(d, ids);
    if |ids| == limit {
      OwnId(d, ids[limit - 1], InspectAll(d, ids).value[limit - 1]);
    }
  }

  lemma OwnId(d: Data, id: Id, item: RecoveryItem)
    requires Inv(d) && Describes(d, id, item)
    ensures item.operation.descriptor.id == id
  {
    hide TasksOk, WorkOk, MessagesOk, GraphInv, RecordInv, ValidDescriptor, ReservationsSound, ReservationsComplete;
    assert OperationOk(d.tasks, id, d.ops[id]);
  }

  // ---- following the pages --------------------------------------------------

  function ShownIds(page: RecoveryPage): (ids: seq<Id>)
    ensures |ids| == |page.items|
    ensures forall i :: 0 <= i < |ids| ==> ids[i] == page.items[i].operation.descriptor.id
  {
    seq(|page.items|, i requires 0 <= i < |page.items| => page.items[i].operation.descriptor.id)
  }

  /** A page that names a next cursor leaves fewer operations past it. */
  lemma PageLeads(d: Data, after: Id, limit: int)
    requires Inv(d) && 1 <= limit <= MAX_PAGE_SIZE
    ensures InspectRecovery(d, after, limit).Ok?
    ensures var next := InspectRecovery(d, after, limit).value.next;
            next != "" ==> |OperationIdsAfter(d, next)| < |OperationIdsAfter(d, after)|
  {
    hide Inv, InspectRecovery, PageIds, Describes;
    InspectRecoverySucceeds(d, after, limit);
    if |PageIds(d, after, limit)| == limit {
      NextPageSmaller(d, after, limit);
    }
  }

  /** The operations listed by following `next` until it is empty. */
  ghost function Listing(d: Data, after: Id, limit: int): seq<Id>
    requires Inv(d) && 1 <= limit <= MAX_PAGE_SIZE
    decreases |OperationIdsAfter(d, after)|
  {
    hide Inv, InspectRecovery, OperationIdsAfter;
    PageLeads(d, after, limit);
    var page := InspectRecovery(d, after, limit).value;
    if page.next == "" then ShownIds(page) else ShownIds(page) + Listing(d, page.next, limit)
  }

  lemma NextPageSmaller(d: Data, after: Id, limit: int)
    requires Inv(d) && 1 <= limit <= MAX_PAGE_SIZE && |PageIds(d, after, limit)| == limit
    ensures var last := PageIds(d, after, limit)[limit - 1];
            && |OperationIdsAfter(d, last)| < |OperationIdsAfter(d, after)|
            && last != ""
  {
    hide Inv, PageIds;
    var last := PageIds(d, after, limit)[limit - 1];
    PageIdsStored(d, after, limit);
    assert last in PageIds(d, after, limit);
    assert Less(after, last);
    forall k | k in OperationIdsAfter(d, last)
      ensures k in OperationIdsAfter(d, after) && k != last
    {
      LessTransitive(after, last, k);
      LessIrreflexive(k);
    }
    FewerElements(OperationIdsAfter(d, last), OperationIdsAfter(d, after), last);
  }

  lemma FewerElements<T>(a: set<T>, b: set<T>, x: T)
    requires a <= b - {x} && x in b
    ensures |a| < |b|
  {
    SubsetSize(a, b - {x});
  }

  /** The rest of a sorted set after one page is the sorted set of what lies beyond
      the page's last identifier. */
  lemma SortedSplits(d: Data, after: Id, limit: nat)
    requires limit >= 1 && |PageIds(d, after, limit)| == limit
    ensures var last := PageIds(d, after, limit)[limit - 1];
            Sorted(OperationIdsAfter(d, after)) == PageIds(d, after, limit) + Sorted(OperationIdsAfter(d, last))
  {
    hide Sorted;
    var all := Sorted(OperationIdsAfter(d, after));
    var ids := PageIds(d, after, limit);
    var last := ids[limit - 1];
    var rest := all[limit..];
    assert all == ids + rest;
    assert last == all[limit - 1] && last in all;
    forall x
      ensures x in rest <==> x in OperationIdsAfter(d, last)
    {
      if x in rest {
        var i :| 0 <= i < |rest| && rest[i] == x;
        assert all[limit + i] == x;
        assert Less(all[limit - 1], all[limit + i]);
        assert x in all;
      }
      if x in OperationIdsAfter(d, last) {
        LessTransitive(after, last, x);
        assert x in all;
        var i :| 0 <= i < |all| && all[i] == x;
        if i < limit - 1 {
          LessAsymmetric(all[i], all[limit - 1]);
        } else if i == limit - 1 {
          LessIrreflexive(x);
        } else {
          assert rest[i - limit] == x;
        }
      }
    }
    assert Ascending(rest);
    SameSize(rest, OperationIdsAfter(d, last));
    AscendingUnique(rest, Sorted(OperationIdsAfter(d, last)));
  }

  lemma {:induction false} SameSize(xs: seq<Id>, s: set<Id>)
    requires Ascending(xs) && forall x :: x in xs <==> x in s
    ensures |xs| == |s|
    decreases |xs|
  {
    if xs == [] {
      assert s == {};
    } else {
      assert xs[0] in s;
      forall x
        ensures x in xs[1..] <==> x in s - {xs[0]}
      {
        AscendingTail(xs, x);
      }
      SameSize(xs[1..], s - {xs[0]});
    }
  }

  /** Following the pages over an unchanging store ends, and lists every operation
      past the cursor exactly once in ascending order. */
  lemma {:induction false} ListingIsSorted(d: Data, after: Id, limit: int)
    requires Inv(d) && 1 <= limit <= MAX_PAGE_SIZE
    ensures Listing(d, after, limit) == Sorted(OperationIdsAfter(d, after))
    decreases |OperationIdsAfter(d, after)|
  {
    hide Inv, Sorted, InspectRecovery, PageIds, Describes;
    InspectRecoverySucceeds(d, after, limit);
    var page := InspectRecovery(d, after, limit).value;
    var ids := PageIds(d, after, limit);
    var shown := ShownIds(page);
    forall i | 0 <= i < |ids|
      ensures shown[i] == ids[i]
    {
      OwnId(d, ids[i], page.items[i]);
    }
    assert shown == ids;
    if |ids| == limit {
      NextPageSmaller(d, after, limit);
      SortedSplits(d, after, limit);
      ListingIsSorted(d, page.next, limit);
    } else {
      ShortPage(d, after, limit);
    }
  }

  lemma ShortPage(d: Data, after: Id, limit: nat)
    requires |PageIds(d, after, limit)| != limit
    ensures PageIds(d, after, limit) == Sorted(OperationIdsAfter(d, after))
  {
    hide Sorted;
  }

  /** From the empty cursor the listing is the whole store. */
  lemma ListingIsComplete(d: Data, limit: int)
    requires Inv(d) && 1 <= limit <= MAX_PAGE_SIZE
    ensures Listing(d, "", limit) == Sorted(d.ops.Keys)
  {
    hide TasksOk, WorkOk, MessagesOk, GraphInv, RecordInv, ValidDescriptor, ReservationsSound, ReservationsComplete,
         Listing, Sorted;
    forall k | k in d.ops
      ensures Less("", k)
    {
      assert OperationOk(d.tasks, k, d.ops[k]);
      StoredIdNonempty(d, k);
    }
    assert OperationIdsAfter(d, "") == d.ops.Keys;
    ListingIsSorted(d, "", limit);
  }

  lemma StoredIdNonempty(d: Data, k: Id)
    requires k in d.ops && OperationOk(d.tasks, k, d.ops[k])
    ensures k != ""
  {
  }
}
