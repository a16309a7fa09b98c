/** What the collector guarantees: exact row accounting, whole graphs, protected
    work untouched, progress of repeated calls, and completeness of a full pass. */
module Collecting {
  import opened Basics
  import opened Records
  import opened Storage
  import opened Invariant
  import opened Retention
  import opened Shrinking

  // ---- terminal tasks have no pending work ----------------------------------

  lemma TerminalHasNoPending(d: Data, task: Id)
    requires OperationsOk(d.tasks, d.ops) && WorkOk(d.tasks, d.ops)
    requires ReservationsSound(d.ops, d.attempts, d.reservations)
    requires task in d.tasks && Terminal(d.tasks[task].state)
    ensures !HasPending(d, task)
  {
    hide ValidDescriptor;
    forall id, s | OfTask(d.ops, task, id) && s in d.reservations
      ensures d.reservations[s].operationId != id
    {
      assert ReservationOk(d.ops, d.attempts, s, d.reservations[s]);
    }
  }

  // ---- one deletion ---------------------------------------------------------

  /** A piece of a batch: rows are charged against the budget exactly as they
      leave the store. */
  ghost predicate Charged(s: Sweep, s': Sweep) {
    && Inv(s'.d) && Shrunk(s.d, s'.d)
    && s'.out.rows + s'.remaining == s.out.rows + s.remaining && s'.remaining <= s.remaining
    && |Rows(s'.d)| + s'.out.rows == |Rows(s.d)| + s.out.rows
  }

  lemma ChargedNothing(s: Sweep, s': Sweep)
    requires Inv(s.d) && s'.d == s.d && s'.remaining == s.remaining && s'.out.rows == s.out.rows
    ensures Charged(s, s')
  {
    hide Rows, Shrunk, AttemptsOk, EvidenceOk, VerificationsOk, RevocationsOk;
    InvOwned(s.d);
    ShrunkReflexive(s.d);
  }

  lemma ChargedTransitive(s: Sweep, s1: Sweep, s2: Sweep)
    requires Charged(s, s1) && Charged(s1, s2)
    ensures Charged(s, s2)
  {
    hide Inv, Rows, Shrunk;
    ShrunkTransitive(s.d, s1.d, s2.d);
  }

  lemma NotReserved(d: Data, task: Id, op: Id)
    requires !HasPending(d, task) && OfTask(d.ops, task, op)
    ensures !Reserved(d.reservations, op)
  {
  }

  lemma ReservationOwners(d: Data)
    requires ReservationsSound(d.ops, d.attempts, d.reservations)
    ensures forall s :: s in d.reservations ==> d.reservations[s].operationId in d.ops
  {
    forall s | s in d.reservations
      ensures d.reservations[s].operationId in d.ops
    {
      assert ReservationOk(d.ops, d.attempts, s, d.reservations[s]);
    }
  }

  lemma TasksStored(d: Data)
    requires OperationsOk(d.tasks, d.ops)
    ensures forall k :: k in d.ops ==> d.ops[k].descriptor.taskId in d.tasks
  {
    hide ValidDescriptor;
    forall k | k in d.ops
      ensures d.ops[k].descriptor.taskId in d.tasks
    {
      assert OperationOk(d.tasks, k, d.ops[k]);
    }
  }

  lemma RemoveGraph(d: Data, op: Id)
    requires Inv(d) && op in d.ops && !Reserved(d.reservations, op)
    ensures DeleteOperationGraph(d, op) == Ok(WithoutGraph(d, op))
    ensures Inv(WithoutGraph(d, op)) && Shrunk(d, WithoutGraph(d, op))
    ensures |Rows(WithoutGraph(d, op))| + |GraphRows(d, op)| == |Rows(d)|
    ensures WithoutGraph(d, op).ops == d.ops - {op}
    ensures WithoutGraph(d, op).tasks == d.tasks && WithoutGraph(d, op).messages == d.messages
  {
    hide TasksOk, OperationsOk, WorkOk, ReservationsSound, ReservationsComplete, MessagesOk,
         AttemptsOk, LeasesUnique, GenerationsUnique, GenerationsComplete, ActivesOk, SettledOk,
         EvidenceOk, VerificationsOk, RevocationsOk, ProofsOk, Rows, GraphRows, Shrunk, Owned;
    InvOwned(d);
    GraphRemovalShrinks(d, op);
    GraphRemovalRows(d, op);
    ReservationOwners(d);
    TasksStored(d);
    ShrinkKeepsInv(d, WithoutGraph(d, op));
  }

  lemma RemoveMessages(d: Data, ids: set<Id>)
    requires Inv(d) && ids <= d.messages.Keys
    ensures var d' := DeleteMessages(d, ids);
            Inv(d') && Shrunk(d, d') && |Rows(d')| + |ids| == |Rows(d)|
  {
    hide TasksOk, OperationsOk, WorkOk, ReservationsSound, ReservationsComplete, MessagesOk,
         AttemptsOk, LeasesUnique, GenerationsUnique, GenerationsComplete, ActivesOk, SettledOk,
         EvidenceOk, VerificationsOk, RevocationsOk, ProofsOk, Rows, Owned;
    InvOwned(d);
    ShrunkReflexive(d);
    MessageRemovalRows(d, ids);
    ReservationOwners(d);
    TasksStored(d);
    ShrinkKeepsInv(d, DeleteMessages(d, ids));
  }

  lemma RemoveTask(d: Data, task: Id)
    requires Inv(d) && task in d.tasks && OperationsOf(d, task) == {}
    ensures var d' := d.(tasks := d.tasks - {task});
            Inv(d') && Shrunk(d, d') && |Rows(d')| + 1 == |Rows(d)|
  {
    hide TasksOk, OperationsOk, WorkOk, ReservationsSound, ReservationsComplete, MessagesOk,
         AttemptsOk, LeasesUnique, GenerationsUnique, GenerationsComplete, ActivesOk, SettledOk,
         EvidenceOk, VerificationsOk, RevocationsOk, ProofsOk, Rows, Owned;
    var d' := d.(tasks := d.tasks - {task});
    InvOwned(d);
    ShrunkReflexive(d);
    TaskRemovalRows(d, task);
    ReservationOwners(d);
    TasksStored(d);
    forall k | k in d.ops
      ensures d.ops[k].descriptor.taskId != task
    {
      assert k !in OperationsOf(d, task);
    }
    ShrinkKeepsInv(d, d');
  }

  /** An operation that stays keeps all its rows. */
  lemma GraphRowsShrink(d: Data, d': Data, op: Id)
    requires Shrunk(d, d') && op in d'.ops
    ensures GraphRows(d', op) == GraphRows(d, op)
  {
    hide Rows, GraphRows;
    forall r
      ensures r in GraphRows(d', op) <==> r in GraphRows(d, op)
    {
      RowShrinks(d, d', op, r);
    }
  }

  lemma RowShrinks(d: Data, d': Data, op: Id, r: Row)
    requires Shrunk(d, d') && op in d'.ops
    ensures (HasRow(d', r) && Owner(d', r) == Some(op)) <==> (HasRow(d, r) && Owner(d, r) == Some(op))
  {
  }

  // ---- the operations of one task -------------------------------------------

  /** The identifiers still to be visited are stored operations of the task. */
  ghost predicate Visitable(d: Data, task: Id, ids: seq<Id>) {
    Ascending(ids) && forall k :: k in ids ==> OfTask(d.ops, task, k)
  }

  lemma VisitableTail(d: Data, d': Data, task: Id, ids: seq<Id>)
    requires Visitable(d, task, ids) && ids != []
    requires d'.ops == d.ops || d'.ops == d.ops - {ids[0]}
    ensures Visitable(d', task, ids[1..])
    ensures ids[0] !in ids[1..]
  {
    forall k | k in ids[1..]
      ensures OfTask(d'.ops, task, k)
    {
      AscendingTail(ids, k);
    }
    AscendingTail(ids, ids[0]);
  }

  lemma PendingShrinks(d: Data, op: Id, task: Id)
    requires !HasPending(d, task)
    ensures !HasPending(WithoutGraph(d, op), task)
  {
    forall id | OfTask(WithoutGraph(d, op).ops, task, id)
      ensures d.ops[id].state in {Succeeded, Failed, OperationCancelled} && !Reserved(d.reservations, id)
    {
      assert OfTask(d.ops, task, id);
    }
  }

  predicate Fits(n: nat, maxRows: int) {
    n <= maxRows
  }

  ghost predicate AllFit(d: Data, ids: seq<Id>, maxRows: nat) {
    forall k :: k in ids ==> Fits(|GraphRows(d, k)|, maxRows)
  }

  ghost predicate Swept(s: Sweep, s': Sweep, maxRows: nat, ids: seq<Id>) {
    && Charged(s, s')
    && s'.d.tasks == s.d.tasks && s'.d.messages == s.d.messages && s'.out.next == s.out.next
    && (forall k :: k in s.d.ops && k !in s'.d.ops ==> k in ids)
    && (s'.stopped ==> s'.out.more && s'.remaining < maxRows)
    && (!s'.stopped && !s'.skipped ==> forall k :: k in ids ==> k !in s'.d.ops)
    && (AllFit(s.d, ids, maxRows) && !s.skipped ==> !s'.skipped)
    && (s.skipped ==> s'.skipped)
    && s'.out.more == (s.out.more || s'.stopped)
  }

  /** Visiting the operations of a task never fails, charges every removal, touches
      nothing but those operations, and stops only when the budget is used. */
  lemma {:induction false} SweepOperationsStep(s: Sweep, maxRows: nat, task: Id, ids: seq<Id>)
    requires Inv(s.d) && !HasPending(s.d, task) && Visitable(s.d, task, ids) && !s.stopped
    ensures SweepOperations(s, maxRows, ids).Ok?
    ensures Swept(s, SweepOperations(s, maxRows, ids).value, maxRows, ids)
    decreases |ids|
  {
    hide Inv, HasPending, Shrunk, GraphRows, Rows;
    if ids == [] {
      ChargedNothing(s, s);
    } else {
      var n := |GraphRows(s.d, ids[0])|;
      assert OfTask(s.d.ops, task, ids[0]);
      if n > maxRows {
        var s1 := s.(out := s.out.(oversized := s.out.oversized + 1), skipped := true);
        VisitableTail(s.d, s.d, task, ids);
        SweepOperationsStep(s1, maxRows, task, ids[1..]);
        ChargedNothing(s, s1);
        ChargedTransitive(s, s1, SweepOperations(s1, maxRows, ids[1..]).value);
        assert !Fits(n, maxRows);
      } else if n > s.remaining {
        ChargedNothing(s, Stop(s));
      } else {
        SweepOneGraph(s, maxRows, task, ids);
      }
    }
  }

  lemma {:induction false} SweepOneGraph(s: Sweep, maxRows: nat, task: Id, ids: seq<Id>)
    requires Inv(s.d) && !HasPending(s.d, task) && Visitable(s.d, task, ids) && !s.stopped
    requires ids != [] && |GraphRows(s.d, ids[0])| <= maxRows && |GraphRows(s.d, ids[0])| <= s.remaining
    ensures SweepOperations(s, maxRows, ids).Ok?
    ensures Swept(s, SweepOperations(s, maxRows, ids).value, maxRows, ids)
    decreases |ids|, 0
  {
    hide Inv, HasPending, Shrunk, GraphRows, Rows, WithoutGraph, Swept, AllFit;
    var n := |GraphRows(s.d, ids[0])|;
    assert OfTask(s.d.ops, task, ids[0]);
    NotReserved(s.d, task, ids[0]);
    RemoveGraph(s.d, ids[0]);
    var d1 := WithoutGraph(s.d, ids[0]);
    var s1 := s.(d := d1, remaining := s.remaining - n,
                 out := s.out.(rows := s.out.rows + n, operations := s.out.operations + 1));
    PendingShrinks(s.d, ids[0], task);
    VisitableTail(s.d, d1, task, ids);
    SweepOperationsStep(s1, maxRows, task, ids[1..]);
    if AllFit(s.d, ids, maxRows) {
      FitTail(s.d, d1, task, ids, maxRows);
    }
    ExtendSwept(s, s1, SweepOperations(s1, maxRows, ids[1..]).value, maxRows, ids);
  }

  lemma ExtendSwept(s: Sweep, s1: Sweep, s': Sweep, maxRows: nat, ids: seq<Id>)
    requires ids != [] && Charged(s, s1) && Swept(s1, s', maxRows, ids[1..])
    requires s1.d.ops == s.d.ops - {ids[0]} && s1.d.tasks == s.d.tasks && s1.d.messages == s.d.messages
    requires s1.out.next == s.out.next && s1.out.more == s.out.more && s1.skipped == s.skipped
    requires AllFit(s.d, ids, maxRows) ==> AllFit(s1.d, ids[1..], maxRows)
    ensures Swept(s, s', maxRows, ids)
  {
    hide Charged, AllFit;
    ChargedTransitive(s, s1, s');
    assert Shrunk(s1.d, s'.d) by { ChargedShrinks(s1, s'); }
    GoneStaysGone(s1.d, s'.d, ids[0]);
  }

  lemma ChargedShrinks(s: Sweep, s': Sweep)
    requires Charged(s, s')
    ensures Shrunk(s.d, s'.d) && Inv(s'.d)
  {
    hide Inv, Shrunk;
  }

  lemma FitTail(d: Data, d1: Data, task: Id, ids: seq<Id>, maxRows: nat)
    requires ids != [] && AllFit(d, ids, maxRows) && Shrunk(d, d1) && Visitable(d1, task, ids[1..])
    ensures AllFit(d1, ids[1..], maxRows)
  {
    hide Shrunk, GraphRows;
    forall k | k in ids[1..]
      ensures Fits(|GraphRows(d1, k)|, maxRows)
    {
      assert OfTask(d1.ops, task, k) && k in ids;
      GraphRowsShrink(d, d1, k);
    }
  }

  lemma GoneStaysGone(d: Data, d': Data, op: Id)
    requires Shrunk(d, d') && op !in d.ops
    ensures op !in d'.ops
  {
  }

  // ---- pruning messages -----------------------------------------------------

  ghost predicate Pruned(s: Sweep, s': Sweep, task: Id, orphan: bool, now: int, floor: int) {
    && Charged(s, s')
    && s'.d == s.d.(messages := s'.d.messages) && s'.out.next == s.out.next && s'.out.more == s.out.more
    && s'.skipped == s.skipped && s'.stopped == s.stopped && Sub(s.d.messages, s'.d.messages)
    && (forall k :: k in s.d.messages && k !in s'.d.messages ==> k in Expired(s.d, task, orphan, now, floor))
    && (s'.remaining > 0 ==> forall k :: k in Expired(s.d, task, orphan, now, floor) ==> k !in s'.d.messages)
  }

  lemma MembersOfPrefix(s: set<Id>, ids: seq<Id>)
    requires ids <= Sorted(s)
    ensures |Members(ids)| == |ids| && Members(ids) <= s
  {
    hide Sorted;
    forall i, j | 0 <= i < j < |ids|
      ensures ids[i] != ids[j]
    {
      assert Less(Sorted(s)[i], Sorted(s)[j]);
      LessAsymmetric(ids[i], ids[j]);
    }
    forall k | k in ids
      ensures k in s
    {
      assert k in Sorted(s);
    }
    DistinctMembers(ids);
  }

  lemma {:induction false} DistinctMembers(ids: seq<Id>)
    requires forall i, j :: 0 <= i < j < |ids| ==> ids[i] != ids[j]
    ensures |Members(ids)| == |ids|
    decreases |ids|
  {
    if ids != [] {
      DistinctMembers(ids[1..]);
      assert Members(ids) == {ids[0]} + Members(ids[1..]);
      assert ids[0] !in Members(ids[1..]);
    }
  }

  /** Pruning never fails while budget is left, and leaves lapsed messages behind
      only when the budget is used up. */
  lemma PruneStep(s: Sweep, task: Id, orphan: bool, now: int, floor: int)
    requires Inv(s.d) && 1 <= s.remaining <= MAX_GC_ROWS
    ensures Prune(s, task, orphan, now, floor).Ok?
    ensures Pruned(s, Prune(s, task, orphan, now, floor).value, task, orphan, now, floor)
  {
    hide Inv, Sorted, Shrunk, Rows, MatchesMessage, Lapsed;
    var all := Expired(s.d, task, orphan, now, floor);
    var ids := First(Sorted(all), s.remaining);
    MembersOfPrefix(all, ids);
    RemoveMessages(s.d, Members(ids));
    var s' := Prune(s, task, orphan, now, floor).value;
    if s'.remaining > 0 {
      assert ids == Sorted(all);
      assert forall k :: k in all ==> k in Sorted(all);
    }
  }

  // ---- one task -------------------------------------------------------------

  /** A task a full pass must remove: its messages are safe and each of its
      operations fits the budget. */
  ghost predicate Removable(d: Data, o: GCOptions, floor: int, task: Id) {
    && MessagesSafe(d, task, Unix(o.now), floor)
    && forall k :: OfTask(d.ops, task, k) ==> Fits(|GraphRows(d, k)|, o.maxRows)
  }

  ghost predicate Quiet(d: Data, task: Id, now: int, floor: int) {
    forall k :: k in d.messages && d.messages[k].taskId == task ==> Lapsed(d.messages[k], now, floor)
  }

  ghost predicate TaskSwept(s: Sweep, s': Sweep, o: GCOptions, floor: int, task: Id) {
    && Charged(s, s')
    && (forall k :: k in s.d.ops && k !in s'.d.ops ==> OfTask(s.d.ops, task, k))
    && (forall k :: k in s.d.tasks && k !in s'.d.tasks ==> k == task)
    && (forall k :: k in s.d.messages && k !in s'.d.messages ==>
          s.d.messages[k].taskId == task && Lapsed(s.d.messages[k], Unix(o.now), floor))
    && (s'.d == s.d || MessagesSafe(s.d, task, Unix(o.now), floor))
    && (s'.stopped ==> s'.out.more && s'.remaining < o.maxRows)
    && (s'.stopped ==> s'.out.next == s.out.next || (s'.out.next == task && task !in s'.d.tasks))
    && (!s'.stopped ==> s'.out.next == task && !s'.out.more)
    && (!s'.stopped && Removable(s.d, o, floor, task) ==> task !in s'.d.tasks)
  }

  lemma SafeIsQuiet(d: Data, task: Id, now: int, floor: int)
    requires MessagesSafe(d, task, now, floor)
    ensures Quiet(d, task, now, floor)
  {
    forall k | k in d.messages && d.messages[k].taskId == task
      ensures Lapsed(d.messages[k], now, floor)
    {
      assert !UnsafeMessage(d, task, now, floor, d.messages[k]);
    }
  }

  lemma SortedVisitable(d: Data, task: Id, maxRows: nat)
    ensures Visitable(d, task, First(Sorted(OperationsOf(d, task)), maxRows))
  {
    hide Sorted;
    var all := Sorted(OperationsOf(d, task));
    var ids := First(all, maxRows);
    forall k | k in ids
      ensures OfTask(d.ops, task, k)
    {
      assert k in all;
    }
  }

  lemma FewerRows(d: Data, d': Data, op: Id)
    requires Shrunk(d, d') && op in d.ops && op !in d'.ops
    ensures |Rows(d')| < |Rows(d)|
  {
    hide Rows;
    forall r | r in Rows(d')
      ensures r in Rows(d)
    {
      RowInherited(d, d', r);
    }
    assert HasRow(d, OpRow(op)) && !HasRow(d', OpRow(op));
    assert Rows(d') <= Rows(d) - {OpRow(op)};
    SubsetSize(Rows(d'), Rows(d) - {OpRow(op)});
  }

  lemma RowInherited(d: Data, d': Data, r: Row)
    requires Shrunk(d, d') && HasRow(d', r)
    ensures HasRow(d, r)
  {
  }

  /** All operations are gone: prune the messages, then drop the task itself. */
  lemma FinishTask(s: Sweep, s1: Sweep, o: GCOptions, floor: int, task: Id)
    requires LegalBudget(o) && Visited(s, s1, o, floor, task) && s.remaining <= o.maxRows && !s1.stopped
    requires task in s.d.tasks && MessagesSafe(s.d, task, Unix(o.now), floor)
    requires OperationsOf(s1.d, task) == {} && s1.remaining > 0
    ensures var p := Prune(s1, task, false, Unix(o.now), floor);
            && p.Ok?
            && var s2 := p.value;
            if HasMessages(s2.d, task) || s2.remaining == 0 then TaskSwept(s, Stop(s2), o, floor, task)
            else
              && DeleteTask(s2.d, task).Ok?
              && var s3 := s2.(d := DeleteTask(s2.d, task).value, remaining := s2.remaining - 1,
                               out := s2.out.(rows := s2.out.rows + 1, tasks := s2.out.tasks + 1, next := task));
              && TaskSwept(s, if s3.remaining == 0 then Stop(s3) else s3, o, floor, task)
  {
    hide Inv, Shrunk, Rows, Lapsed, TaskSwept, Visited, Pruned, HasMessages, OperationsOf, Prune, Quiet, MessagesSafe;
    SafeIsQuiet(s.d, task, Unix(o.now), floor);
    VisitedShrinks(s, s1, o, floor, task);
    PruneStep(s1, task, false, Unix(o.now), floor);
    var s2 := Prune(s1, task, false, Unix(o.now), floor).value;
    if s2.remaining == 0 {
      PrunedStop(s, s1, s2, o, floor, task);
    } else {
      PrunedShrinks(s1, s2, task, Unix(o.now), floor);
      AllPruned(s1, s2, task, Unix(o.now), floor);
      RemoveTask(s2.d, task);
      var s3 := s2.(d := DeleteTask(s2.d, task).value, remaining := s2.remaining - 1,
                    out := s2.out.(rows := s2.out.rows + 1, tasks := s2.out.tasks + 1, next := task));
      TaskDropped(s, s1, s2, s3, o, floor, task);
    }
  }

  lemma VisitedShrinks(s: Sweep, s1: Sweep, o: GCOptions, floor: int, task: Id)
    requires Visited(s, s1, o, floor, task)
    ensures Inv(s1.d) && Shrunk(s.d, s1.d) && s1.remaining <= s.remaining
    ensures s1.d.tasks == s.d.tasks
    ensures Quiet(s.d, task, Unix(o.now), floor) ==> Quiet(s1.d, task, Unix(o.now), floor)
  {
    hide Inv, Shrunk, Rows, Removable, Lapsed;
  }

  lemma PrunedShrinks(s1: Sweep, s2: Sweep, task: Id, now: int, floor: int)
    requires Pruned(s1, s2, task, false, now, floor)
    ensures Inv(s2.d) && Shrunk(s1.d, s2.d) && s2.d.tasks == s1.d.tasks
    ensures s2.remaining <= s1.remaining && s2.stopped == s1.stopped
  {
    hide Inv, Shrunk, Rows;
  }

  lemma PrunedStop(s: Sweep, s1: Sweep, s2: Sweep, o: GCOptions, floor: int, task: Id)
    requires LegalBudget(o) && Visited(s, s1, o, floor, task) && MessagesSafe(s.d, task, Unix(o.now), floor)
    requires Pruned(s1, s2, task, false, Unix(o.now), floor) && s2.remaining == 0
    ensures TaskSwept(s, Stop(s2), o, floor, task)
  {
    hide Inv, Shrunk, Rows, Removable, Lapsed, OperationsOf, Charged, MessagesSafe;
    ChargedTransitive(s, s1, s2);
    ChargedAlike(s, s2, Stop(s2));
  }

  lemma ChargedAlike(s: Sweep, s1: Sweep, s2: Sweep)
    requires Charged(s, s1) && s2.d == s1.d && s2.remaining == s1.remaining && s2.out.rows == s1.out.rows
    ensures Charged(s, s2)
  {
    hide Inv, Shrunk, Rows;
  }

  lemma TaskDropped(s: Sweep, s1: Sweep, s2: Sweep, s3: Sweep, o: GCOptions, floor: int, task: Id)
    requires LegalBudget(o) && Visited(s, s1, o, floor, task) && MessagesSafe(s.d, task, Unix(o.now), floor)
    requires Pruned(s1, s2, task, false, Unix(o.now), floor) && !s1.stopped
    requires Charged(s2, s3) && s3.remaining < s2.remaining <= o.maxRows
    requires s3.d == s2.d.(tasks := s2.d.tasks - {task}) && s3.out == s2.out.(rows := s3.out.rows, tasks := s3.out.tasks, next := task)
    requires s3.stopped == s2.stopped
    ensures TaskSwept(s, if s3.remaining == 0 then Stop(s3) else s3, o, floor, task)
  {
    hide Inv, Shrunk, Rows, Removable, Lapsed, OperationsOf, Charged, MessagesSafe;
    ChargedTransitive(s, s1, s2);
    ChargedTransitive(s, s2, s3);
    ChargedAlike(s, s3, Stop(s3));
  }

  lemma AllPruned(s1: Sweep, s2: Sweep, task: Id, now: int, floor: int)
    requires Pruned(s1, s2, task, false, now, floor) && s2.remaining > 0
    requires Quiet(s1.d, task, now, floor) && OperationsOf(s1.d, task) == {}
    requires Shrunk(s1.d, s2.d)
    ensures !HasMessages(s2.d, task) && OperationsOf(s2.d, task) == {}
  {
    hide Lapsed, Charged;
    forall k | k in s2.d.messages
      ensures s2.d.messages[k].taskId != task
    {
      assert k !in Expired(s1.d, task, false, now, floor);
    }
  }

  lemma SweepTaskStep(s: Sweep, o: GCOptions, floor: int, task: Id)
    requires LegalBudget(o) && Inv(s.d) && s.remaining <= o.maxRows && !s.stopped && !s.out.more
    requires task in s.d.tasks && Terminal(s.d.tasks[task].state)
    ensures SweepTask(s, o, floor, task).Ok?
    ensures TaskSwept(s, SweepTask(s, o, floor, task).value, o, floor, task)
  {
    hide Inv, Shrunk, Rows, GraphRows, HasPending, Charged, Removable, MessagesSafe, OperationsOf, TaskSwept, Swept,
         SweepOperations, Prune, Sorted, Visitable;
    assert !HasPending(s.d, task) by { SettledTask(s.d, task); }
    if !MessagesSafe(s.d, task, Unix(o.now), floor) {
      DeferredTask(s, Defer(s, task), o, floor, task);
    } else {
      var ids := First(Sorted(OperationsOf(s.d, task)), o.maxRows);
      var s0 := s.(skipped := false);
      SortedVisitable(s.d, task, o.maxRows);
      SweepOperationsStep(s0, o.maxRows, task, ids);
      var s1 := SweepOperations(s0, o.maxRows, ids).value;
      OperationsVisited(s, s1, o, floor, task, ids);
      OperationsSwept(s, s1, o, floor, task);
      if !s1.stopped && OperationsOf(s1.d, task) == {} && s1.remaining > 0 {
        FinishTask(s, s1, o, floor, task);
      }
    }
  }

  lemma SettledTask(d: Data, task: Id)
    requires Inv(d) && task in d.tasks && Terminal(d.tasks[task].state)
    ensures !HasPending(d, task)
  {
    hide TasksOk, OperationsOk, WorkOk, ReservationsSound, ReservationsComplete, MessagesOk, HasPending,
         AttemptsOk, LeasesUnique, GenerationsUnique, GenerationsComplete, ActivesOk, SettledOk,
         EvidenceOk, VerificationsOk, RevocationsOk, ProofsOk;
    TerminalHasNoPending(d, task);
  }

  lemma DeferredTask(s: Sweep, s': Sweep, o: GCOptions, floor: int, task: Id)
    requires Inv(s.d) && s' == Defer(s, task) && !s.stopped && !s.out.more
    requires !MessagesSafe(s.d, task, Unix(o.now), floor)
    ensures TaskSwept(s, s', o, floor, task)
  {
    hide Inv, MessagesSafe, Charged, GraphRows;
    ChargedNothing(s, s');
  }

  /** What the visited operations leave of the task. */
  ghost predicate Visited(s: Sweep, s1: Sweep, o: GCOptions, floor: int, task: Id) {
    && Charged(s, s1)
    && s1.d.tasks == s.d.tasks && s1.d.messages == s.d.messages && s1.out.next == s.out.next
    && (forall k :: k in s.d.ops && k !in s1.d.ops ==> OfTask(s.d.ops, task, k))
    && (s1.stopped ==> s1.out.more && s1.remaining < o.maxRows)
    && (!s1.stopped ==> !s1.out.more)
    && (!s1.stopped && !s1.skipped && OperationsOf(s1.d, task) != {} ==> s1.remaining < o.maxRows)
    && (Removable(s.d, o, floor, task) ==> !s1.skipped)
  }

  lemma OperationsVisited(s: Sweep, s1: Sweep, o: GCOptions, floor: int, task: Id, ids: seq<Id>)
    requires LegalBudget(o) && s.remaining <= o.maxRows && !s.out.more
    requires ids == First(Sorted(OperationsOf(s.d, task)), o.maxRows)
    requires Swept(s.(skipped := false), s1, o.maxRows, ids)
    ensures Visited(s, s1, o, floor, task)
  {
    hide Inv, Shrunk, Rows, GraphRows, Sorted, MessagesSafe;
    var all := Sorted(OperationsOf(s.d, task));
    forall k | k in ids
      ensures OfTask(s.d.ops, task, k)
    {
      assert k in all;
    }
    if !s1.stopped && !s1.skipped && OperationsOf(s1.d, task) != {} {
      SomeVisited(s, s1, task, ids, o.maxRows);
      FewerRows(s.d, s1.d, ids[0]);
    }
  }

  lemma SomeVisited(s: Sweep, s1: Sweep, task: Id, ids: seq<Id>, maxRows: nat)
    requires maxRows > 0 && Shrunk(s.d, s1.d) && OperationsOf(s1.d, task) != {}
    requires ids == First(Sorted(OperationsOf(s.d, task)), maxRows)
    ensures ids != [] && ids[0] in s.d.ops
  {
    hide Sorted;
    var k :| k in OperationsOf(s1.d, task);
    assert k in OperationsOf(s.d, task);
    assert k in Sorted(OperationsOf(s.d, task));
    assert ids[0] in Sorted(OperationsOf(s.d, task));
  }

  lemma OperationsSwept(s: Sweep, s1: Sweep, o: GCOptions, floor: int, task: Id)
    requires LegalBudget(o) && MessagesSafe(s.d, task, Unix(o.now), floor) && Visited(s, s1, o, floor, task)
    ensures s1.stopped ==> TaskSwept(s, s1, o, floor, task)
    ensures !s1.stopped && OperationsOf(s1.d, task) != {} && s1.skipped ==> TaskSwept(s, Defer(s1, task), o, floor, task)
    ensures !s1.stopped && OperationsOf(s1.d, task) != {} && !s1.skipped ==> TaskSwept(s, Stop(s1), o, floor, task)
    ensures !s1.stopped && s1.remaining == 0 ==> TaskSwept(s, Stop(s1), o, floor, task)
  {
    hide Inv, Shrunk, Rows, Removable, MessagesSafe, OperationsOf, Lapsed;
  }

  // ---- the task loop --------------------------------------------------------

  predicate Old(d: Data, o: GCOptions, task: Id) {
    task in d.tasks && Terminal(d.tasks[task].state) && Unix(d.tasks[task].updatedAt) < Deadline(o)
  }

  /** The message names no stored operation or attempt of another task. */
  predicate OwnWork(d: Data, m: Message) {
    && (m.operationId in d.ops ==> TaskOfOperation(d, m.operationId) == m.taskId)
    && (m.attemptId in d.attempts ==> TaskOfOperation(d, d.attempts[m.attemptId].operationId) == m.taskId)
  }

  /** A task of `d` whose rows may go on the way to `d'`: terminal and past retention,
      with all its messages lapsed, and none that names an operation or attempt of
      another task that is still there. */
  ghost predicate Fair(d: Data, d': Data, o: GCOptions, floor: int, task: Id) {
    && Old(d, o, task)
    && forall k :: k in d.messages && d.messages[k].taskId == task ==>
         Lapsed(d.messages[k], Unix(o.now), floor) && OwnWork(d', d.messages[k])
  }

  lemma OwnWorkStays(d: Data, d': Data, m: Message)
    requires Shrunk(d, d') && OwnWork(d, m)
    ensures OwnWork(d', m)
  {
  }

  /** Whatever left belonged to a task whose rows may go. */
  ghost predicate Spared(d: Data, d': Data, o: GCOptions, floor: int) {
    && (forall k :: k in d.ops && k !in d'.ops ==> Fair(d, d', o, floor, d.ops[k].descriptor.taskId))
    && (forall k :: k in d.tasks && k !in d'.tasks ==> Fair(d, d', o, floor, k))
    && (forall k :: k in d.messages && k !in d'.messages ==>
          && Lapsed(d.messages[k], Unix(o.now), floor) && Fair(d, d', o, floor, d.messages[k].taskId))
  }

  lemma FairLater(d: Data, d1: Data, d2: Data, o: GCOptions, floor: int, task: Id)
    requires Fair(d, d1, o, floor, task) && Shrunk(d1, d2)
    ensures Fair(d, d2, o, floor, task)
  {
    hide Lapsed, OwnWork, Shrunk, Old;
    forall k | k in d.messages && d.messages[k].taskId == task
      ensures OwnWork(d2, d.messages[k])
    {
      OwnWorkStays(d1, d2, d.messages[k]);
    }
  }

  lemma FairEarlier(d: Data, d1: Data, d2: Data, o: GCOptions, floor: int, task: Id)
    requires Shrunk(d, d1) && Spared(d, d1, o, floor) && Shrunk(d1, d2) && Fair(d1, d2, o, floor, task)
    ensures Fair(d, d2, o, floor, task)
  {
    hide Lapsed, OwnWork, WholeGraphs;
    forall k | k in d.messages && d.messages[k].taskId == task
      ensures Lapsed(d.messages[k], Unix(o.now), floor) && OwnWork(d2, d.messages[k])
    {
      if k in d1.messages {
        assert d1.messages[k] == d.messages[k];
      } else {
        OwnWorkStays(d1, d2, d.messages[k]);
      }
    }
  }

  lemma SparedTransitive(d: Data, d1: Data, d2: Data, o: GCOptions, floor: int)
    requires Shrunk(d, d1) && Shrunk(d1, d2) && Spared(d, d1, o, floor) && Spared(d1, d2, o, floor)
    ensures Spared(d, d2, o, floor)
  {
    hide Lapsed, Fair, WholeGraphs;
    forall t | Fair(d, d1, o, floor, t)
      ensures Fair(d, d2, o, floor, t)
    {
      FairLater(d, d1, d2, o, floor, t);
    }
    forall t | Fair(d1, d2, o, floor, t)
      ensures Fair(d, d2, o, floor, t)
    {
      FairEarlier(d, d1, d2, o, floor, t);
    }
  }

  lemma TaskSweptSpares(s: Sweep, s': Sweep, o: GCOptions, floor: int, task: Id)
    requires TaskSwept(s, s', o, floor, task) && Old(s.d, o, task)
    ensures Spared(s.d, s'.d, o, floor)
  {
    hide Inv, Rows, Shrunk, Lapsed, Removable, MessagesSafe, Fair, Old;
    if s'.d != s.d {
      SafeIsFair(s.d, s'.d, o, floor, task);
    }
  }

  /** The guard of the source, seen from the end of the task's sweep. */
  lemma SafeIsFair(d: Data, d': Data, o: GCOptions, floor: int, task: Id)
    requires Shrunk(d, d') && MessagesSafe(d, task, Unix(o.now), floor) && Old(d, o, task)
    ensures Fair(d, d', o, floor, task)
  {
    hide Lapsed, Shrunk, Old;
    forall k | k in d.messages && d.messages[k].taskId == task
      ensures Lapsed(d.messages[k], Unix(o.now), floor) && OwnWork(d', d.messages[k])
    {
      assert !UnsafeMessage(d, task, Unix(o.now), floor, d.messages[k]);
      OwnWorkStays(d, d', d.messages[k]);
    }
  }

  /** Safe messages stay safe while whole graphs leave. */
  lemma SafeShrinks(d: Data, d': Data, task: Id, now: int, floor: int)
    requires Shrunk(d, d') && MessagesSafe(d, task, now, floor)
    requires Owned(d)
    ensures MessagesSafe(d', task, now, floor)
  {
    hide Lapsed;
    forall k | k in d'.messages
      ensures !UnsafeMessage(d', task, now, floor, d'.messages[k])
    {
      assert !UnsafeMessage(d, task, now, floor, d.messages[k]);
    }
  }

  lemma RemovableShrinks(d: Data, d': Data, o: GCOptions, floor: int, task: Id)
    requires Inv(d) && Shrunk(d, d') && Removable(d, o, floor, task)
    ensures Removable(d', o, floor, task)
  {
    hide TasksOk, OperationsOk, WorkOk, ReservationsSound, ReservationsComplete, MessagesOk,
         AttemptsOk, LeasesUnique, GenerationsUnique, GenerationsComplete, ActivesOk, SettledOk,
         EvidenceOk, VerificationsOk, RevocationsOk, ProofsOk, MessagesSafe, GraphRows, Owned, WholeGraphs;
    InvOwned(d);
    SafeShrinks(d, d', task, Unix(o.now), floor);
    forall k | OfTask(d'.ops, task, k)
      ensures Fits(|GraphRows(d', k)|, o.maxRows)
    {
      assert OfTask(d.ops, task, k);
      GraphRowsShrink(d, d', k);
    }
  }

  /** The tasks still to be visited: old, ascending, beyond the cursor. */
  ghost predicate Queue(d: Data, o: GCOptions, next: Id, tasks: seq<Id>) {
    Ascending(tasks) && forall t :: t in tasks ==> Old(d, o, t) && Less(next, t)
  }

  ghost predicate LoopDone(s: Sweep, s': Sweep, o: GCOptions, floor: int, tasks: seq<Id>) {
    && Charged(s, s') && Spared(s.d, s'.d, o, floor)
    && (s'.stopped ==> s'.out.more && s'.remaining < o.maxRows)
    && (!s'.stopped ==> !s'.out.more && s'.out.next == if tasks == [] then s.out.next else tasks[|tasks| - 1])
    && (s'.out.next == s.out.next || s'.out.next in tasks)
    && (forall t :: t in tasks && Removable(s.d, o, floor, t) ==>
          t !in s'.d.tasks || (s'.stopped && Less(s'.out.next, t)))
  }

  lemma QueueTail(s: Sweep, s1: Sweep, o: GCOptions, floor: int, tasks: seq<Id>)
    requires tasks != [] && Queue(s.d, o, s.out.next, tasks) && TaskSwept(s, s1, o, floor, tasks[0]) && !s1.stopped
    requires Shrunk(s.d, s1.d)
    ensures Queue(s1.d, o, s1.out.next, tasks[1..])
  {
    hide Charged, Removable, MessagesSafe, WholeGraphs;
    forall t | t in tasks[1..]
      ensures Old(s1.d, o, t) && Less(s1.out.next, t)
    {
      AscendingTail(tasks, t);
      var i :| 0 <= i < |tasks[1..]| && tasks[1..][i] == t;
      assert Less(tasks[0], tasks[i + 1]);
    }
  }

  lemma {:induction false} SweepTasksStep(s: Sweep, o: GCOptions, floor: int, tasks: seq<Id>)
    requires LegalBudget(o) && Inv(s.d) && s.remaining <= o.maxRows && !s.stopped && !s.out.more
    requires Queue(s.d, o, s.out.next, tasks)
    ensures SweepTasks(s, o, floor, tasks).Ok?
    ensures LoopDone(s, SweepTasks(s, o, floor, tasks).value, o, floor, tasks)
    decreases |tasks|
  {
    hide Inv, Shrunk, Rows, Charged, TaskSwept, SweepTask, LoopDone, Spared;
    if tasks == [] {
      LoopEmpty(s, o, floor);
    } else {
      assert Old(s.d, o, tasks[0]);
      SweepTaskStep(s, o, floor, tasks[0]);
      var s1 := SweepTask(s, o, floor, tasks[0]).value;
      TaskSweptSpares(s, s1, o, floor, tasks[0]);
      TaskSweptCharged(s, s1, o, floor, tasks[0]);
      if s1.stopped {
        LoopStopped(s, s1, o, floor, tasks);
      } else {
        QueueTail(s, s1, o, floor, tasks);
        SweepTasksStep(s1, o, floor, tasks[1..]);
        LoopStep(s, s1, SweepTasks(s1, o, floor, tasks[1..]).value, o, floor, tasks);
      }
    }
  }

  lemma TaskSweptCharged(s: Sweep, s': Sweep, o: GCOptions, floor: int, task: Id)
    requires TaskSwept(s, s', o, floor, task)
    ensures Charged(s, s') && Inv(s'.d) && Shrunk(s.d, s'.d) && s'.remaining <= s.remaining
    ensures !s'.stopped ==> !s'.out.more && s'.out.next == task
  {
    hide Inv, Shrunk, Rows, Removable, MessagesSafe;
  }

  lemma LoopEmpty(s: Sweep, o: GCOptions, floor: int)
    requires Inv(s.d) && !s.stopped && !s.out.more
    ensures LoopDone(s, s, o, floor, [])
  {
    hide Inv, Charged, Removable, Fair;
    ChargedNothing(s, s);
  }

  lemma LoopStopped(s: Sweep, s1: Sweep, o: GCOptions, floor: int, tasks: seq<Id>)
    requires tasks != [] && Queue(s.d, o, s.out.next, tasks) && TaskSwept(s, s1, o, floor, tasks[0]) && s1.stopped
    requires Spared(s.d, s1.d, o, floor)
    ensures LoopDone(s, s1, o, floor, tasks)
  {
    hide Charged, Removable, MessagesSafe, Old, Spared;
    forall t | t in tasks
      ensures t !in s1.d.tasks || Less(s1.out.next, t)
    {
      if t != tasks[0] {
        AscendingTail(tasks, t);
        var i :| 0 <= i < |tasks| && tasks[i] == t;
        assert Less(tasks[0], tasks[i]);
      }
    }
  }

  lemma LoopStep(s: Sweep, s1: Sweep, s': Sweep, o: GCOptions, floor: int, tasks: seq<Id>)
    requires tasks != [] && Inv(s.d) && TaskSwept(s, s1, o, floor, tasks[0]) && !s1.stopped
    requires Spared(s.d, s1.d, o, floor) && Shrunk(s.d, s1.d)
    requires LoopDone(s1, s', o, floor, tasks[1..])
    ensures LoopDone(s, s', o, floor, tasks)
  {
    hide Inv, Charged, Removable, MessagesSafe, Spared, Shrunk;
    ChargedTransitive(s, s1, s');
    ChargedShrinks(s1, s');
    SparedTransitive(s.d, s1.d, s'.d, o, floor);
    forall t | t in tasks && Removable(s.d, o, floor, t)
      ensures t !in s'.d.tasks || (s'.stopped && Less(s'.out.next, t))
    {
      if t == tasks[0] {
        TaskGone(s1.d, s'.d, t);
      } else {
        AscendingOrHead(tasks, t);
        RemovableShrinks(s.d, s1.d, o, floor, t);
      }
    }
  }

  lemma AscendingOrHead(tasks: seq<Id>, t: Id)
    requires t in tasks && t != tasks[0]
    ensures t in tasks[1..]
  {
    var i :| 0 <= i < |tasks| && tasks[i] == t;
    assert tasks[1..][i - 1] == t;
  }

  lemma TaskGone(d: Data, d': Data, t: Id)
    requires Shrunk(d, d') && t !in d.tasks
    ensures t !in d'.tasks
  {
  }

  // ---- one batch ------------------------------------------------------------

  /** Messages of nobody: their task, operation and attempt are not stored. */
  predicate Orphan(d: Data, m: Message) {
    m.taskId !in d.tasks && m.operationId !in d.ops && m.attemptId !in d.attempts
  }

  /** What left in a batch that started from `d`: rows of old terminal tasks that no
      message protects, and lapsed messages of nobody. */
  ghost predicate BatchSpared(d: Data, d': Data, o: GCOptions, floor: int) {
    && (forall k :: k in d.ops && k !in d'.ops ==> Fair(d, d', o, floor, d.ops[k].descriptor.taskId))
    && (forall k :: k in d.tasks && k !in d'.tasks ==> Fair(d, d', o, floor, k))
    && (forall k :: k in d.messages && k !in d'.messages ==>
          && Lapsed(d.messages[k], Unix(o.now), floor)
          && (Fair(d, d', o, floor, d.messages[k].taskId) || Orphan(d, d.messages[k])))
  }

  lemma FloorKeepsInv(d: Data, floor: int)
    requires Inv(d)
    ensures Inv(SetMessageFloor(d, floor))
  {
    hide TasksOk, OperationsOk, WorkOk, ReservationsSound, ReservationsComplete, MessagesOk,
         AttemptsOk, LeasesUnique, GenerationsUnique, GenerationsComplete, ActivesOk, SettledOk,
         EvidenceOk, VerificationsOk, RevocationsOk, ProofsOk;
  }

  lemma FloorKeepsRows(d: Data, floor: int)
    ensures Rows(SetMessageFloor(d, floor)) == Rows(d)
  {
    hide Rows;
    assert forall r :: HasRow(SetMessageFloor(d, floor), r) <==> HasRow(d, r);
  }

  lemma CandidateQueue(d: Data, o: GCOptions)
    requires LegalBudget(o)
    ensures Queue(d, o, o.after, Candidates(d, o))
  {
    hide Sorted;
    var all := Sorted(TasksAfter(d, o.after, Deadline(o)));
    forall t | t in Candidates(d, o)
      ensures Old(d, o, t) && Less(o.after, t)
    {
      assert t in all;
    }
  }

  /** What the first pruning removes: lapsed messages of nobody, and nothing else. */
  ghost predicate OrphansOnly(d: Data, d1: Data, o: GCOptions, floor: int) {
    && d1.tasks == d.tasks && d1.ops == d.ops
    && forall k :: k in d.messages ==>
         if k in d1.messages then d1.messages[k] == d.messages[k]
         else Lapsed(d.messages[k], Unix(o.now), floor) && Orphan(d, d.messages[k])
  }

  lemma PrunedOrphans(s: Sweep, s1: Sweep, d: Data, o: GCOptions, floor: int)
    requires s.d == SetMessageFloor(d, floor) && Pruned(s, s1, "", true, Unix(o.now), floor)
    ensures OrphansOnly(d, s1.d, o, floor)
  {
    hide Lapsed, Inv, Rows, Charged, SetMessageFloor, Expired, Orphan;
    FloorOnly(d, floor);
    forall k | k in d.messages
      ensures if k in s1.d.messages then s1.d.messages[k] == d.messages[k]
              else Lapsed(d.messages[k], Unix(o.now), floor) && Orphan(d, d.messages[k])
    {
      if k !in s1.d.messages {
        ExpiredOrphan(s.d, k, Unix(o.now), floor);
        assert Orphan(d, d.messages[k]) by { OrphanAlike(s.d, d, d.messages[k]); }
      }
    }
  }

  lemma FloorOnly(d: Data, floor: int)
    ensures var e := SetMessageFloor(d, floor);
            e.tasks == d.tasks && e.ops == d.ops && e.attempts == d.attempts && e.messages == d.messages
  {
    var e := d.(messageFloor := floor);
    assert e.tasks == d.tasks && e.ops == d.ops && e.attempts == d.attempts && e.messages == d.messages;
    assert SetMessageFloor(d, floor) == if floor > d.messageFloor then e else d;
  }

  lemma ExpiredOrphan(d: Data, k: Id, now: int, floor: int)
    requires k in Expired(d, "", true, now, floor)
    ensures k in d.messages && Lapsed(d.messages[k], now, floor) && Orphan(d, d.messages[k])
  {
  }

  lemma OrphanAlike(d: Data, e: Data, m: Message)
    requires Orphan(d, m) && e.tasks == d.tasks && e.ops == d.ops && e.attempts == d.attempts
    ensures Orphan(e, m)
  {
  }

  lemma FairBeforeOrphans(d: Data, d1: Data, d2: Data, o: GCOptions, floor: int, t: Id)
    requires OrphansOnly(d, d1, o, floor) && Fair(d1, d2, o, floor, t)
    ensures Fair(d, d2, o, floor, t)
  {
    hide Lapsed, OwnWork;
    forall k | k in d.messages && d.messages[k].taskId == t
      ensures Lapsed(d.messages[k], Unix(o.now), floor) && OwnWork(d2, d.messages[k])
    {
      assert k in d1.messages && d1.messages[k] == d.messages[k];
    }
  }

  lemma OrphansSpared(d: Data, d1: Data, d2: Data, o: GCOptions, floor: int)
    requires OrphansOnly(d, d1, o, floor)
    requires Shrunk(d1, d2) && Spared(d1, d2, o, floor)
    ensures BatchSpared(d, d2, o, floor)
  {
    hide Lapsed, WholeGraphs, Fair, Orphan;
    forall t | Fair(d1, d2, o, floor, t)
      ensures Fair(d, d2, o, floor, t)
    {
      FairBeforeOrphans(d, d1, d2, o, floor, t);
    }
  }

  /** A legal batch on a consistent store never fails. It deletes exactly the rows
      it reports, never more than the budget, and only whole operation graphs. */
  lemma CollectAccounts(d: Data, o: GCOptions)
    requires Inv(d) && LegalBudget(o)
    ensures Collect(d, o).Ok?
    ensures var (d', out) := Collect(d, o).value;
            && Inv(d')
            && out.rows <= o.maxRows
            && |Rows(d)| == |Rows(d')| + out.rows
            && Shrunk(d.(messageFloor := d'.messageFloor), d')
            && d'.messageFloor == Floor(d, o)
  {
    var s1, s2 := CollectRun(d, o);
  }

  /** The two halves of a batch and everything known about them. */
  lemma CollectRun(d: Data, o: GCOptions) returns (s1: Sweep, s2: Sweep)
    requires Inv(d) && LegalBudget(o)
    ensures Collect(d, o).Ok?
    ensures Collect(d, o).value.0 == s2.d && Collect(d, o).value.1.rows == s2.out.rows
    ensures Pruned(Opening(d, o), s1, "", true, Unix(o.now), Floor(d, o)) && Charged(Opening(d, o), s2)
    ensures Inv(s2.d) && s2.out.rows <= o.maxRows && |Rows(d)| == |Rows(s2.d)| + s2.out.rows
    ensures Shrunk(d.(messageFloor := Floor(d, o)), s2.d) && s2.d.messageFloor == Floor(d, o)
    ensures Inv(s1.d) && Shrunk(s1.d, s2.d) && Spared(s1.d, s2.d, o, Floor(d, o))
    ensures s1.remaining == 0 ==> s2 == s1 && Collect(d, o).value.1.more && Collect(d, o).value.1.next == o.after
    ensures s1.remaining > 0 ==>
              && LoopDone(s1, s2, o, Floor(d, o), Candidates(s1.d, o))
              && (s2.stopped ==> Collect(d, o).value.1 == s2.out)
              && (!s2.stopped ==> Collect(d, o).value.1.more == (|Candidates(s1.d, o)| == o.maxTasks))
              && (!s2.stopped && Collect(d, o).value.1.more ==> Collect(d, o).value.1.next == s2.out.next)
              && s1.out.next == o.after && !s1.stopped
  {
    hide Inv, Shrunk, Rows, Spared, LoopDone, SweepTasks, Candidates, Prune;
    var s := Opening(d, o);
    var floor := Floor(d, o);
    FloorKeepsInv(d, floor);
    FloorKeepsRows(d, floor);
    PruneStep(s, "", true, Unix(o.now), floor);
    s1 := Prune(s, "", true, Unix(o.now), floor).value;
    if s1.remaining == 0 {
      s2 := s1;
      NothingSpared(s1.d, o, floor);
    } else {
      CandidateQueue(s1.d, o);
      SweepTasksStep(s1, o, floor, Candidates(s1.d, o));
      s2 := SweepTasks(s1, o, floor, Candidates(s1.d, o)).value;
      LoopFacts(s1, s2, o, floor, Candidates(s1.d, o));
      ChargedTransitive(s, s1, s2);
    }
    FloorFacts(d, o, s2.d);
  }

  lemma NothingSpared(d: Data, o: GCOptions, floor: int)
    requires Inv(d)
    ensures Shrunk(d, d) && Spared(d, d, o, floor)
  {
    hide AttemptsOk, EvidenceOk, VerificationsOk, RevocationsOk;
    InvOwned(d);
    ShrunkReflexive(d);
  }

  lemma LoopFacts(s: Sweep, s': Sweep, o: GCOptions, floor: int, tasks: seq<Id>)
    requires LoopDone(s, s', o, floor, tasks)
    ensures Charged(s, s') && Inv(s'.d) && Shrunk(s.d, s'.d) && Spared(s.d, s'.d, o, floor)
  {
    hide Inv, Shrunk, Rows, Spared, Removable;
  }

  lemma FloorFacts(d: Data, o: GCOptions, d': Data)
    requires Shrunk(SetMessageFloor(d, Floor(d, o)), d')
    ensures SetMessageFloor(d, Floor(d, o)) == d.(messageFloor := Floor(d, o))
    ensures d'.messageFloor == Floor(d, o)
  {
    hide WholeGraphs, Sub;
  }

  /** Nothing of a live, young or unresolved task is touched, nor of a task with a
      message that may still be replayed or that names an operation or attempt of
      another task still stored; everything that stays is unchanged. */
  lemma CollectSpares(d: Data, o: GCOptions)
    requires Inv(d) && LegalBudget(o)
    ensures Collect(d, o).Ok? && BatchSpared(d, Collect(d, o).value.0, o, Floor(d, o))
    ensures forall t :: Fair(d, Collect(d, o).value.0, o, Floor(d, o), t) ==> !HasPending(d, t)
    ensures Collect(d, o).value.0.reservations == d.reservations
  {
    hide Inv, Rows, BatchSpared, Spared, Collect, WholeGraphs, LoopDone, Pruned, Charged, HasPending, OrphansOnly;
    var s1, s2 := CollectRun(d, o);
    PrunedOrphans(Opening(d, o), s1, d, o, Floor(d, o));
    OrphansSpared(d, s1.d, s2.d, o, Floor(d, o));
    forall t | Fair(d, s2.d, o, Floor(d, o), t)
      ensures !HasPending(d, t)
    {
      SettledTask(d, t);
    }
  }

  // ---- progress -------------------------------------------------------------

  ghost function TasksPast(d: Data, after: Id): set<Id> {
    set t | t in d.tasks && Less(after, t)
  }

  /** A batch that asks to be continued has deleted a row or moved its cursor. */
  lemma CollectProgresses(d: Data, o: GCOptions)
    requires Inv(d) && LegalBudget(o)
    ensures Collect(d, o).Ok?
    ensures var out := Collect(d, o).value.1;
            out.more ==> out.rows > 0 || Less(o.after, out.next)
    ensures var out := Collect(d, o).value.1;
            out.more ==> out.next == o.after || Less(o.after, out.next)
  {
    hide Inv, Rows, Shrunk, Spared, Collect, Pruned, Removable, HasRow;
    var s1, s2 := CollectRun(d, o);
    OpeningBudget(d, o, s1, s2);
    if s1.remaining > 0 {
      CandidateQueue(s1.d, o);
    }
  }

  lemma OpeningBudget(d: Data, o: GCOptions, s1: Sweep, s2: Sweep)
    requires LegalBudget(o) && Charged(Opening(d, o), s2)
    ensures s2.out.rows == o.maxRows - s2.remaining
  {
    hide Inv, Rows, Shrunk;
  }

  /** Continuing a batch makes the pair (stored rows, tasks past the cursor)
      smaller. */
  lemma PassDecreases(d: Data, o: GCOptions)
    requires Inv(d) && LegalBudget(o)
    ensures Collect(d, o).Ok?
    ensures var (d', out) := Collect(d, o).value;
            out.more ==> |Rows(d')| < |Rows(d)| ||
                         (|Rows(d')| == |Rows(d)| && |TasksPast(d', out.next)| < |TasksPast(d, o.after)|)
  {
    hide Inv, Rows, Collect, WholeGraphs;
    CollectAccounts(d, o);
    CollectProgresses(d, o);
    var (d', out) := Collect(d, o).value;
    if out.more && out.rows == 0 {
      CursorMoves(d, o);
    }
  }

  lemma CursorMoves(d: Data, o: GCOptions)
    requires Inv(d) && LegalBudget(o)
    requires Collect(d, o).Ok? && Collect(d, o).value.1.more && Collect(d, o).value.1.rows == 0
    ensures var (d', out) := Collect(d, o).value; |TasksPast(d', out.next)| < |TasksPast(d, o.after)|
  {
    hide Inv, Rows, Collect, WholeGraphs, Spared, Pruned, Removable;
    CollectAccounts(d, o);
    CollectProgresses(d, o);
    var (d', out) := Collect(d, o).value;
    var s1, s2 := CollectRun(d, o);
    OpeningBudget(d, o, s1, s2);
    CandidateQueue(s1.d, o);
    assert out.next in d.tasks && Less(o.after, out.next) by {
      assert out.next in Candidates(s1.d, o);
      assert Old(s1.d, o, out.next);
      PrunedTasks(d, o, s1);
    }
    forall t | t in TasksPast(d', out.next)
      ensures t in TasksPast(d, o.after) && t != out.next
    {
      LessTransitive(o.after, out.next, t);
      LessIrreflexive(t);
    }
    SubsetSize(TasksPast(d', out.next), TasksPast(d, o.after) - {out.next});
  }

  lemma PrunedTasks(d: Data, o: GCOptions, s1: Sweep)
    requires LegalBudget(o) && Pruned(Opening(d, o), s1, "", true, Unix(o.now), Floor(d, o))
    ensures s1.d.tasks == d.tasks && s1.d.ops == d.ops
  {
    hide Charged;
  }

  // ---- a full pass ----------------------------------------------------------

  /** Following the cursor while there is more. Dafny accepts the recursion only
      because every continued batch makes progress. */
  ghost function CollectPass(d: Data, o: GCOptions): Data
    requires Inv(d) && LegalBudget(o)
    decreases |Rows(d)|, |TasksPast(d, o.after)|
  {
    CollectAccounts(d, o);
    PassDecreases(d, o);
    var (d', out) := Collect(d, o).value;
    if out.more then CollectPass(d', o.(after := out.next)) else d'
  }

  /** What a full pass must remove when it comes by. */
  ghost predicate Due(d: Data, o: GCOptions, task: Id) {
    Old(d, o, task) && Removable(d, o, Floor(d, o), task)
  }

  lemma DueStays(d: Data, d': Data, o: GCOptions, o': GCOptions, task: Id)
    requires Inv(d) && Shrunk(d.(messageFloor := d'.messageFloor), d') && d'.messageFloor == Floor(d, o)
    requires o' == o.(after := o'.after) && Due(d, o, task) && task in d'.tasks
    ensures Due(d', o', task)
  {
    hide Inv, Shrunk, Removable;
    var e := d.(messageFloor := d'.messageFloor);
    FloorInv(d, d'.messageFloor);
    RemovableAnyFloor(d, e, o, Floor(d, o), task);
    RemovableShrinks(e, d', o, Floor(d, o), task);
    RemovableAnyCursor(d', o, o', Floor(d, o), task);
    SubTask(e, d', task);
  }

  lemma FloorInv(d: Data, floor: int)
    requires Inv(d)
    ensures Inv(d.(messageFloor := floor))
  {
    hide TasksOk, OperationsOk, WorkOk, ReservationsSound, ReservationsComplete, MessagesOk,
         AttemptsOk, LeasesUnique, GenerationsUnique, GenerationsComplete, ActivesOk, SettledOk,
         EvidenceOk, VerificationsOk, RevocationsOk, ProofsOk;
  }

  lemma SubTask(d: Data, d': Data, task: Id)
    requires Shrunk(d, d') && task in d'.tasks
    ensures task in d.tasks && d'.tasks[task] == d.tasks[task]
  {
    hide WholeGraphs;
  }

  lemma GraphRowsAnyFloor(d: Data, e: Data, op: Id)
    requires e == d.(messageFloor := e.messageFloor)
    ensures GraphRows(e, op) == GraphRows(d, op)
  {
    hide Rows, GraphRows;
    assert forall r :: HasRow(e, r) <==> HasRow(d, r);
    assert forall r :: Owner(e, r) == Owner(d, r);
  }

  lemma RemovableAnyFloor(d: Data, e: Data, o: GCOptions, floor: int, task: Id)
    requires e == d.(messageFloor := e.messageFloor) && Removable(d, o, floor, task)
    ensures Removable(e, o, floor, task)
  {
    hide GraphRows, Lapsed;
    forall k | k in e.messages
      ensures !UnsafeMessage(e, task, Unix(o.now), floor, e.messages[k])
    {
      assert !UnsafeMessage(d, task, Unix(o.now), floor, d.messages[k]);
    }
    forall k | OfTask(e.ops, task, k)
      ensures Fits(|GraphRows(e, k)|, o.maxRows)
    {
      GraphRowsAnyFloor(d, e, k);
    }
  }

  lemma RemovableAnyCursor(d: Data, o: GCOptions, o': GCOptions, floor: int, task: Id)
    requires o' == o.(after := o'.after) && Removable(d, o, floor, task)
    ensures Removable(d, o', floor, task)
  {
    hide GraphRows, MessagesSafe;
  }

  /** A batch that passes a due task removes it; otherwise it must be continued
      from a cursor before that task. */
  lemma CollectReaches(d: Data, o: GCOptions, task: Id)
    requires Inv(d) && LegalBudget(o) && Due(d, o, task) && Less(o.after, task)
    ensures Collect(d, o).Ok?
    ensures var (d', out) := Collect(d, o).value;
            task !in d'.tasks || (out.more && Less(out.next, task))
  {
    hide Inv, Rows, Shrunk, Spared, Collect, Pruned, Charged, Removable, Sorted;
    var s1, s2 := CollectRun(d, o);
    if s1.remaining > 0 {
      FirstHalfDue(d, o, s1, task);
      var tasks := Candidates(s1.d, o);
      CandidateQueue(s1.d, o);
      if task !in tasks {
        BeyondCandidates(s1.d, o, task);
      }
    }
  }

  lemma FirstHalfDue(d: Data, o: GCOptions, s1: Sweep, task: Id)
    requires Inv(d) && LegalBudget(o) && Due(d, o, task)
    requires Pruned(Opening(d, o), s1, "", true, Unix(o.now), Floor(d, o))
    ensures Old(s1.d, o, task) && Removable(s1.d, o, Floor(d, o), task)
  {
    hide Inv, Shrunk, Removable;
    PrunedTasks(d, o, s1);
    FloorFactsOpening(d, o);
    var e := d.(messageFloor := Floor(d, o));
    FloorInv(d, Floor(d, o));
    RemovableAnyFloor(d, e, o, Floor(d, o), task);
    ChargedShrinks(Opening(d, o), s1);
    RemovableShrinks(e, s1.d, o, Floor(d, o), task);
  }

  lemma FloorFactsOpening(d: Data, o: GCOptions)
    requires LegalBudget(o)
    ensures Opening(d, o).d == d.(messageFloor := Floor(d, o))
  {
  }

  lemma BeyondCandidates(d: Data, o: GCOptions, task: Id)
    requires LegalBudget(o) && Old(d, o, task) && Less(o.after, task) && task !in Candidates(d, o)
    ensures |Candidates(d, o)| == o.maxTasks
    ensures forall t :: t in Candidates(d, o) ==> Less(t, task)
  {
    hide Sorted;
    var all := Sorted(TasksAfter(d, o.after, Deadline(o)));
    assert task in all;
    var i :| 0 <= i < |all| && all[i] == task;
    assert forall j :: 0 <= j < |Candidates(d, o)| ==> Candidates(d, o)[j] in Candidates(d, o);
    forall t | t in Candidates(d, o)
      ensures Less(t, task)
    {
      var j :| 0 <= j < |Candidates(d, o)| && Candidates(d, o)[j] == t;
      assert Less(all[j], all[i]);
    }
  }

  /** A full pass removes every due task past its cursor, keeps the invariant, and
      only shrinks the store. */
  lemma {:induction false} FullPassRemovesDue(d: Data, o: GCOptions, task: Id)
    requires Inv(d) && LegalBudget(o) && Due(d, o, task) && Less(o.after, task)
    ensures task !in CollectPass(d, o).tasks
    decreases |Rows(d)|, |TasksPast(d, o.after)|
  {
    hide Inv, Rows, Collect, Due, TasksPast, Shrunk;
    CollectAccounts(d, o);
    PassDecreases(d, o);
    CollectReaches(d, o, task);
    var (d', out) := Collect(d, o).value;
    var o' := o.(after := out.next);
    if out.more {
      if task in d'.tasks {
        DueStays(d, d', o, o', task);
        FullPassRemovesDue(d', o', task);
      } else {
        PassShrinks(d', o');
      }
    }
  }

  lemma {:induction false} PassShrinks(d: Data, o: GCOptions)
    requires Inv(d) && LegalBudget(o)
    ensures Inv(CollectPass(d, o)) && Sub(d.tasks, CollectPass(d, o).tasks)
    ensures Sub(d.ops, CollectPass(d, o).ops)
    decreases |Rows(d)|, |TasksPast(d, o.after)|
  {
    hide Inv, Rows, Collect, TasksPast, WholeGraphs;
    CollectAccounts(d, o);
    PassDecreases(d, o);
    var (d', out) := Collect(d, o).value;
    if out.more {
      PassShrinks(d', o.(after := out.next));
    }
  }

  /** From the empty cursor, every task that was due when the pass began is gone
      when it ends. */
  lemma FullPassComplete(d: Data, o: GCOptions)
    requires Inv(d) && LegalBudget(o) && o.after == ""
    ensures forall t :: Due(d, o, t) ==> t !in CollectPass(d, o).tasks
  {
    hide OperationsOk, WorkOk, ReservationsSound, ReservationsComplete, MessagesOk, Removable, CollectPass,
         AttemptsOk, LeasesUnique, GenerationsUnique, GenerationsComplete, ActivesOk, SettledOk,
         EvidenceOk, VerificationsOk, RevocationsOk, ProofsOk;
    forall t | Due(d, o, t)
      ensures t !in CollectPass(d, o).tasks
    {
      FullPassRemovesDue(d, o, t);
    }
  }
}
