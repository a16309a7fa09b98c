/** Laws of the storage primitives that no order of callers can break: the first of
    two competing writes wins, and identities are given once. */
module Primitives {
  import opened Basics
  import opened Records
  import opened Storage
  import opened Preservation

  /** Of two updates that saw the same revision, the second is refused, and neither
      changes what the operation is about. */
  lemma FirstUpdateWins(d: Data, v1: Operation, v2: Operation, seen: nat)
    requires UpdateOperation(d, v1, seen).Ok? && v2.descriptor.id == v1.descriptor.id
    ensures var d' := UpdateOperation(d, v1, seen).value; var id := v1.descriptor.id;
            && id in d.ops && d.ops[id].revision == seen && id in d'.ops && d'.ops[id].revision == seen + 1
            && d'.ops[id].descriptor == d.ops[id].descriptor
            && UpdateOperation(d', v2, seen) == Err(RevisionConflict)
    ensures v2.revision != seen + 1 ==> UpdateOperation(d, v2, seen) == Err(Integrity)
  {
  }

  lemma FirstTaskUpdateWins(d: Data, v1: Task, v2: Task, seen: nat)
    requires UpdateTask(d, v1, seen).Ok? && v2.id == v1.id
    ensures var d' := UpdateTask(d, v1, seen).value;
            && v1.id in d.tasks && d.tasks[v1.id].revision == seen && v1.id in d'.tasks && d'.tasks[v1.id].revision == seen + 1
            && UpdateTask(d', v2, seen) == Err(RevisionConflict)
    ensures v2.revision != seen + 1 ==> UpdateTask(d, v2, seen) == Err(Integrity)
  {
  }

  /** An attempt can be updated exactly when it stays the attempt that it was. */
  lemma IdentityIsFixed(d: Data, v: Attempt)
    requires v.id in d.attempts && d.attempts[v.id].id == v.id
    ensures UpdateAttempt(d, v).Ok? <==> SameIdentity(d.attempts[v.id], v.(retryOf := d.attempts[v.id].retryOf))
    ensures UpdateAttempt(d, v).Err? ==> UpdateAttempt(d, v) == Err(Integrity)
  {
  }

  /** A lease belongs to one attempt: once it is taken, nobody gets it or the
      attempt's identifier again. */
  lemma LeaseIsTakenOnce(d: Data, a: Attempt, b: Attempt)
    requires InsertAttempt(d, a).Ok? && (b.leaseId == a.leaseId || b.id == a.id)
    ensures forall k :: k in d.attempts ==> d.attempts[k].leaseId != a.leaseId && k != a.id
    ensures InsertAttempt(InsertAttempt(d, a).value, b) == Err(DuplicateId)
  {
    assert LeaseTaken(InsertAttempt(d, a).value.attempts, a.leaseId) by {
      assert a.id in InsertAttempt(d, a).value.attempts;
    }
  }

  /** No record is ever replaced by an insertion under its identifier. */
  lemma RecordsAreInsertedOnce(d: Data, e1: Evidence, e2: Evidence, v1: Verification, v2: Verification, r1: Revocation,
                               r2: Revocation, m1: Message, m2: Message)
    requires e1.id == e2.id && v1.id == v2.id && r1.attemptId == r2.attemptId && m1.id == m2.id
    ensures InsertEvidence(d, e1).Ok? ==> InsertEvidence(InsertEvidence(d, e1).value, e2) == Err(DuplicateId)
    ensures InsertVerification(d, v1).Ok? ==> InsertVerification(InsertVerification(d, v1).value, v2) == Err(DuplicateId)
    ensures InsertRevocation(d, r1).Ok? ==> InsertRevocation(InsertRevocation(d, r1).value, r2) == Err(DuplicateId)
    ensures InsertMessage(d, m1).Ok? ==> InsertMessage(InsertMessage(d, m1).value, m2) == Err(DuplicateId)
  {
  }

  lemma WorkIsInsertedOnce(d: Data, t1: Task, t2: Task, o1: Operation, o2: Operation)
    requires t1.id == t2.id && o1.descriptor.id == o2.descriptor.id && o1.descriptor.taskId == o2.descriptor.taskId
    ensures InsertTask(d, t1).Ok? ==> InsertTask(InsertTask(d, t1).value, t2) == Err(DuplicateId)
    ensures InsertOperation(d, o1).Ok? ==> InsertOperation(InsertOperation(d, o1).value, o2) == Err(DuplicateId)
    ensures InsertOperation(d, o1) == Err(NotFound) <==> o1.descriptor.taskId !in d.tasks
  {
  }

  /** Releasing frees exactly the scopes of its operation. */
  lemma ReleasesExactly(d: Data, op: Id)
    ensures var d' := Release(d, op);
            && (forall s :: s in d'.reservations <==> s in d.reservations && d.reservations[s].operationId != op)
            && (forall s :: s in d'.reservations ==> d'.reservations[s] == d.reservations[s])
            && d' == d.(reservations := d'.reservations)
  {
  }

  /** A scope has one holder until that holder releases it, and is then free for
      anybody. */
  lemma ReservedUntilReleased(d: Data, r1: Reservation, r2: Reservation, op: Id)
    requires Reserve(d, r1).Ok? && r2.scope == r1.scope
    ensures Reserve(Reserve(d, r1).value, r2) == Err(ConflictScope)
    ensures Reserve(Release(Reserve(d, r1).value, op), r2).Ok? <==> op == r1.operationId
    ensures Reserve(Release(Reserve(d, r1).value, op), r2).Err? ==>
              Reserve(Release(Reserve(d, r1).value, op), r2) == Err(ConflictScope)
  {
    hide Release;
    ReleasesExactly(Reserve(d, r1).value, op);
  }

  /** The floor of accepted messages is the highest that was ever set. */
  lemma FloorIsHighest(d: Data, a: int, b: int)
    ensures var d' := SetMessageFloor(SetMessageFloor(d, a), b);
            d'.messageFloor >= a && d'.messageFloor >= b && d'.messageFloor >= d.messageFloor
            && d'.messageFloor in {a, b, d.messageFloor}
    ensures SetMessageFloor(SetMessageFloor(d, a), b) == SetMessageFloor(SetMessageFloor(d, b), a)
  {
  }
}
