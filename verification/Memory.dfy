/** The memory transaction: the maps of one copy of the store, changed in place.
    Each method is proved against the function of the same name in Storage. */
module Memory {
  import opened Basics
  import opened Records
  import opened Storage
  import opened Retention

  /** What a write primitive did, next to what it should have done. */
  ghost predicate Did(before: Data, after: Data, r: Outcome, spec: Result<Data>) {
    match spec
    case Ok(d) => r == Pass && after == d
    case Err(e) => r == Fail(e) && after == before
  }

  // ---- counting -------------------------------------------------------------

  /** One more operation of the task, in the given state. */
  function Counted(s: Storage.TaskSummary, state: OperationState, held: bool): Storage.TaskSummary {
    Storage.TaskSummary.TaskSummary(
      s.operations + 1,
      s.pending + (if state in {Succeeded, Failed, OperationCancelled} then 0 else 1) + (if held then 1 else 0),
      s.failed + (if state == Failed then 1 else 0),
      s.cancelled + (if state == OperationCancelled then 1 else 0))
  }

  function Among(d: Data, task: Id, done: set<Id>): set<Id> {
    set id | id in done && OfTask(d.ops, task, id)
  }

  function AmongIn(d: Data, task: Id, done: set<Id>, state: OperationState): set<Id> {
    set id | id in done && OfTask(d.ops, task, id) && d.ops[id].state == state
  }

  function AmongOpen(d: Data, task: Id, done: set<Id>): set<Id> {
    set id | id in done && OfTask(d.ops, task, id) && Open(d.ops[id].state)
  }

  function AmongReserving(d: Data, task: Id, done: set<Id>): set<Id> {
    set id | id in done && OfTask(d.ops, task, id) && Reserved(d.reservations, id)
  }

  predicate Unsettled(d: Data, task: Id, id: Id) {
    OfTask(d.ops, task, id) && (d.ops[id].state !in {Succeeded, Failed, OperationCancelled} || Reserved(d.reservations, id))
  }

  ghost predicate Summarizes(d: Data, task: Id, done: set<Id>, s: Storage.TaskSummary) {
    && s.operations == |Among(d, task, done)|
    && s.failed == |AmongIn(d, task, done, Failed)|
    && s.cancelled == |AmongIn(d, task, done, OperationCancelled)|
    && s.pending == |AmongOpen(d, task, done)| + |AmongReserving(d, task, done)|
    && (s.pending > 0 <==> exists id :: id in done && Unsettled(d, task, id))
  }

  lemma SummaryStarts(d: Data, task: Id)
    ensures Summarizes(d, task, {}, Storage.TaskSummary.TaskSummary(0, 0, 0, 0))
  {
  }

  lemma SummaryGrows(d: Data, task: Id, done: set<Id>, s: Storage.TaskSummary, id: Id)
    requires Summarizes(d, task, done, s) && id !in done && OfTask(d.ops, task, id)
    ensures Summarizes(d, task, done + {id}, Counted(s, d.ops[id].state, Reserved(d.reservations, id)))
  {
    hide Reserved, AmongOpen, AmongReserving, AmongIn;
    assert Among(d, task, done + {id}) == Among(d, task, done) + {id};
    PendingGrows(d, task, done, id);
    AmongGrows(d, task, done, Failed, id);
    AmongGrows(d, task, done, OperationCancelled, id);
    assert Unsettled(d, task, id) <==>
           d.ops[id].state !in {Succeeded, Failed, OperationCancelled} || Reserved(d.reservations, id);
    assert id in done + {id};
  }

  lemma PendingGrows(d: Data, task: Id, done: set<Id>, id: Id)
    requires id !in done && id in d.ops && OfTask(d.ops, task, id)
    ensures |AmongOpen(d, task, done + {id})| == |AmongOpen(d, task, done)| + (if Open(d.ops[id].state) then 1 else 0)
    ensures |AmongReserving(d, task, done + {id})| ==
            |AmongReserving(d, task, done)| + (if Reserved(d.reservations, id) then 1 else 0)
  {
    hide OfTask, Open, Reserved;
    if Open(d.ops[id].state) {
      assert AmongOpen(d, task, done + {id}) == AmongOpen(d, task, done) + {id};
    } else {
      assert AmongOpen(d, task, done + {id}) == AmongOpen(d, task, done);
    }
    if Reserved(d.reservations, id) {
      assert AmongReserving(d, task, done + {id}) == AmongReserving(d, task, done) + {id};
    } else {
      assert AmongReserving(d, task, done + {id}) == AmongReserving(d, task, done);
    }
  }

  lemma AmongGrows(d: Data, task: Id, done: set<Id>, state: OperationState, id: Id)
    requires id !in done && id in d.ops && OfTask(d.ops, task, id)
    ensures |AmongIn(d, task, done + {id}, state)| == |AmongIn(d, task, done, state)| + (if d.ops[id].state == state then 1 else 0)
  {
    hide OfTask;
    if d.ops[id].state == state {
      assert AmongIn(d, task, done + {id}, state) == AmongIn(d, task, done, state) + {id};
    } else {
      assert AmongIn(d, task, done + {id}, state) == AmongIn(d, task, done, state);
    }
  }

  lemma SummarySkips(d: Data, task: Id, done: set<Id>, s: Storage.TaskSummary, id: Id)
    requires Summarizes(d, task, done, s) && !OfTask(d.ops, task, id)
    ensures Summarizes(d, task, done + {id}, s)
  {
    hide Reserved;
    assert Among(d, task, done + {id}) == Among(d, task, done);
    assert AmongOpen(d, task, done + {id}) == AmongOpen(d, task, done);
    assert AmongReserving(d, task, done + {id}) == AmongReserving(d, task, done);
    assert AmongIn(d, task, done + {id}, Failed) == AmongIn(d, task, done, Failed);
    assert AmongIn(d, task, done + {id}, OperationCancelled) == AmongIn(d, task, done, OperationCancelled);
  }

  lemma SummaryComplete(d: Data, task: Id, done: set<Id>, s: Storage.TaskSummary)
    requires Summarizes(d, task, done, s) && done == d.ops.Keys
    ensures IsSummary(d, task, s)
  {
    hide Reserved;
    assert Among(d, task, done) == OperationsOf(d, task);
    assert AmongOpen(d, task, done) == UnresolvedOf(d, task);
    assert AmongReserving(d, task, done) == ReservingOf(d, task);
    assert AmongIn(d, task, done, Failed) == InState(d, task, Failed);
    assert AmongIn(d, task, done, OperationCancelled) == InState(d, task, OperationCancelled);
    if exists id :: id in done && Unsettled(d, task, id) {
      var id :| id in done && Unsettled(d, task, id);
      assert OfTask(d.ops, task, id);
    }
    forall id | OfTask(d.ops, task, id) && (d.ops[id].state !in {Succeeded, Failed, OperationCancelled} || Reserved(d.reservations, id))
      ensures id in done && Unsettled(d, task, id)
    {
    }
  }

  // ---- counting the rows of a graph -----------------------------------------

  /** The rows already counted when these keys are still to be visited. */
  predicate Visited(r: Row, attempts: set<Id>, evidence: set<Id>, verifications: set<Id>, revocations: set<Id>) {
    match r
    case AttemptRow(k) => k !in attempts
    case EvidenceRow(k) => k !in evidence
    case VerificationRow(k) => k !in verifications
    case LinkRow(k, _) => k !in verifications
    case RevocationRow(k) => k !in revocations
    case _ => true
  }

  ghost function Seen(d: Data, op: Id, attempts: set<Id>, evidence: set<Id>, verifications: set<Id>, revocations: set<Id>)
    : (s: set<Row>)
    ensures forall r :: r in s <==>
              HasRow(d, r) && Owner(d, r) == Some(op) && Visited(r, attempts, evidence, verifications, revocations)
  {
    set r | r in GraphRows(d, op) && Visited(r, attempts, evidence, verifications, revocations)
  }

  lemma SeenFirst(d: Data, op: Id)
    requires op in d.ops
    ensures |Seen(d, op, d.attempts.Keys, d.evidence.Keys, d.verifications.Keys, d.revocations.Keys)|
            == 1 + |d.ops[op].descriptor.conflictScope|
  {
    hide Seen, ScopeRows;
    var scopes := ScopeRows(op, |d.ops[op].descriptor.conflictScope|);
    assert Seen(d, op, d.attempts.Keys, d.evidence.Keys, d.verifications.Keys, d.revocations.Keys) == scopes + {OpRow(op)};
  }

  lemma AttemptRowFacts(d: Data, k: Id)
    requires k in d.attempts
    ensures HasRow(d, AttemptRow(k)) && Owner(d, AttemptRow(k)) == Some(d.attempts[k].operationId)
  {
  }

  lemma SeenAttempt(d: Data, op: Id, a: set<Id>, e: set<Id>, v: set<Id>, r: set<Id>, k: Id)
    requires k in a && k in d.attempts
    ensures |Seen(d, op, a - {k}, e, v, r)| == |Seen(d, op, a, e, v, r)| + (if d.attempts[k].operationId == op then 1 else 0)
  {
    hide Seen, HasRow, Owner;
    AttemptRowFacts(d, k);
    if d.attempts[k].operationId == op {
      assert Seen(d, op, a - {k}, e, v, r) == Seen(d, op, a, e, v, r) + {AttemptRow(k)};
    } else {
      assert Seen(d, op, a - {k}, e, v, r) == Seen(d, op, a, e, v, r);
    }
  }

  lemma EvidenceRowFacts(d: Data, k: Id)
    requires k in d.evidence
    ensures HasRow(d, EvidenceRow(k)) && Owner(d, EvidenceRow(k)) == Some(d.evidence[k].operationId)
  {
  }

  lemma SeenEvidence(d: Data, op: Id, a: set<Id>, e: set<Id>, v: set<Id>, r: set<Id>, k: Id)
    requires k in e && k in d.evidence
    ensures |Seen(d, op, a, e - {k}, v, r)| == |Seen(d, op, a, e, v, r)| + (if d.evidence[k].operationId == op then 1 else 0)
  {
    hide Seen, HasRow, Owner;
    EvidenceRowFacts(d, k);
    if d.evidence[k].operationId == op {
      assert Seen(d, op, a, e - {k}, v, r) == Seen(d, op, a, e, v, r) + {EvidenceRow(k)};
    } else {
      assert Seen(d, op, a, e - {k}, v, r) == Seen(d, op, a, e, v, r);
    }
  }

  lemma VerificationRowFacts(d: Data, k: Id)
    requires k in d.verifications
    ensures HasRow(d, VerificationRow(k)) && Owner(d, VerificationRow(k)) == Some(d.verifications[k].operationId)
    ensures forall n: nat :: HasRow(d, LinkRow(k, n)) <==> n < |d.verifications[k].evidenceIds|
    ensures forall n: nat :: Owner(d, LinkRow(k, n)) == Some(d.verifications[k].operationId)
  {
  }

  lemma SeenVerification(d: Data, op: Id, a: set<Id>, e: set<Id>, v: set<Id>, r: set<Id>, k: Id)
    requires k in v && k in d.verifications
    ensures |Seen(d, op, a, e, v - {k}, r)| ==
            |Seen(d, op, a, e, v, r)| + (if d.verifications[k].operationId == op then 1 + |d.verifications[k].evidenceIds| else 0)
  {
    hide Seen, HasRow, Owner, LinkRows;
    VerificationRowFacts(d, k);
    if d.verifications[k].operationId == op {
      var more := LinkRows(k, |d.verifications[k].evidenceIds|) + {VerificationRow(k)};
      assert Seen(d, op, a, e, v - {k}, r) == Seen(d, op, a, e, v, r) + more;
      assert Seen(d, op, a, e, v, r) !! more;
    } else {
      assert Seen(d, op, a, e, v - {k}, r) == Seen(d, op, a, e, v, r);
    }
  }

  lemma RevocationRowFacts(d: Data, k: Id)
    requires k in d.revocations
    ensures HasRow(d, RevocationRow(k)) && Owner(d, RevocationRow(k)) == Some(d.revocations[k].operationId)
  {
  }

  lemma SeenRevocation(d: Data, op: Id, a: set<Id>, e: set<Id>, v: set<Id>, r: set<Id>, k: Id)
    requires k in r && k in d.revocations
    ensures |Seen(d, op, a, e, v, r - {k})| == |Seen(d, op, a, e, v, r)| + (if d.revocations[k].operationId == op then 1 else 0)
  {
    hide Seen, HasRow, Owner;
    RevocationRowFacts(d, k);
    if d.revocations[k].operationId == op {
      assert Seen(d, op, a, e, v, r - {k}) == Seen(d, op, a, e, v, r) + {RevocationRow(k)};
    } else {
      assert Seen(d, op, a, e, v, r - {k}) == Seen(d, op, a, e, v, r);
    }
  }

  lemma SeenAll(d: Data, op: Id)
    ensures Seen(d, op, {}, {}, {}, {}) == GraphRows(d, op)
  {
    hide Seen, GraphRows;
  }

  class Tx {
    var d: Data
    const write: bool

    constructor (d0: Data, write: bool)
      ensures d == d0 && this.write == write
    {
      d := d0;
      this.write := write;
    }

    // ---- inserts and updates ------------------------------------------------

    method InsertTask(v: Task) returns (r: Outcome)
      modifies this
      ensures write ==> Did(old(d), d, r, Storage.InsertTask(old(d), v))
      ensures !write ==> r.Fail? && d == old(d)
    {
      if !write {
        return Fail(Integrity);
      }
      if v.id in d.tasks {
        return Fail(DuplicateId);
      }
      d := d.(tasks := d.tasks[v.id := v]);
      return Pass;
    }

    method InsertOperation(v: Operation) returns (r: Outcome)
      modifies this
      ensures write ==> Did(old(d), d, r, Storage.InsertOperation(old(d), v))
      ensures !write ==> r.Fail? && d == old(d)
    {
      if v.descriptor.taskId !in d.tasks {
        return Fail(NotFound);
      }
      if !write {
        return Fail(Integrity);
      }
      if v.descriptor.id in d.ops {
        return Fail(DuplicateId);
      }
      d := d.(ops := d.ops[v.descriptor.id := v]);
      return Pass;
    }

    method UpdateOperation(v: Operation, expected: nat) returns (r: Outcome)
      modifies this
      ensures write ==> Did(old(d), d, r, Storage.UpdateOperation(old(d), v, expected))
      ensures !write ==> r.Fail? && d == old(d)
    {
      if !write {
        return Fail(Integrity);
      }
      if v.descriptor.id !in d.ops {
        return Fail(NotFound);
      }
      var prior := d.ops[v.descriptor.id];
      if prior.revision != expected {
        return Fail(RevisionConflict);
      }
      if v.revision != expected + 1 {
        return Fail(Integrity);
      }
      d := d.(ops := d.ops[v.descriptor.id := v.(descriptor := prior.descriptor)]);
      return Pass;
    }

    /** The lease scan, then the insert. */
    method InsertAttempt(v: Attempt) returns (r: Outcome)
      modifies this
      ensures write ==> Did(old(d), d, r, Storage.InsertAttempt(old(d), v))
      ensures !write ==> r.Fail? && d == old(d)
    {
      var todo := d.attempts.Keys;
      while todo != {}
        invariant todo <= d.attempts.Keys && d == old(d)
        invariant forall k :: k in d.attempts && d.attempts[k].leaseId == v.leaseId ==> k in todo
        decreases |todo|
      {
        var k :| k in todo;
        if d.attempts[k].leaseId == v.leaseId {
          return Fail(DuplicateId);
        }
        todo := todo - {k};
      }
      if !write {
        return Fail(Integrity);
      }
      if v.id in d.attempts {
        return Fail(DuplicateId);
      }
      d := d.(attempts := d.attempts[v.id := v]);
      return Pass;
    }

    method UpdateAttempt(v: Attempt) returns (r: Outcome)
      modifies this
      ensures write ==> Did(old(d), d, r, Storage.UpdateAttempt(old(d), v))
      ensures !write ==> r.Fail? && d == old(d)
    {
      if !write {
        return Fail(Integrity);
      }
      if v.id !in d.attempts {
        return Fail(NotFound);
      }
      var prior := d.attempts[v.id];
      if prior.operationId != v.operationId || prior.leaseId != v.leaseId || prior.generation != v.generation || prior.owner != v.owner {
        return Fail(Integrity);
      }
      d := d.(attempts := d.attempts[v.id := v]);
      return Pass;
    }

    method InsertEvidence(v: Evidence) returns (r: Outcome)
      modifies this
      ensures write ==> Did(old(d), d, r, Storage.InsertEvidence(old(d), v))
      ensures !write ==> r.Fail? && d == old(d)
    {
      if !write {
        return Fail(Integrity);
      }
      if v.id in d.evidence {
        return Fail(DuplicateId);
      }
      d := d.(evidence := d.evidence[v.id := v]);
      return Pass;
    }

    method InsertVerification(v: Verification) returns (r: Outcome)
      modifies this
      ensures write ==> Did(old(d), d, r, Storage.InsertVerification(old(d), v))
      ensures !write ==> r.Fail? && d == old(d)
    {
      if !write {
        return Fail(Integrity);
      }
      if v.id in d.verifications {
        return Fail(DuplicateId);
      }
      d := d.(verifications := d.verifications[v.id := v]);
      return Pass;
    }

    method InsertRevocation(v: Revocation) returns (r: Outcome)
      modifies this
      ensures write ==> Did(old(d), d, r, Storage.InsertRevocation(old(d), v))
      ensures !write ==> r.Fail? && d == old(d)
    {
      if !write {
        return Fail(Integrity);
      }
      if v.attemptId in d.revocations {
        return Fail(DuplicateId);
      }
      d := d.(revocations := d.revocations[v.attemptId := v]);
      return Pass;
    }

    method InsertMessage(v: Message) returns (r: Outcome)
      modifies this
      ensures write ==> Did(old(d), d, r, Storage.InsertMessage(old(d), v))
      ensures !write ==> r.Fail? && d == old(d)
    {
      if !write {
        return Fail(Integrity);
      }
      if v.id in d.messages {
        return Fail(DuplicateId);
      }
      d := d.(messages := d.messages[v.id := v]);
      return Pass;
    }

    method UpdateTask(v: Task, revision: nat) returns (r: Outcome)
      modifies this
      ensures write ==> Did(old(d), d, r, Storage.UpdateTask(old(d), v, revision))
      ensures !write ==> r.Fail? && d == old(d)
    {
      if !write {
        return Fail(Integrity);
      }
      if v.id !in d.tasks {
        return Fail(NotFound);
      }
      if d.tasks[v.id].revision != revision {
        return Fail(RevisionConflict);
      }
      if v.revision != revision + 1 {
        return Fail(Integrity);
      }
      d := d.(tasks := d.tasks[v.id := v]);
      return Pass;
    }

    // ---- reservations -------------------------------------------------------

    method Reserve(v: Reservation) returns (r: Outcome)
      modifies this
      ensures write ==> Did(old(d), d, r, Storage.Reserve(old(d), v))
      ensures !write ==> r.Fail? && d == old(d)
    {
      if v.scope in d.reservations {
        return Fail(ConflictScope);
      }
      if !write {
        return Fail(Integrity);
      }
      d := d.(reservations := d.reservations[v.scope := v]);
      return Pass;
    }

    /** Deletes every reservation of the operation while scanning the map. */
    method Release(id: Id) returns (r: Outcome)
      modifies this
      ensures write ==> r == Pass && d == Storage.Release(old(d), id)
      ensures !write ==> r.Fail? && d == old(d)
    {
      if !write {
        return Fail(Integrity);
      }
      ghost var was := d.reservations;
      var todo := d.reservations.Keys;
      while todo != {}
        invariant todo <= d.reservations.Keys
        invariant d == old(d).(reservations := d.reservations)
        invariant d.reservations == map s | s in was && (s in todo || was[s].operationId != id) :: was[s]
        decreases |todo|
      {
        var k :| k in todo;
        if d.reservations[k].operationId == id {
          d := d.(reservations := d.reservations - {k});
        }
        todo := todo - {k};
      }
      assert d.reservations == Released(was, id);
      return Pass;
    }

    // ---- reads --------------------------------------------------------------

    /** Counts the operations of a task by outcome; `pending` also counts those
        that hold a reservation. */
    method TaskSummary(task: Id) returns (s: Storage.TaskSummary)
      ensures IsSummary(d, task, s)
    {
      hide Summarizes, IsSummary, Counted, Reserved;
      s := Storage.TaskSummary.TaskSummary(0, 0, 0, 0);
      SummaryStarts(d, task);
      ghost var done: set<Id> := {};
      var todo := d.ops.Keys;
      while todo != {}
        invariant done + todo == d.ops.Keys && done * todo == {}
        invariant Summarizes(d, task, done, s)
        decreases |todo|
      {
        var id :| id in todo;
        var op := d.ops[id];
        if op.descriptor.taskId == task {
          var held := IsReserved(id);
          SummaryGrows(d, task, done, s, id);
          s := Counted(s, op.state, held);
        } else {
          SummarySkips(d, task, done, s, id);
        }
        done := done + {id};
        todo := todo - {id};
      }
      SummaryComplete(d, task, done, s);
    }

    method IsReserved(op: Id) returns (held: bool)
      ensures held <==> Reserved(d.reservations, op)
    {
      var todo := d.reservations.Keys;
      while todo != {}
        invariant todo <= d.reservations.Keys
        invariant forall s :: s in d.reservations && d.reservations[s].operationId == op ==> s in todo
        decreases |todo|
      {
        var s :| s in todo;
        if d.reservations[s].operationId == op {
          return true;
        }
        todo := todo - {s};
      }
      return false;
    }

    method TerminalTasksAfter(after: Id, cutoff: int, limit: int) returns (r: Result<seq<Id>>)
      ensures r == if 1 <= limit <= MAX_PAGE_SIZE then Ok(Storage.First(Sorted(TasksAfter(d, after, cutoff)), limit)) else Err(Integrity)
    {
      if limit < 1 || limit > MAX_PAGE_SIZE {
        return Err(Integrity);
      }
      var ids: set<Id> := {};
      var todo := d.tasks.Keys;
      while todo != {}
        invariant todo <= d.tasks.Keys
        invariant ids == set id | id in TasksAfter(d, after, cutoff) && id !in todo
        decreases |todo|
      {
        var id :| id in todo;
        if Less(after, id) && Terminal(d.tasks[id].state) && Unix(d.tasks[id].updatedAt) < cutoff {
          ids := ids + {id};
        }
        todo := todo - {id};
      }
      assert ids == TasksAfter(d, after, cutoff);
      return Ok(Storage.First(Sorted(ids), limit));
    }

    method TaskOperations(task: Id, limit: int) returns (r: Result<seq<Id>>)
      ensures r == if 1 <= limit <= MAX_GC_ROWS then Ok(Storage.First(Sorted(OperationsOf(d, task)), limit)) else Err(Integrity)
    {
      if limit < 1 || limit > MAX_GC_ROWS {
        return Err(Integrity);
      }
      var ids: set<Id> := {};
      var todo := d.ops.Keys;
      while todo != {}
        invariant todo <= d.ops.Keys
        invariant ids == set id | id in OperationsOf(d, task) && id !in todo
        decreases |todo|
      {
        var id :| id in todo;
        if d.ops[id].descriptor.taskId == task {
          assert OfTask(d.ops, task, id);
          ids := ids + {id};
        }
        todo := todo - {id};
      }
      assert ids == OperationsOf(d, task);
      return Ok(Storage.First(Sorted(ids), limit));
    }

    method OperationsAfter(after: Id, limit: int) returns (r: Result<seq<Id>>)
      ensures r == if 1 <= limit <= MAX_PAGE_SIZE then Ok(Storage.First(Sorted(OperationIdsAfter(d, after)), limit)) else Err(Integrity)
    {
      if limit < 1 || limit > MAX_PAGE_SIZE {
        return Err(Integrity);
      }
      var ids: set<Id> := {};
      var todo := d.ops.Keys;
      while todo != {}
        invariant todo <= d.ops.Keys
        invariant ids == set id | id in OperationIdsAfter(d, after) && id !in todo
        decreases |todo|
      {
        var id :| id in todo;
        if Less(after, id) {
          ids := ids + {id};
        }
        todo := todo - {id};
      }
      assert ids == OperationIdsAfter(d, after);
      return Ok(Storage.First(Sorted(ids), limit));
    }

    method ExpiredMessages(task: Id, orphan: bool, now: int, floor: int, limit: int) returns (r: Result<seq<Id>>)
      ensures r == if 1 <= limit <= MAX_GC_ROWS then Ok(Storage.First(Sorted(Expired(d, task, orphan, now, floor)), limit))
                   else Err(Integrity)
    {
      if limit < 1 || limit > MAX_GC_ROWS {
        return Err(Integrity);
      }
      var ids: set<Id> := {};
      var todo := d.messages.Keys;
      while todo != {}
        invariant todo <= d.messages.Keys
        invariant ids == set k | k in Expired(d, task, orphan, now, floor) && k !in todo
        decreases |todo|
      {
        var k :| k in todo;
        if MatchesMessage(d, task, orphan, d.messages[k]) && Lapsed(d.messages[k], now, floor) {
          ids := ids + {k};
        }
        todo := todo - {k};
      }
      assert ids == Expired(d, task, orphan, now, floor);
      return Ok(Storage.First(Sorted(ids), limit));
    }

    method TaskHasMessages(task: Id) returns (has: bool)
      ensures has <==> HasMessages(d, task)
    {
      var todo := d.messages.Keys;
      while todo != {}
        invariant todo <= d.messages.Keys
        invariant forall k :: k in d.messages && d.messages[k].taskId == task ==> k in todo
        decreases |todo|
      {
        var k :| k in todo;
        if d.messages[k].taskId == task {
          return true;
        }
        todo := todo - {k};
      }
      return false;
    }

    method TaskMessagesSafe(task: Id, now: int, floor: int) returns (safe: bool)
      ensures safe <==> MessagesSafe(d, task, now, floor)
    {
      var todo := d.messages.Keys;
      while todo != {}
        invariant todo <= d.messages.Keys
        invariant forall k :: k in d.messages && k !in todo ==> !UnsafeMessage(d, task, now, floor, d.messages[k])
        decreases |todo|
      {
        var k :| k in todo;
        if UnsafeMessage(d, task, now, floor, d.messages[k]) {
          return false;
        }
        todo := todo - {k};
      }
      return true;
    }

    /** The rows of one operation graph, capped by the limit. */
    method OperationRows(id: Id, limit: nat) returns (r: Result<int>)
      ensures r == if id in d.ops then Ok(Min(|GraphRows(d, id)|, limit)) else Err(NotFound)
    {
      hide Seen, GraphRows, HasRow, Owner, Visited;
      if id !in d.ops {
        return Err(NotFound);
      }
      ghost var e, v, k := d.evidence.Keys, d.verifications.Keys, d.revocations.Keys;
      SeenFirst(d, id);
      var attempts := CountAttempts(id, d.attempts.Keys, e, v, k);
      var evidence := CountEvidence(id, {}, e, v, k);
      var verifications := CountVerifications(id, {}, {}, v, k);
      var revocations := CountRevocations(id, {}, {}, {}, k);
      SeenAll(d, id);
      return Ok(Min(1 + |d.ops[id].descriptor.conflictScope| + attempts + evidence + verifications + revocations, limit));
    }

    // The four scans of `OperationRows`, each over one map.

    method CountAttempts(id: Id, ghost a: set<Id>, ghost e: set<Id>, ghost v: set<Id>, ghost k: set<Id>) returns (n: nat)
      requires a == d.attempts.Keys
      ensures |Seen(d, id, {}, e, v, k)| == |Seen(d, id, a, e, v, k)| + n
    {
      hide Seen, GraphRows, HasRow, Owner, Visited;
      n := 0;
      var todo := d.attempts.Keys;
      while todo != {}
        invariant todo <= d.attempts.Keys
        invariant |Seen(d, id, todo, e, v, k)| == |Seen(d, id, a, e, v, k)| + n
        decreases |todo|
      {
        var x :| x in todo;
        SeenAttempt(d, id, todo, e, v, k, x);
        if d.attempts[x].operationId == id {
          n := n + 1;
        }
        todo := todo - {x};
      }
    }

    method CountEvidence(id: Id, ghost a: set<Id>, ghost e: set<Id>, ghost v: set<Id>, ghost k: set<Id>) returns (n: nat)
      requires e == d.evidence.Keys
      ensures |Seen(d, id, a, {}, v, k)| == |Seen(d, id, a, e, v, k)| + n
    {
      hide Seen, GraphRows, HasRow, Owner, Visited;
      n := 0;
      var todo := d.evidence.Keys;
      while todo != {}
        invariant todo <= d.evidence.Keys
        invariant |Seen(d, id, a, todo, v, k)| == |Seen(d, id, a, e, v, k)| + n
        decreases |todo|
      {
        var x :| x in todo;
        SeenEvidence(d, id, a, todo, v, k, x);
        if d.evidence[x].operationId == id {
          n := n + 1;
        }
        todo := todo - {x};
      }
    }

    method CountVerifications(id: Id, ghost a: set<Id>, ghost e: set<Id>, ghost v: set<Id>, ghost k: set<Id>) returns (n: nat)
      requires v == d.verifications.Keys
      ensures |Seen(d, id, a, e, {}, k)| == |Seen(d, id, a, e, v, k)| + n
    {
      hide Seen, GraphRows, HasRow, Owner, Visited;
      n := 0;
      var todo := d.verifications.Keys;
      while todo != {}
        invariant todo <= d.verifications.Keys
        invariant |Seen(d, id, a, e, todo, k)| == |Seen(d, id, a, e, v, k)| + n
        decreases |todo|
      {
        var x :| x in todo;
        SeenVerification(d, id, a, e, todo, k, x);
        if d.verifications[x].operationId == id {
          n := n + 1 + |d.verifications[x].evidenceIds|;
        }
        todo := todo - {x};
      }
    }

    method CountRevocations(id: Id, ghost a: set<Id>, ghost e: set<Id>, ghost v: set<Id>, ghost k: set<Id>) returns (n: nat)
      requires k == d.revocations.Keys
      ensures |Seen(d, id, a, e, v, {})| == |Seen(d, id, a, e, v, k)| + n
    {
      hide Seen, GraphRows, HasRow, Owner, Visited;
      n := 0;
      var todo := d.revocations.Keys;
      while todo != {}
        invariant todo <= d.revocations.Keys
        invariant |Seen(d, id, a, e, v, todo)| == |Seen(d, id, a, e, v, k)| + n
        decreases |todo|
      {
        var x :| x in todo;
        SeenRevocation(d, id, a, e, v, todo, x);
        if d.revocations[x].operationId == id {
          n := n + 1;
        }
        todo := todo - {x};
      }
    }

    // ---- deletions ----------------------------------------------------------

    /** Refuses a graph that still holds a reservation, then deletes its rows map
        by map. */
    method DeleteOperationGraph(id: Id) returns (r: Outcome)
      modifies this
      ensures write ==> Did(old(d), d, r, Storage.DeleteOperationGraph(old(d), id))
      ensures !write ==> r.Fail? && d == old(d)
    {
      if !write {
        return Fail(Integrity);
      }
      var held := IsReserved(id);
      if held {
        return Fail(Integrity);
      }
      DeleteRevocations(id);
      DeleteVerifications(id);
      DeleteEvidence(id);
      DeleteAttempts(id);
      d := d.(ops := d.ops - {id});
      return Pass;
    }

    method DeleteRevocations(id: Id)
      modifies this
      ensures d == old(d).(revocations := map k | k in old(d).revocations && old(d).revocations[k].operationId != id :: old(d).revocations[k])
    {
      ghost var was := d.revocations;
      var todo := d.revocations.Keys;
      while todo != {}
        invariant todo <= d.revocations.Keys && d == old(d).(revocations := d.revocations)
        invariant d.revocations == map k | k in was && (k in todo || was[k].operationId != id) :: was[k]
        decreases |todo|
      {
        var k :| k in todo;
        if d.revocations[k].operationId == id {
          d := d.(revocations := d.revocations - {k});
        }
        todo := todo - {k};
      }
    }

    method DeleteVerifications(id: Id)
      modifies this
      ensures d == old(d).(verifications := map k | k in old(d).verifications && old(d).verifications[k].operationId != id :: old(d).verifications[k])
    {
      ghost var was := d.verifications;
      var todo := d.verifications.Keys;
      while todo != {}
        invariant todo <= d.verifications.Keys && d == old(d).(verifications := d.verifications)
        invariant d.verifications == map k | k in was && (k in todo || was[k].operationId != id) :: was[k]
        decreases |todo|
      {
        var k :| k in todo;
        if d.verifications[k].operationId == id {
          d := d.(verifications := d.verifications - {k});
        }
        todo := todo - {k};
      }
    }

    method DeleteEvidence(id: Id)
      modifies this
      ensures d == old(d).(evidence := map k | k in old(d).evidence && old(d).evidence[k].operationId != id :: old(d).evidence[k])
    {
      ghost var was := d.evidence;
      var todo := d.evidence.Keys;
      while todo != {}
        invariant todo <= d.evidence.Keys && d == old(d).(evidence := d.evidence)
        invariant d.evidence == map k | k in was && (k in todo || was[k].operationId != id) :: was[k]
        decreases |todo|
      {
        var k :| k in todo;
        if d.evidence[k].operationId == id {
          d := d.(evidence := d.evidence - {k});
        }
        todo := todo - {k};
      }
    }

    method DeleteAttempts(id: Id)
      modifies this
      ensures d == old(d).(attempts := map k | k in old(d).attempts && old(d).attempts[k].operationId != id :: old(d).attempts[k])
    {
      ghost var was := d.attempts;
      var todo := d.attempts.Keys;
      while todo != {}
        invariant todo <= d.attempts.Keys && d == old(d).(attempts := d.attempts)
        invariant d.attempts == map k | k in was && (k in todo || was[k].operationId != id) :: was[k]
        decreases |todo|
      {
        var k :| k in todo;
        if d.attempts[k].operationId == id {
          d := d.(attempts := d.attempts - {k});
        }
        todo := todo - {k};
      }
    }

    method DeleteMessages(ids: seq<Id>) returns (r: Outcome)
      modifies this
      ensures write ==> r == Pass && d == Storage.DeleteMessages(old(d), Members(ids))
      ensures !write ==> r.Fail? && d == old(d)
    {
      if !write {
        return Fail(Integrity);
      }
      for i := 0 to |ids|
        invariant d == Storage.DeleteMessages(old(d), Members(ids[..i]))
      {
        d := d.(messages := d.messages - {ids[i]});
        assert Members(ids[..i + 1]) == Members(ids[..i]) + {ids[i]};
      }
      assert ids[..|ids|] == ids;
      return Pass;
    }

    method DeleteTask(task: Id) returns (r: Outcome)
      modifies this
      ensures write ==> Did(old(d), d, r, Storage.DeleteTask(old(d), task))
      ensures !write ==> r.Fail? && d == old(d)
    {
      if !write {
        return Fail(Integrity);
      }
      var summary := TaskSummary(task);
      var has := TaskHasMessages(task);
      if summary.operations != 0 || has {
        return Fail(Integrity);
      }
      d := d.(tasks := d.tasks - {task});
      return Pass;
    }

    /** The floor never moves back. */
    method SetMessageFloor(v: int) returns (r: Outcome)
      modifies this
      ensures write ==> r == Pass && d == Storage.SetMessageFloor(old(d), v)
      ensures !write ==> r.Fail? && d == old(d)
    {
      if !write {
        return Fail(Integrity);
      }
      if v > d.messageFloor {
        d := d.(messageFloor := v);
      }
      return Pass;
    }
  }
}
