/** What the decisions of local checks do to the store: every operation, attempt and
    record belongs to one check, and an operation moves one way through its states. */
module LocalStore {
  import opened Basics
  import opened Records
  import opened Storage
  import opened Decisions
  import opened Invariant
  import opened Preservation
  import opened Dispatching
  import opened LocalCheck
  import History
  import Machine
  import Runner

  // ---- names ----------------------------------------------------------------

  lemma OpsDiffer(a: Id, b: Id)
    ensures Op(a) == Op(b) ==> a == b
  {
    assert Op(a)[3..] == a && Op(b)[3..] == b;
  }

  lemma AttsDiffer(a: Id, b: Id)
    ensures Att(a) == Att(b) ==> a == b
  {
    assert Att(a)[4..] == a && Att(b)[4..] == b;
  }

  lemma NamesDiffer()
    ensures forall a, b :: Op(a) == Op(b) ==> a == b
    ensures forall a, b :: Att(a) == Att(b) ==> a == b
  {
    forall a, b
      ensures Op(a) == Op(b) ==> a == b
      ensures Att(a) == Att(b) ==> a == b
    {
      OpsDiffer(a, b);
      AttsDiffer(a, b);
    }
  }

  // ---- what a local store looks like ----------------------------------------

  predicate Described(desc: Descriptor, id: Id) {
    && desc.id == Op(id) && desc.taskId == id && desc.targetRef == TargetRef(id) && desc.effect == Mutation
    && desc.verificationPolicy == VERIFY_POLICY
  }

  /** How far an operation can be: each state has its revision and generation. */
  predicate Staged(o: Operation) {
    match o.state
    case Planned => o.revision == 1 && o.generation == 0
    case Ready => o.revision == 2 && o.generation == 0
    case Executing => o.revision == 3 && o.generation == 1
    case Verifying => o.revision == 4 && o.generation == 1
    case UnknownOutcome => o.generation == 1
    case Succeeded => o.generation == 1
    case Failed => o.generation == 1
    case OperationCancelled => false
  }

  predicate LocalOp(id: Id, o: Operation) {
    id == Op(o.descriptor.taskId) && Described(o.descriptor, o.descriptor.taskId) && Staged(o)
  }

  ghost predicate LocalOps(ops: map<Id, Operation>) {
    forall k :: k in ops ==> LocalOp(k, ops[k])
  }

  lemma OpDescribed(ops: map<Id, Operation>, id: Id)
    requires LocalOps(ops) && Op(id) in ops
    ensures Described(ops[Op(id)].descriptor, id)
  {
    assert LocalOp(Op(id), ops[Op(id)]);
    OpsDiffer(id, ops[Op(id)].descriptor.taskId);
  }

  predicate LocalAttempt(ops: map<Id, Operation>, k: Id, a: Attempt) {
    && a.operationId in ops && k == Att(ops[a.operationId].descriptor.taskId)
    && a.leaseId == Lease(ops[a.operationId].descriptor.taskId) && a.owner == WORKER && a.generation == 1
  }

  ghost predicate LocalAttempts(ops: map<Id, Operation>, attempts: map<Id, Attempt>) {
    forall k :: k in attempts ==> LocalAttempt(ops, k, attempts[k])
  }

  predicate LocalTask(ops: map<Id, Operation>, id: Id, task: Task) {
    && (!Terminal(task.state) ==> task.revision == 1)
    && (task.state == TaskFailed ==> Op(id) in ops && ops[Op(id)].state == Failed)
  }

  ghost predicate LocalTasks(tasks: map<Id, Task>, ops: map<Id, Operation>) {
    forall k :: k in tasks ==> LocalTask(ops, k, tasks[k])
  }

  /** A worker report with a digest is about the receipt the command produced. */
  predicate Honest(sum: Receipt -> string, workers: map<Id, Worker>, e: Evidence) {
    e.kind == WorkerReport && e.digest != "" ==>
      && e.taskId in workers && workers[e.taskId].command.Exited?
      && e.digest == DigestOf(sum, workers[e.taskId].command.receipt)
  }

  ghost predicate HonestEvidence(sum: Receipt -> string, workers: map<Id, Worker>, evidence: map<Id, Evidence>) {
    forall k :: k in evidence ==> Honest(sum, workers, evidence[k])
  }

  ghost predicate Local(sum: Receipt -> string, workers: map<Id, Worker>, d: Data) {
    LocalOps(d.ops) && LocalAttempts(d.ops, d.attempts) && LocalTasks(d.tasks, d.ops) && HonestEvidence(sum, workers, d.evidence)
  }

  // ---- the decisions of a local check ---------------------------------------

  /** Every decision but the verdict, with honest records. */
  ghost predicate Honestly(sum: Receipt -> string, workers: map<Id, Worker>, c: Decision) {
    match c
    case DoRegisterMessage(_) => true
    case DoCreateTask(_, _) => true
    case DoCreateOperation(desc, _) => Described(desc, desc.taskId)
    case DoMarkReady(_, _, _) => true
    case DoStartAttempt(id, _, attempt, lease, owner, _, _) =>
      exists t :: id == Op(t) && attempt == Att(t) && lease == Lease(t) && owner == WORKER
    case DoRegisterEvidence(e) => Honest(sum, workers, e)
    case DoRecordWorkerReport(e, _, _, _) => Honest(sum, workers, e)
    case DoInvalidateAttempt(_, _, _, _, e, _) => Honest(sum, workers, e)
    case DoCheckActive(_) => true
    case DoFinalizeTask(_, _, _) => true
    case _ => false
  }

  /** The identifiers that mark the records of a verdict are not used. */
  predicate Unmarked(c: Decision) {
    && (c.DoRegisterMessage? ==> !HasPrefix(c.env.messageId, "verified_"))
    && (c.DoRegisterEvidence? || c.DoRecordWorkerReport? || c.DoInvalidateAttempt? ==> !HasPrefix(c.record.id, "observed_"))
  }

  ghost predicate Routine(sum: Receipt -> string, workers: map<Id, Worker>, c: Decision) {
    Honestly(sum, workers, c) && Unmarked(c)
  }

  /** The verdict of a verification. */
  predicate Concludes(c: Decision) {
    c.DoApplyVerification? && c.v.verdict in {Satisfied, NotSatisfiedTerminal}
  }

  /** The step an operation takes under such a decision. */
  predicate Moved(o: Operation, o': Operation) {
    && o'.descriptor == o.descriptor && o'.revision == o.revision + 1
    && match o.state
       case Planned => o'.state == Ready && o'.generation == o.generation
       case Ready => o'.state == Executing && o'.generation == o.generation + 1
       case Executing => o'.state in {Verifying, UnknownOutcome} && o'.generation == o.generation
       case Verifying => o'.state in {UnknownOutcome, Succeeded, Failed} && o'.generation == o.generation
       case UnknownOutcome => o'.state == UnknownOutcome && o'.generation == o.generation
       case _ => false
  }

  lemma MovedStaged(o: Operation, o': Operation)
    requires Staged(o) && Moved(o, o')
    ensures Staged(o') && o'.descriptor == o.descriptor
  {
  }

  /** Where a decision leaves the operations: one moves, or one is added. */
  ghost predicate OpsAfter(ops: map<Id, Operation>, ops': map<Id, Operation>, c: Decision) {
    || ops' == ops
    || (&& c.DoCreateOperation? && c.desc.id !in ops && c.desc.id in ops'
        && ops' == ops[c.desc.id := ops'[c.desc.id]] && ops'[c.desc.id].descriptor == c.desc
        && ops'[c.desc.id].state == Planned && ops'[c.desc.id].revision == 1 && ops'[c.desc.id].generation == 0)
    || (exists k :: && k in ops && k in ops' && ops' == ops[k := ops'[k]] && Moved(ops[k], ops'[k])
                    && (ops'[k].state == UnknownOutcome ==> c.DoInvalidateAttempt? && c.id == k))
  }

  lemma LocalOpsAfter(ops: map<Id, Operation>, ops': map<Id, Operation>, c: Decision)
    requires LocalOps(ops) && OpsAfter(ops, ops', c) && (c.DoCreateOperation? ==> Described(c.desc, c.desc.taskId))
    ensures LocalOps(ops')
  {
    hide Staged, Moved;
    forall k | k in ops'
      ensures LocalOp(k, ops'[k])
    {
      if k in ops && ops'[k] != ops[k] {
        assert LocalOp(k, ops[k]);
        MovedStaged(ops[k], ops'[k]);
      } else if k !in ops {
        FreshStaged(ops'[k]);
      } else {
        assert LocalOp(k, ops[k]);
      }
    }
  }

  lemma FreshStaged(o: Operation)
    requires o.state == Planned && o.revision == 1 && o.generation == 0
    ensures Staged(o)
  {
  }

  // ---- one decision ---------------------------------------------------------

  lemma OneMoves(ops: map<Id, Operation>, k: Id, next: Operation, c: Decision)
    requires k in ops && Moved(ops[k], next)
    requires next.state == UnknownOutcome ==> c.DoInvalidateAttempt? && c.id == k
    ensures OpsAfter(ops, ops[k := next], c)
  {
    hide Moved;
    assert ops[k := next] == ops[k := ops[k := next][k]];
  }

  lemma TransitionMoves(d: Data, id: Id, expected: nat, to: OperationState, mark: Option<AttemptState>, at: Time, c: Decision)
    requires Inv(d) && id in d.ops && Transition(d, d.ops[id], expected, to, mark, at).Ok?
    requires to !in {Executing, UnknownOutcome, OperationCancelled} && (to == Ready ==> d.ops[id].state == Planned)
    requires to == Verifying ==> d.ops[id].state == Executing
    ensures var d' := Transition(d, d.ops[id], expected, to, mark, at).value;
            && OpsAfter(d.ops, d'.ops, c) && d'.tasks == d.tasks && d'.evidence == d.evidence
            && d'.verifications == d.verifications && d'.messages == d.messages
            && d'.attempts.Keys == d.attempts.Keys && d'.ops.Keys == d.ops.Keys && id in d'.ops && d'.ops[id].state == to
  {
    hide TasksOk, WorkOk, MessagesOk, GraphInv, RecordInv, ReservationsSound, ReservationsComplete, Transition, OpsAfter,
         ValidDescriptor, Released, Moved, Advance, Machine.Transition;
    assert OperationOk(d.tasks, id, d.ops[id]);
    if d.ops[id].active != "" {
      ActiveStored(d, id);
    }
    TransitionShape(d, d.ops[id], expected, to, mark, at);
    var next := Machine.Transition(d.ops[id], expected, to, at).value;
    TransitionMoved(d.ops[id], expected, to, at);
    OneMoves(d.ops, id, next, c);
    AdvanceFrame(d, id, next, mark, at);
  }

  lemma AdvanceFrame(d: Data, id: Id, next: Operation, mark: Option<AttemptState>, at: Time)
    requires id in d.ops && (d.ops[id].active != "" ==> d.ops[id].active in d.attempts)
    ensures var d' := Advance(d, id, next, mark, at);
            && d'.ops == d.ops[id := next] && d'.tasks == d.tasks && d'.evidence == d.evidence
            && d'.verifications == d.verifications && d'.messages == d.messages && d'.attempts.Keys == d.attempts.Keys
  {
    hide Released;
  }

  lemma TransitionMoved(op: Operation, expected: nat, to: OperationState, at: Time)
    requires Machine.Transition(op, expected, to, at).Ok?
    requires to !in {Executing, UnknownOutcome, OperationCancelled} && (to == Ready ==> op.state == Planned)
    requires to == Verifying ==> op.state == Executing
    ensures Moved(op, Machine.Transition(op, expected, to, at).value)
    ensures Machine.Transition(op, expected, to, at).value.state == to
  {
  }

  lemma ActiveStored(d: Data, id: Id)
    requires Inv(d) && id in d.ops && d.ops[id].active != ""
    ensures d.ops[id].active in d.attempts && d.attempts[d.ops[id].active].id == d.ops[id].active
    ensures d.attempts[d.ops[id].active].operationId == id
  {
    hide TasksOk, OperationsOk, WorkOk, MessagesOk, LeasesUnique, GenerationsUnique, GenerationsComplete, SettledOk, RecordInv,
         ReservationsSound, ReservationsComplete;
    assert ActiveOk(d.attempts, id, d.ops[id]);
    assert AttemptOk(d.ops, d.attempts, d.ops[id].active, d.attempts[d.ops[id].active]);
  }

  /** What a decision may add, besides moving an operation. */
  ghost predicate Adds(d: Data, d': Data, c: Decision) {
    && OpsAfter(d.ops, d'.ops, c)
    && (d'.attempts.Keys == d.attempts.Keys
        || (&& c.DoStartAttempt? && c.id in d.ops && d.ops[c.id].state == Ready
            && d'.attempts.Keys == d.attempts.Keys + {c.attempt}
            && d'.attempts[c.attempt].operationId == c.id && d'.attempts[c.attempt].leaseId == c.lease
            && d'.attempts[c.attempt].owner == c.owner && d'.attempts[c.attempt].generation == d.ops[c.id].generation + 1))
    && (d'.evidence == d.evidence
        || ((c.DoRegisterEvidence? || c.DoRecordWorkerReport? || c.DoInvalidateAttempt?)
            && d'.evidence == d.evidence[c.record.id := c.record]))
    && (d'.messages.Keys == d.messages.Keys
        || (c.DoRegisterMessage? && d'.messages.Keys == d.messages.Keys + {c.env.messageId}))
    && (d'.verifications == d.verifications
        || (c.DoApplyVerification? && d'.verifications == d.verifications[c.v.id := c.v]))
    && (d'.tasks == d.tasks
        || (c.DoCreateTask? && c.task in d'.tasks && d'.tasks == d.tasks[c.task := d'.tasks[c.task]]
            && d'.tasks[c.task].revision == 1 && d'.tasks[c.task].state == TaskPlanned)
        || (c.DoFinalizeTask? && c.task in d'.tasks && d'.tasks == d.tasks[c.task := d'.tasks[c.task]]
            && Terminal(d'.tasks[c.task].state)
            && (d'.tasks[c.task].state == TaskFailed ==> exists k :: OfTask(d.ops, c.task, k) && d.ops[k].state == Failed)))
  }

  lemma MessageAdds(d: Data, now: Time, c: Decision)
    requires c.DoRegisterMessage? && Decide(d, now, c).Ok?
    ensures Adds(d, Decide(d, now, c).value, c)
  {
    hide RegisterMessage;
    Runner.MessageMap(d, now, c.env);
  }

  lemma TaskAdds(d: Data, now: Time, c: Decision)
    requires Inv(d) && (c.DoCreateTask? || c.DoFinalizeTask?) && Decide(d, now, c).Ok?
    ensures Adds(d, Decide(d, now, c).value, c)
  {
    hide HasPending, OperationsOk, WorkOk, MessagesOk, GraphInv, RecordInv, ReservationsSound, ReservationsComplete, InState;
    if |InState(d, c.task, Failed)| > 0 {
      SomeFailed(d, c.task);
    }
  }

  lemma SomeFailed(d: Data, task: Id)
    requires |InState(d, task, Failed)| > 0
    ensures exists k :: OfTask(d.ops, task, k) && d.ops[k].state == Failed
  {
    var k :| k in InState(d, task, Failed);
    assert OfTask(d.ops, task, k);
  }

  lemma OperationAdds(d: Data, now: Time, c: Decision)
    requires (c.DoCreateOperation? || c.DoCheckActive? || c.DoRegisterEvidence?) && Decide(d, now, c).Ok?
    ensures Adds(d, Decide(d, now, c).value, c)
  {
    hide ValidDescriptor, ValidEvidence, Moved;
  }

  lemma ReadyAdds(d: Data, now: Time, c: Decision)
    requires Inv(d) && c.DoMarkReady? && Decide(d, now, c).Ok?
    ensures Adds(d, Decide(d, now, c).value, c)
  {
    hide Inv, Transition, OpsAfter;
    TransitionMoves(d, c.id, c.rev, Ready, None, c.at, c);
  }

  lemma StartAdds(d: Data, now: Time, c: Decision)
    requires Inv(d) && c.DoStartAttempt? && Decide(d, now, c).Ok?
    ensures Adds(d, Decide(d, now, c).value, c)
  {
    hide Inv, StartAttempt, OpsAfter, LeaseTaken, AllFree;
    StartReady(d, c);
    StoredUnderId(d, c.id);
    var next, a := StartShape(d, c.id, c.rev, c.attempt, c.lease, c.owner, c.retryOf, c.at);
    OneMoves(d.ops, c.id, next, c);
  }

  lemma StartReady(d: Data, c: Decision)
    requires c.DoStartAttempt? && StartAttempt(d, c.id, c.rev, c.attempt, c.lease, c.owner, c.retryOf, c.at).Ok?
    ensures c.id in d.ops && d.ops[c.id].state == Ready
  {
    hide ReserveAll;
  }

  lemma ReportAdds(d: Data, now: Time, c: Decision)
    requires Inv(d) && c.DoRecordWorkerReport? && Decide(d, now, c).Ok?
    ensures Adds(d, Decide(d, now, c).value, c)
  {
    hide Inv, RegisterEvidence, CheckActive, OpsAfter, Transition;
    var d1 := RegisterEvidence(d, c.record).value;
    RegisterEvidenceKeeps(d, c.record);
    if Decide(d, now, c).value != d1 {
      TransitionMoves(d1, c.record.operationId, d.ops[c.record.operationId].revision, Verifying, Some(Reported), now, c);
    }
    SameOps(d.ops, c);
  }

  lemma SameOps(ops: map<Id, Operation>, c: Decision)
    ensures OpsAfter(ops, ops, c)
  {
  }

  lemma InvalidateAdds(d: Data, now: Time, c: Decision)
    requires Inv(d) && c.DoInvalidateAttempt? && Decide(d, now, c).Ok?
    ensures Adds(d, Decide(d, now, c).value, c)
  {
    hide Inv, RegisterEvidence, OpsAfter, ValidDescriptor;
    RegisterEvidenceKeeps(d, c.record);
    ActiveStored(d, c.id);
    var next := Machine.LoseExecutionCertainty(d.ops[c.id], c.rev, c.at).value;
    StoredUnderId(d, c.id);
    OneMoves(d.ops, c.id, next, c);
  }

  lemma StoredUnderId(d: Data, id: Id)
    requires Inv(d) && id in d.ops
    ensures d.ops[id].descriptor.id == id && (d.ops[id].state == Ready ==> d.ops[id].active == "")
  {
    hide TasksOk, OperationsOk, WorkOk, MessagesOk, GraphInv, RecordInv, ReservationsSound, ReservationsComplete;
    ReadyFacts(d, id);
  }

  lemma ApplyAdds(d: Data, now: Time, c: Decision)
    requires Inv(d) && Concludes(c) && Decide(d, now, c).Ok?
    ensures Adds(d, Decide(d, now, c).value, c)
    ensures c.id in d.ops && c.id in Decide(d, now, c).value.ops
            && Decide(d, now, c).value.ops[c.id].state in {Succeeded, Failed}
    ensures c.v.operationId == c.id && c.v.id in Decide(d, now, c).value.verifications
  {
    hide Inv, OpsAfter, Transition, CheckReferences;
    var d1 := d.(verifications := d.verifications[c.v.id := c.v]);
    StoredUnderId(d, c.id);
    InsertVerificationKeeps(d, d.ops[c.id], c.v);
    TransitionMoves(d1, c.id, c.rev, Target(c.v.verdict), Some(AttemptClosed), c.at, c);
  }

  lemma DecisionAdds(sum: Receipt -> string, workers: map<Id, Worker>, d: Data, now: Time, c: Decision)
    requires Inv(d) && (Honestly(sum, workers, c) || Concludes(c)) && Decide(d, now, c).Ok?
    ensures Adds(d, Decide(d, now, c).value, c)
  {
    hide Inv, Decide, Adds, Honest, Described;
    match c
    case DoRegisterMessage(_) => MessageAdds(d, now, c);
    case DoCreateTask(_, _) => TaskAdds(d, now, c);
    case DoCreateOperation(_, _) => OperationAdds(d, now, c);
    case DoMarkReady(_, _, _) => ReadyAdds(d, now, c);
    case DoStartAttempt(_, _, _, _, _, _, _) => StartAdds(d, now, c);
    case DoRegisterEvidence(_) => OperationAdds(d, now, c);
    case DoRecordWorkerReport(_, _, _, _) => ReportAdds(d, now, c);
    case DoInvalidateAttempt(_, _, _, _, _, _) => InvalidateAdds(d, now, c);
    case DoCheckActive(_) => OperationAdds(d, now, c);
    case DoFinalizeTask(_, _, _) => TaskAdds(d, now, c);
    case DoApplyVerification(_, _, _, _) => ApplyAdds(d, now, c);
    case _ =>
  }

  // ---- the shape of the store survives --------------------------------------

  lemma LocalAfter(sum: Receipt -> string, workers: map<Id, Worker>, d: Data, d': Data, c: Decision)
    requires Inv(d) && Keeps(d, d') && Adds(d, d', c) && (Honestly(sum, workers, c) || Concludes(c))
    requires Local(sum, workers, d)
    ensures Local(sum, workers, d')
  {
    hide Inv, Keeps, Adds, LocalOps, LocalAttempts, LocalTasks, HonestEvidence;
    OpsSurvive(sum, workers, d, d', c);
    AttemptsSurvive(sum, workers, d, d', c);
    TasksSurvive(d, d', c);
    EvidenceSurvives(sum, workers, d, d', c);
  }

  lemma OpsSurvive(sum: Receipt -> string, workers: map<Id, Worker>, d: Data, d': Data, c: Decision)
    requires Adds(d, d', c) && (Honestly(sum, workers, c) || Concludes(c)) && LocalOps(d.ops)
    ensures LocalOps(d'.ops)
  {
    hide LocalOps, OpsAfter, Described;
    LocalOpsAfter(d.ops, d'.ops, c);
  }

  lemma AttemptsSurvive(sum: Receipt -> string, workers: map<Id, Worker>, d: Data, d': Data, c: Decision)
    requires Inv(d) && Keeps(d, d') && Adds(d, d', c) && (Honestly(sum, workers, c) || Concludes(c))
    requires LocalOps(d.ops) && LocalAttempts(d.ops, d.attempts)
    ensures LocalAttempts(d'.ops, d'.attempts)
  {
    hide Inv, Remembers, OpsAfter, Described, Honest, Moved;
    NamesDiffer();
    forall k | k in d'.attempts
      ensures LocalAttempt(d'.ops, k, d'.attempts[k])
    {
      if k in d.attempts {
        assert LocalAttempt(d.ops, k, d.attempts[k]);
        assert SameIdentity(d.attempts[k], d'.attempts[k]);
      } else {
        assert LocalOp(c.id, d.ops[c.id]);
      }
    }
  }

  lemma TasksSurvive(d: Data, d': Data, c: Decision)
    requires Keeps(d, d') && Adds(d, d', c) && LocalOps(d.ops) && LocalTasks(d.tasks, d.ops)
    ensures LocalTasks(d'.tasks, d'.ops)
  {
    hide OpsAfter, Inv, OperationsEvolve, AttemptsEvolve, AttemptsAge, ActivesAge, ClosedTasksStay, Described, Staged;
    forall k | k in d'.tasks
      ensures LocalTask(d'.ops, k, d'.tasks[k])
    {
      if k in d.tasks && d'.tasks[k] == d.tasks[k] {
        assert LocalTask(d.ops, k, d.tasks[k]);
      } else if d'.tasks[k].state == TaskFailed {
        var x :| OfTask(d.ops, k, x) && d.ops[x].state == Failed;
        assert LocalOp(x, d.ops[x]);
      }
    }
  }

  lemma EvidenceSurvives(sum: Receipt -> string, workers: map<Id, Worker>, d: Data, d': Data, c: Decision)
    requires Adds(d, d', c) && (Honestly(sum, workers, c) || Concludes(c)) && HonestEvidence(sum, workers, d.evidence)
    ensures HonestEvidence(sum, workers, d'.evidence)
  {
    hide OpsAfter, Described, Honest;
  }

  // ---- verdicts and reported operations -------------------------------------

  predicate Concluded(ops: map<Id, Operation>, id: Id) {
    Op(id) in ops && ops[Op(id)].state in {Succeeded, Failed}
  }

  /** The records that only a verdict writes come with a closed operation. */
  ghost predicate VerdictsClosed(d: Data) {
    && (forall k :: k in d.messages && HasPrefix(k, "verified_") ==> Concluded(d.ops, k[9..]))
    && (forall k :: k in d.evidence && HasPrefix(k, "observed_") ==> Concluded(d.ops, k[9..]))
    && (forall k :: k in d.verifications ==> HasPrefix(k, "verification_") && Concluded(d.ops, k[13..]))
  }

  lemma ClosedStays(d: Data, d': Data, id: Id)
    requires Keeps(d, d') && Concluded(d.ops, id)
    ensures Concluded(d'.ops, id)
  {
    hide Inv, OperationsEvolve, AttemptsEvolve, AttemptsAge, ActivesAge, ClosedTasksStay;
  }

  lemma KeepsVerdicts(d: Data, d': Data)
    requires Keeps(d, d')
    ensures Grows(d.messages, d'.messages) && Grows(d.evidence, d'.evidence)
  {
    hide Inv;
  }

  lemma RoutineVerdicts(sum: Receipt -> string, workers: map<Id, Worker>, d: Data, d': Data, c: Decision)
    requires Keeps(d, d') && Adds(d, d', c) && Routine(sum, workers, c) && VerdictsClosed(d)
    ensures VerdictsClosed(d') && d'.verifications == d.verifications
  {
    hide Inv, Keeps, OpsAfter, Described, Honest, Concluded;
    KeepsVerdicts(d, d');
    forall id | Concluded(d.ops, id)
      ensures Concluded(d'.ops, id)
    {
      ClosedStays(d, d', id);
    }
    forall k | k in d'.messages && HasPrefix(k, "verified_")
      ensures k in d.messages
    {
      assert k in d'.messages.Keys;
    }
    forall k | k in d'.evidence && HasPrefix(k, "observed_")
      ensures k in d.evidence
    {
    }
  }

  /** Reported by its worker, and not withdrawn. */
  predicate Awaiting(ops: map<Id, Operation>, id: Id) {
    Op(id) in ops && ops[Op(id)].state in {Verifying, Succeeded, Failed}
  }

  predicate Spares(c: Decision, id: Id) {
    c.DoInvalidateAttempt? ==> c.id != Op(id)
  }

  /** Only withdrawing its own attempt takes a reported operation back. */
  lemma AwaitingStays(ops: map<Id, Operation>, ops': map<Id, Operation>, c: Decision, id: Id)
    requires OpsAfter(ops, ops', c) && Awaiting(ops, id) && Spares(c, id)
    ensures Awaiting(ops', id)
  {
  }

  // ---- commits of routine decisions -----------------------------------------

  /** The store of local checks: consistent, local, and with closed verdicts. */
  ghost predicate Shape(sum: Receipt -> string, workers: map<Id, Worker>, d: Data) {
    Inv(d) && Local(sum, workers, d) && VerdictsClosed(d)
  }

  ghost predicate Sparing(cs: seq<Decision>, id: Id) {
    forall c :: c in cs ==> Spares(c, id)
  }

  ghost predicate AllRoutine(sum: Receipt -> string, workers: map<Id, Worker>, cs: seq<Decision>) {
    forall c :: c in cs ==> Routine(sum, workers, c)
  }

  /** What a commit of routine decisions leaves behind. */
  ghost predicate Routinely(sum: Receipt -> string, workers: map<Id, Worker>, d: Data, d': Data) {
    Keeps(d, d') && Shape(sum, workers, d') && d'.verifications == d.verifications
  }

  lemma RoutinelyStill(sum: Receipt -> string, workers: map<Id, Worker>, d: Data)
    requires Shape(sum, workers, d)
    ensures Routinely(sum, workers, d, d)
  {
    hide Inv, Local, VerdictsClosed, Keeps;
    KeepsReflexive(d);
  }

  lemma HonestStep(sum: Receipt -> string, workers: map<Id, Worker>, d: Data, now: Time, c: Decision)
    requires Inv(d) && Local(sum, workers, d) && (Honestly(sum, workers, c) || Concludes(c)) && Decide(d, now, c).Ok?
    ensures var d' := Decide(d, now, c).value; Keeps(d, d') && Inv(d') && Local(sum, workers, d') && Adds(d, d', c)
    ensures forall x :: Awaiting(d.ops, x) && Spares(c, x) ==> Awaiting(Decide(d, now, c).value.ops, x)
  {
    hide Inv, Local, Keeps, Decide, OpsAfter, Honestly, Concludes, Awaiting;
    var d' := Decide(d, now, c).value;
    DecisionKeeps(d, now, c);
    KeepsInv(d, d');
    DecisionAdds(sum, workers, d, now, c);
    LocalAfter(sum, workers, d, d', c);
    forall x | Awaiting(d.ops, x) && Spares(c, x)
      ensures Awaiting(d'.ops, x)
    {
      AwaitingStays(d.ops, d'.ops, c, x);
    }
  }

  lemma RoutineStep(sum: Receipt -> string, workers: map<Id, Worker>, d: Data, now: Time, c: Decision)
    requires Shape(sum, workers, d) && Routine(sum, workers, c) && Decide(d, now, c).Ok?
    ensures Routinely(sum, workers, d, Decide(d, now, c).value)
    ensures forall x :: Awaiting(d.ops, x) && Spares(c, x) ==> Awaiting(Decide(d, now, c).value.ops, x)
  {
    hide Inv, Local, VerdictsClosed, Keeps, Decide, Adds, Honestly, Unmarked, Awaiting, Spares;
    HonestStep(sum, workers, d, now, c);
    RoutineVerdicts(sum, workers, d, Decide(d, now, c).value, c);
  }

  lemma {:induction false} RoutineSteps(sum: Receipt -> string, workers: map<Id, Worker>, d: Data, now: Time, cs: seq<Decision>)
    requires Shape(sum, workers, d) && AllRoutine(sum, workers, cs) && DecideAll(d, now, cs).Ok?
    ensures Routinely(sum, workers, d, DecideAll(d, now, cs).value)
    ensures forall id :: Awaiting(d.ops, id) && Sparing(cs, id) ==> Awaiting(DecideAll(d, now, cs).value.ops, id)
    decreases |cs|
  {
    hide Inv, Local, VerdictsClosed, Keeps, Decide, Routine, Awaiting, Spares;
    if cs == [] {
      RoutinelyStill(sum, workers, d);
    } else {
      var d1 := Decide(d, now, cs[0]).value;
      RoutineStep(sum, workers, d, now, cs[0]);
      RoutineSteps(sum, workers, d1, now, cs[1..]);
      KeepsTransitive(d, d1, DecideAll(d, now, cs).value);
      forall id | Sparing(cs, id)
        ensures Spares(cs[0], id) && Sparing(cs[1..], id)
      {
      }
    }
  }

  lemma RoutineDelivery(sum: Receipt -> string, workers: map<Id, Worker>, d: Data, now: Time, env: Envelope, cs: seq<Decision>,
                        ack: Runner.Ack)
    requires Shape(sum, workers, d) && AllRoutine(sum, workers, cs) && !HasPrefix(env.messageId, "verified_")
    ensures Routinely(sum, workers, d, Runner.Deliver(d, now, env, cs, ack).0)
    ensures forall id :: Awaiting(d.ops, id) && Sparing(cs, id) ==> Awaiting(Runner.Deliver(d, now, env, cs, ack).0.ops, id)
  {
    hide Shape, Routinely, Keeps, RegisterMessage, DecideAll, AllRoutine, Awaiting, Sparing, HasPrefix;
    RoutinelyStill(sum, workers, d);
    if History.ProcessMessage(d, now, env, cs).Ok? {
      RoutineMessage(sum, workers, d, now, env, cs);
    }
  }

  lemma RoutineMessage(sum: Receipt -> string, workers: map<Id, Worker>, d: Data, now: Time, env: Envelope, cs: seq<Decision>)
    requires Shape(sum, workers, d) && AllRoutine(sum, workers, cs) && !HasPrefix(env.messageId, "verified_")
    requires History.ProcessMessage(d, now, env, cs).Ok?
    ensures Routinely(sum, workers, d, History.ProcessMessage(d, now, env, cs).value.0)
    ensures forall id :: Awaiting(d.ops, id) && Sparing(cs, id) ==>
                           Awaiting(History.ProcessMessage(d, now, env, cs).value.0.ops, id)
  {
    hide Inv, Local, VerdictsClosed, Keeps, RegisterMessage, DecideAll, AllRoutine, Awaiting, Sparing, HasPrefix;
    var c := DoRegisterMessage(env);
    var (d1, duplicate) := RegisterMessage(d, now, env).value;
    assert Decide(d, now, c) == Ok(d1);
    RoutineStep(sum, workers, d, now, c);
    if !duplicate {
      RoutineSteps(sum, workers, d1, now, cs);
      KeepsTransitive(d, d1, DecideAll(d1, now, cs).value);
    }
  }

  lemma RoutineWrite(sum: Receipt -> string, workers: map<Id, Worker>, d: Data, c: Decision, ack: Runner.Ack)
    requires Shape(sum, workers, d) && Routine(sum, workers, c)
    ensures Routinely(sum, workers, d, Write(d, c, ack).0)
    ensures forall id :: Awaiting(d.ops, id) && !c.DoInvalidateAttempt? ==> Awaiting(Write(d, c, ack).0.ops, id)
  {
    hide Shape, Routinely, Keeps, Decide, Awaiting, Routine;
    RoutinelyStill(sum, workers, d);
    if Decide(d, 0, c).Ok? {
      RoutineStep(sum, workers, d, 0, c);
    }
  }

  // ---- the verdict ----------------------------------------------------------

  ghost predicate VerdictAdded(d: Data, d': Data, id: Id, v: Verification) {
    && d'.messages.Keys <= d.messages.Keys + {Verified(id)}
    && d'.evidence.Keys <= d.evidence.Keys + {Observed(id)}
    && (d'.verifications == d.verifications || d'.verifications == d.verifications[Judgement(id) := v])
  }

  lemma VerdictCloses(d: Data, d': Data, id: Id, v: Verification)
    requires VerdictsClosed(d) && Keeps(d, d') && Concluded(d'.ops, id) && VerdictAdded(d, d', id, v)
    ensures VerdictsClosed(d')
  {
    hide Inv, Keeps, Concluded;
    assert Verified(id)[9..] == id && Observed(id)[9..] == id && Judgement(id)[13..] == id;
    forall x | Concluded(d.ops, x)
      ensures Concluded(d'.ops, x)
    {
      ClosedStays(d, d', x);
    }
    assert forall k :: k in d'.messages ==> k in d.messages.Keys || k == Verified(id);
    assert forall k :: k in d'.evidence ==> k in d.evidence.Keys || k == Observed(id);
  }

  lemma ObservedStored(d: Data, now: Time, id: Id, r: Receipt, digest: string, at: Time)
    requires Decide(d, now, DoRegisterEvidence(ObservedRecord(id, r, digest, at))).Ok?
    ensures Matched(Decide(d, now, DoRegisterEvidence(ObservedRecord(id, r, digest, at))).value.evidence, id, digest)
  {
    hide ValidEvidence;
  }

  lemma ObservedStays(d: Data, d': Data, id: Id, digest: string)
    requires Keeps(d, d') && Matched(d.evidence, id, digest)
    ensures Matched(d'.evidence, id, digest)
  {
    hide Inv, OperationsEvolve, AttemptsEvolve, AttemptsAge, ActivesAge, OutcomesStay, ClosedTasksStay;
  }

  lemma TwoVerdicts(r: Receipt)
    ensures VerdictOf(r) in {Satisfied, NotSatisfiedTerminal}
  {
  }

  lemma VerdictSteps(sum: Receipt -> string, workers: map<Id, Worker>, d: Data, now: Time, id: Id, r: Receipt, digest: string,
                     revision: nat, at: Time)
    requires Inv(d) && Local(sum, workers, d)
    requires DecideAll(d, now, VerdictDecisions(id, r, digest, revision, at)).Ok?
    ensures var d' := DecideAll(d, now, VerdictDecisions(id, r, digest, revision, at)).value;
            && Keeps(d, d') && Inv(d') && Local(sum, workers, d') && Concluded(d'.ops, id) && d'.tasks == d.tasks
            && (forall x :: Awaiting(d.ops, x) ==> Awaiting(d'.ops, x))
            && d'.messages.Keys == d.messages.Keys && d'.evidence.Keys <= d.evidence.Keys + {Observed(id)}
            && (d'.verifications == d.verifications
                || (&& d'.verifications == d.verifications[Judgement(id) := VerificationOf(id, r, at)]
                    && Matched(d'.evidence, id, digest)))
  {
    hide Inv, Local, Keeps, Decide, Awaiting, OpsAfter, VerdictOf, SummaryOf, DecideAll, Matched;
    var cs := VerdictDecisions(id, r, digest, revision, at);
    History.BothDecided(d, now, cs);
    var d1 := Decide(d, now, cs[0]).value;
    var d2 := Decide(d1, now, cs[1]).value;
    assert VerdictOf(r) in {Satisfied, NotSatisfiedTerminal} by {
      TwoVerdicts(r);
    }
    HonestStep(sum, workers, d, now, cs[0]);
    HonestStep(sum, workers, d1, now, cs[1]);
    ObservedStored(d, now, id, r, digest, at);
    ObservedStays(d1, d2, id, digest);
    KeepsTransitive(d, d1, d2);
    ApplyAdds(d1, now, cs[1]);
  }

  /** The verdict of a recovery stores the one verification of its task and closes
      the operation. */
  lemma VerdictCommit(sum: Receipt -> string, workers: map<Id, Worker>, d: Data, now: Time, id: Id, r: Receipt, digest: string,
                      revision: nat, at: Time)
    requires Shape(sum, workers, d)
    requires History.ProcessMessage(d, now, VerdictEnvelope(id, r, digest), VerdictDecisions(id, r, digest, revision, at)).Ok?
    ensures var (d', duplicate) := History.ProcessMessage(d, now, VerdictEnvelope(id, r, digest),
                                                          VerdictDecisions(id, r, digest, revision, at)).value;
            && Keeps(d, d') && Shape(sum, workers, d') && Concluded(d'.ops, id) && d'.tasks == d.tasks
            && (forall x :: Awaiting(d.ops, x) ==> Awaiting(d'.ops, x))
            && (d'.verifications == d.verifications
                || (&& d'.verifications == d.verifications[Judgement(id) := VerificationOf(id, r, at)]
                    && Matched(d'.evidence, id, digest)))
  {
    hide Inv, Local, Keeps, RegisterMessage, Decide, DecideAll, Awaiting, Concluded, OpsAfter, VerificationOf, VerdictDecisions,
         VerdictsClosed, Matched;
    var env := VerdictEnvelope(id, r, digest);
    var c := DoRegisterMessage(env);
    var (d1, duplicate) := RegisterMessage(d, now, env).value;
    assert Decide(d, now, c) == Ok(d1) by {
      RegistersMessage(d, now, env);
    }
    HonestStep(sum, workers, d, now, c);
    var d' := d1;
    if duplicate {
      DuplicateVerdict(d, now, env, id);
    } else {
      var cs := VerdictDecisions(id, r, digest, revision, at);
      d' := DecideAll(d1, now, cs).value;
      VerdictSteps(sum, workers, d1, now, id, r, digest, revision, at);
      KeepsTransitive(d, d1, d');
    }
    VerdictCloses(d, d', id, VerificationOf(id, r, at));
  }

  lemma RegistersMessage(d: Data, now: Time, env: Envelope)
    requires RegisterMessage(d, now, env).Ok?
    ensures Decide(d, now, DoRegisterMessage(env)) == Ok(RegisterMessage(d, now, env).value.0)
  {
    hide RegisterMessage;
  }

  lemma DuplicateVerdict(d: Data, now: Time, env: Envelope, id: Id)
    requires VerdictsClosed(d) && env.messageId == Verified(id)
    requires RegisterMessage(d, now, env).Ok? && RegisterMessage(d, now, env).value.1
    ensures RegisterMessage(d, now, env).value.0 == d && Concluded(d.ops, id)
  {
    hide ValidEnvelope, Acceptable;
    assert Verified(id)[9..] == id && HasPrefix(Verified(id), "verified_");
  }
}
