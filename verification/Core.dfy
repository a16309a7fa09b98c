/** The core's transaction object: decisions written against a memory transaction,
    and the poison flag that keeps a failed transaction from being committed. */
module Core {
  import opened Basics
  import opened Records
  import opened Storage
  import opened Decisions
  import opened Memory
  import Machine

  /** A decision follows its specification; after an error the data is never
      looked at again, so nothing is said about it. */
  ghost predicate Follows(after: Data, r: Outcome, spec: Result<Data>) {
    match spec
    case Ok(d) => r == Pass && after == d
    case Err(e) => r == Fail(e)
  }

  ghost predicate FollowsWith(after: Data, r: Result<bool>, spec: Result<(Data, bool)>) {
    match spec
    case Ok(v) => r == Ok(v.1) && after == v.0
    case Err(e) => r == Err(e)
  }

  class Transaction {
    const tx: Tx
    const now: Time
    var failed: Option<Error>

    constructor (tx: Tx, now: Time)
      ensures this.tx == tx && this.now == now && failed == None
    {
      this.tx := tx;
      this.now := now;
      failed := None;
    }

    // ---- messages, tasks, operations ----------------------------------------

    method RegisterMessage(env: Envelope) returns (r: Result<bool>)
      requires tx.write
      modifies tx
      ensures FollowsWith(tx.d, r, Decisions.RegisterMessage(old(tx.d), now, env))
    {
      hide ValidEnvelope;
      if !ValidEnvelope(env) {
        return Err(InvalidEnvelope);
      }
      var cutoff := Unix(now - REPLAY_WINDOW);
      if tx.d.messageFloor > cutoff {
        cutoff := tx.d.messageFloor;
      }
      if Unix(env.issuedAt) < cutoff || env.issuedAt > now + CLOCK_SKEW {
        return Err(ExpiredMessage);
      }
      if env.messageId in tx.d.messages {
        if tx.d.messages[env.messageId].digest == V1(env) {
          return Ok(true);
        }
        return Err(MessageIdCollision);
      }
      if env.operationId != "" && env.operationId in tx.d.ops && tx.d.ops[env.operationId].descriptor.taskId != env.taskId {
        return Err(EvidenceScope);
      }
      if env.attemptId != "" && env.attemptId in tx.d.attempts && tx.d.attempts[env.attemptId].operationId != env.operationId {
        return Err(EvidenceScope);
      }
      if env.taskId in tx.d.tasks && Terminal(tx.d.tasks[env.taskId].state) {
        return Err(TaskTerminal);
      }
      var expires := Unix(now + REPLAY_WINDOW);
      if Unix(env.issuedAt + REPLAY_WINDOW) > expires {
        expires := Unix(env.issuedAt + REPLAY_WINDOW);
      }
      var o := tx.InsertMessage(Message(env.messageId, env.taskId, env.operationId, env.attemptId, V1(env), env.issuedAt, expires));
      match o {
        case Fail(e) => return Err(e);
        case Pass => return Ok(false);
      }
    }

    method CreateTask(id: Id, at: Time) returns (r: Outcome)
      requires tx.write
      modifies tx
      ensures Follows(tx.d, r, Decisions.CreateTask(old(tx.d), id, at))
    {
      if id == "" || at == ZERO_TIME {
        return Fail(Invalid);
      }
      r := tx.InsertTask(Task(id, TaskPlanned, 1, at, at));
    }

    method CreateOperation(desc: Descriptor, at: Time) returns (r: Outcome)
      requires tx.write
      modifies tx
      ensures Follows(tx.d, r, Decisions.CreateOperation(old(tx.d), desc, at))
    {
      var valid := IsValidDescriptor(desc);
      if !valid {
        return Fail(InvalidDescriptor);
      }
      if at == ZERO_TIME {
        return Fail(Invalid);
      }
      if desc.taskId !in tx.d.tasks {
        return Fail(NotFound);
      }
      if Terminal(tx.d.tasks[desc.taskId].state) {
        return Fail(TaskTerminal);
      }
      r := tx.InsertOperation(Operation(desc, Planned, 1, 0, "", at, at));
    }

    /** `OperationDescriptor.Validate`, ending in its scope loop. */
    method IsValidDescriptor(desc: Descriptor) returns (ok: bool)
      ensures ok <==> ValidDescriptor(desc)
    {
      if desc.id == "" || desc.taskId == "" || Blank(desc.name) || Blank(desc.targetRef) {
        return false;
      }
      if desc.effect.UnknownEffect? || desc.idempotency.OtherMode? {
        return false;
      }
      if Blank(desc.verificationPolicy) || Blank(desc.authorizationPolicy) {
        return false;
      }
      ok := CheckScopes(desc.conflictScope);
      if ok && desc.effect == Mutation && desc.conflictScope == [] {
        return false;
      }
    }

    // ---- state changes ------------------------------------------------------

    method Transition(op: Operation, expected: nat, to: OperationState, mark: Option<AttemptState>, at: Time) returns (r: Outcome)
      requires tx.write
      modifies tx
      ensures Follows(tx.d, r, Decisions.Transition(old(tx.d), op, expected, to, mark, at))
    {
      var next := Machine.Transition(op, expected, to, at);
      if next.Err? {
        return Fail(next.error);
      }
      if op.active != "" {
        if op.active !in tx.d.attempts {
          return Fail(NotFound);
        }
        var a := tx.d.attempts[op.active];
        if mark.Some? {
          a := a.(state := mark.value);
        }
        r := tx.UpdateAttempt(a.(updatedAt := at));
        if r.Fail? {
          return;
        }
      }
      if !Holds(next.value) {
        r := tx.Release(op.descriptor.id);
      }
      r := tx.UpdateOperation(next.value, expected);
    }

    method MarkReady(id: Id, expected: nat, at: Time) returns (r: Outcome)
      requires tx.write
      modifies tx
      ensures Follows(tx.d, r, Decisions.MarkReady(old(tx.d), id, expected, at))
    {
      hide Decisions.Transition;
      if id !in tx.d.ops {
        return Fail(NotFound);
      }
      if tx.d.ops[id].state != Planned {
        return Fail(InvalidTransition);
      }
      r := Transition(tx.d.ops[id], expected, Ready, None, at);
    }

    method StartAttempt(id: Id, expected: nat, attemptId: Id, leaseId: Id, owner: Id, retryOf: Id, at: Time) returns (r: Outcome)
      requires tx.write
      modifies tx
      ensures Follows(tx.d, r, Decisions.First(Decisions.StartAttempt(old(tx.d), id, expected, attemptId, leaseId, owner, retryOf, at)))
    {
      if leaseId == "" || owner == "" {
        return Fail(Invalid);
      }
      if id !in tx.d.ops {
        return Fail(NotFound);
      }
      var op := tx.d.ops[id];
      if retryOf != "" {
        if retryOf !in tx.d.attempts {
          return Fail(NotFound);
        }
        if tx.d.attempts[retryOf].operationId != id {
          return Fail(StaleOwnership);
        }
      }
      var m := Machine.StartAttempt(op, expected, attemptId, at);
      if m.Err? {
        return Fail(m.error);
      }
      var a := m.value.1.(leaseId := leaseId, owner := owner, retryOf := retryOf);
      r := tx.InsertAttempt(a);
      if r.Fail? {
        return;
      }
      if op.descriptor.effect == Mutation {
        r := ReserveAll(a, op.descriptor.conflictScope, at);
        if r.Fail? {
          return;
        }
      }
      r := tx.UpdateOperation(m.value.0, expected);
    }

    /** The reservation loop: the first scope that is taken ends it. */
    method ReserveAll(a: Attempt, scopes: seq<string>, at: Time) returns (r: Outcome)
      requires tx.write
      modifies tx
      ensures Follows(tx.d, r, Decisions.ReserveAll(old(tx.d), a, scopes, at))
    {
      for i := 0 to |scopes|
        invariant Decisions.ReserveAll(tx.d, a, scopes[i..], at) == Decisions.ReserveAll(old(tx.d), a, scopes, at)
      {
        assert scopes[i..] == [scopes[i]] + scopes[i + 1..];
        r := tx.Reserve(ReservationFor(a, scopes[i], at));
        if r.Fail? {
          return;
        }
      }
      return Pass;
    }

    method BeginVerification(id: Id, expected: nat, at: Time) returns (r: Outcome)
      requires tx.write
      modifies tx
      ensures Follows(tx.d, r, Decisions.BeginVerification(old(tx.d), id, expected, at))
    {
      hide Decisions.Transition;
      if id !in tx.d.ops {
        return Fail(NotFound);
      }
      var op := tx.d.ops[id];
      r := Transition(op, expected, Verifying, if op.state == Executing then Some(Reported) else None, at);
    }

    method MarkUnknownOutcome(id: Id, expected: nat, at: Time) returns (r: Outcome)
      requires tx.write
      modifies tx
      ensures Follows(tx.d, r, Decisions.MarkUnknownOutcome(old(tx.d), id, expected, at))
    {
      hide Decisions.Transition;
      if id !in tx.d.ops {
        return Fail(NotFound);
      }
      r := Transition(tx.d.ops[id], expected, UnknownOutcome, Some(Uncertain), at);
    }

    // ---- evidence and verification ------------------------------------------

    method RegisterEvidence(v: Evidence) returns (r: Outcome)
      requires tx.write
      modifies tx
      ensures Follows(tx.d, r, Decisions.RegisterEvidence(old(tx.d), v))
    {
      if !ValidEvidence(v) {
        return Fail(Invalid);
      }
      if v.operationId !in tx.d.ops {
        return Fail(NotFound);
      }
      if tx.d.ops[v.operationId].descriptor.taskId != v.taskId {
        return Fail(EvidenceScope);
      }
      if v.attemptId != "" {
        if v.attemptId !in tx.d.attempts {
          return Fail(NotFound);
        }
        if tx.d.attempts[v.attemptId].operationId != v.operationId {
          return Fail(EvidenceScope);
        }
      }
      if v.taskId !in tx.d.tasks {
        return Fail(NotFound);
      }
      if Terminal(tx.d.tasks[v.taskId].state) {
        return Fail(TaskTerminal);
      }
      r := tx.InsertEvidence(v);
    }

    /** Identity, policy and active attempt must agree; then the evidence loop with
        its `seen` map. */
    method ValidateVerification(op: Operation, v: Verification) returns (r: Outcome)
      ensures r == match Decisions.ValidateVerification(tx.d, op, v) case Ok(_) => Pass case Err(e) => Fail(e)
    {
      if !ValidVerification(v) {
        return Fail(Invalid);
      }
      if v.operationId != op.descriptor.id || v.policyRef != op.descriptor.verificationPolicy || v.attemptId == "" || v.attemptId != op.active {
        return Fail(EvidenceScope);
      }
      var seen: set<Id> := {};
      for i := 0 to |v.evidenceIds|
        invariant CheckReferences(tx.d, v, v.evidenceIds[i..], seen) == CheckReferences(tx.d, v, v.evidenceIds, {})
      {
        var id := v.evidenceIds[i];
        assert v.evidenceIds[i..] == [id] + v.evidenceIds[i + 1..];
        if id in seen {
          return Fail(EvidenceScope);
        }
        seen := seen + {id};
        if id !in tx.d.evidence {
          return Fail(NotFound);
        }
        if tx.d.evidence[id].operationId != v.operationId || tx.d.evidence[id].attemptId != v.attemptId {
          return Fail(EvidenceScope);
        }
      }
      return Pass;
    }

    method Apply(id: Id, expected: nat, v: Verification, at: Time, notStarted: bool) returns (r: Outcome)
      requires tx.write
      modifies tx
      ensures Follows(tx.d, r, Decisions.Apply(old(tx.d), id, expected, v, at, notStarted))
    {
      hide Decisions.Transition, Decisions.ValidateVerification;
      if id !in tx.d.ops {
        return Fail(NotFound);
      }
      var op := tx.d.ops[id];
      r := ValidateVerification(op, v);
      if r.Fail? {
        return;
      }
      var to := Target(v.verdict);
      var mark := AttemptClosed;
      if to == UnknownOutcome {
        mark := Uncertain;
      }
      if notStarted {
        mark := NotStarted;
      }
      r := tx.InsertVerification(v);
      if r.Fail? {
        return;
      }
      r := Transition(op, expected, to, Some(mark), at);
    }

    method MarkNotStarted(id: Id, expected: nat, v: Verification, at: Time) returns (r: Outcome)
      requires tx.write
      modifies tx
      ensures Follows(tx.d, r, Decisions.MarkNotStarted(old(tx.d), id, expected, v, at))
    {
      hide Decisions.Apply;
      if v.verdict != NotSatisfiedRetryable || !v.retryExecutionSafe {
        return Fail(Invalid);
      }
      r := Apply(id, expected, v, at, true);
    }

    // ---- authority ----------------------------------------------------------

    method CheckActive(c: Claim) returns (r: Outcome)
      ensures r == match Decisions.CheckActive(tx.d, c) case Ok(_) => Pass case Err(e) => Fail(e)
    {
      if c.operationId !in tx.d.ops {
        return Fail(NotFound);
      }
      var op := tx.d.ops[c.operationId];
      if op.active == "" || op.active != c.attemptId || op.generation != c.generation {
        return Fail(StaleOwnership);
      }
      if c.attemptId !in tx.d.attempts {
        return Fail(NotFound);
      }
      var a := tx.d.attempts[c.attemptId];
      if c.attemptId in tx.d.revocations {
        return Fail(StaleOwnership);
      }
      if a.state != Running && a.state != Reported {
        return Fail(StaleOwnership);
      }
      if a.leaseId != c.leaseId || a.generation != c.generation || a.owner != c.owner {
        return Fail(StaleOwnership);
      }
      if op.state != Executing && op.state != Verifying && op.state != UnknownOutcome {
        return Fail(StaleOwnership);
      }
      return Pass;
    }

    method RecordWorkerReport(record: Evidence, lease: Id, generation: nat, expires: Time) returns (r: Result<bool>)
      requires tx.write
      modifies tx
      ensures FollowsWith(tx.d, r, Decisions.RecordWorkerReport(old(tx.d), now, record, lease, generation, expires))
    {
      hide Decisions.CheckActive, Decisions.RegisterEvidence, Decisions.BeginVerification;
      if record.operationId !in tx.d.ops || record.attemptId !in tx.d.attempts {
        return Err(NotFound);
      }
      var op, a := tx.d.ops[record.operationId], tx.d.attempts[record.attemptId];
      if expires == ZERO_TIME || record.kind != WorkerReport || a.operationId != record.operationId || a.owner != record.source
         || a.leaseId != lease || a.generation != generation || record.subjectRef != op.descriptor.targetRef {
        return Err(EvidenceScope);
      }
      var o := RegisterEvidence(record);
      if o.Fail? {
        return Err(o.error);
      }
      o := CheckActive(Claim(record.operationId, a.id, lease, generation, record.source));
      if o == Fail(StaleOwnership) {
        return Ok(false);
      }
      if o.Fail? {
        return Err(o.error);
      }
      if now >= expires {
        return Err(DeadlineExceeded);
      }
      if op.state != Executing {
        return Ok(false);
      }
      o := BeginVerification(record.operationId, op.revision, now);
      if o.Fail? {
        return Err(o.error);
      }
      return Ok(true);
    }

    method InvalidateAttempt(id: Id, expected: nat, attemptId: Id, reason: LossReason, seen: Evidence, at: Time) returns (r: Outcome)
      requires tx.write
      modifies tx
      ensures Follows(tx.d, r, Decisions.InvalidateAttempt(old(tx.d), id, expected, attemptId, reason, seen, at))
    {
      hide Decisions.RegisterEvidence;
      if reason.OtherReason? {
        return Fail(Invalid);
      }
      if id !in tx.d.ops {
        return Fail(NotFound);
      }
      var op := tx.d.ops[id];
      if op.revision != expected {
        return Fail(RevisionConflict);
      }
      if attemptId == "" || op.active != attemptId {
        return Fail(StaleOwnership);
      }
      if attemptId in tx.d.revocations {
        return Fail(StaleOwnership);
      }
      if seen.operationId != id || seen.attemptId != attemptId
         || (seen.kind != ProcessObservation && seen.kind != TransportObservation && seen.kind != PolicyDecision) {
        return Fail(EvidenceScope);
      }
      var next := Machine.LoseExecutionCertainty(op, expected, at);
      if next.Err? {
        return Fail(next.error);
      }
      r := RegisterEvidence(seen);
      if r.Fail? {
        return;
      }
      r := tx.InsertRevocation(Revocation(attemptId, id, seen.id, reason, at));
      if r.Fail? {
        return;
      }
      if attemptId !in tx.d.attempts {
        return Fail(NotFound);
      }
      r := tx.UpdateAttempt(tx.d.attempts[attemptId].(state := Uncertain, updatedAt := at));
      if r.Fail? {
        return;
      }
      r := tx.UpdateOperation(next.value, expected);
    }

    method FinalizeTask(id: Id, revision: nat, at: Time) returns (r: Outcome)
      requires tx.write
      modifies tx
      ensures Follows(tx.d, r, Decisions.FinalizeTask(old(tx.d), id, revision, at))
    {
      hide HasPending;
      if id !in tx.d.tasks {
        return Fail(NotFound);
      }
      var task := tx.d.tasks[id];
      if task.revision != revision {
        return Fail(RevisionConflict);
      }
      if Terminal(task.state) {
        return Fail(TaskTerminal);
      }
      if at == ZERO_TIME || revision == 0 || revision >= MAX_INT64 {
        return Fail(Invalid);
      }
      var summary := tx.TaskSummary(id);
      if summary.operations == 0 || summary.pending > 0 {
        return Fail(Invalid);
      }
      if summary.failed > 0 {
        task := task.(state := TaskFailed);
      } else if summary.cancelled == summary.operations {
        task := task.(state := TaskCancelled);
      } else if summary.cancelled > 0 {
        return Fail(Invalid);
      } else {
        task := task.(state := TaskCompleted);
      }
      r := tx.UpdateTask(task.(revision := task.revision + 1, updatedAt := at), revision);
    }

    // ---- poisoning ----------------------------------------------------------

    /** The exported wrapper around each decision: a failed transaction refuses
        everything, and the first error is remembered even if the caller drops it. */
    method Perform(c: Decision) returns (r: Outcome)
      requires tx.write
      modifies this, tx
      ensures old(failed).Some? ==> r == Fail(old(failed).value) && failed == old(failed) && tx.d == old(tx.d)
      ensures old(failed).None? ==>
                Follows(tx.d, r, Decide(old(tx.d), now, c)) && failed == if r.Fail? then Some(r.error) else None
    {
      hide Decisions.RegisterMessage, Decisions.CreateTask, Decisions.CreateOperation, Decisions.MarkReady,
           Decisions.StartAttempt, Decisions.BeginVerification, Decisions.MarkUnknownOutcome, Decisions.MarkNotStarted,
           Decisions.Apply, Decisions.RegisterEvidence, Decisions.RecordWorkerReport, Decisions.InvalidateAttempt,
           Decisions.CheckActive, Decisions.FinalizeTask;
      if failed.Some? {
        return Fail(failed.value);
      }
      match c {
        case DoRegisterMessage(env) =>
          var o := RegisterMessage(env);
          r := if o.Err? then Fail(o.error) else Pass;
        case DoCreateTask(task, at) => r := CreateTask(task, at);
        case DoCreateOperation(desc, at) => r := CreateOperation(desc, at);
        case DoMarkReady(id, rev, at) => r := MarkReady(id, rev, at);
        case DoStartAttempt(id, rev, attempt, lease, owner, retryOf, at) =>
          r := StartAttempt(id, rev, attempt, lease, owner, retryOf, at);
        case DoBeginVerification(id, rev, at) => r := BeginVerification(id, rev, at);
        case DoMarkUnknownOutcome(id, rev, at) => r := MarkUnknownOutcome(id, rev, at);
        case DoMarkNotStarted(id, rev, v, at) => r := MarkNotStarted(id, rev, v, at);
        case DoApplyVerification(id, rev, v, at) => r := Apply(id, rev, v, at, false);
        case DoRegisterEvidence(record) => r := RegisterEvidence(record);
        case DoRecordWorkerReport(record, lease, generation, expires) =>
          var o := RecordWorkerReport(record, lease, generation, expires);
          r := if o.Err? then Fail(o.error) else Pass;
        case DoInvalidateAttempt(id, rev, attempt, reason, record, at) =>
          r := InvalidateAttempt(id, rev, attempt, reason, record, at);
        case DoCheckActive(claim) => r := CheckActive(claim);
        case DoFinalizeTask(task, rev, at) => r := FinalizeTask(task, rev, at);
      }
      if r.Fail? {
        failed := Some(r.error);
      }
    }
  }
}
