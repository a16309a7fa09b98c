/** The inductive invariant. It contains every constraint the SQL schema declares
    and the memory backend leaves to the core, and the history facts the safety
    claims rest on. Each part takes only the maps it reads, so a decision that
    leaves those maps alone preserves it trivially. */
module Invariant {
  import opened Basics
  import opened Records
  import opened Storage

  // ---- tasks and operations -------------------------------------------------

  ghost predicate TasksOk(tasks: map<Id, Task>) {
    forall id :: id in tasks ==>
      && tasks[id].id == id && id != "" && tasks[id].revision >= 1
      && tasks[id].state in {TaskPlanned, TaskCompleted, TaskFailed}
  }

  /** State against active attempt, and the revision bound that leaves the lease
      generation far below its limit. */
  predicate OperationOk(tasks: map<Id, Task>, id: Id, o: Operation) {
    && o.descriptor.id == id && ValidDescriptor(o.descriptor) && o.descriptor.taskId in tasks
    && 2 * o.generation + 1 <= o.revision <= MAX_INT64
    && (o.state == Ready ==> 2 * o.generation + 2 <= o.revision)
    && (o.state == Planned ==> o.generation == 0)
    && (o.state in {Succeeded, Failed} ==> o.generation > 0)
    && (InFlight(o.state) <==> o.active != "")
    && o.state != OperationCancelled
  }

  ghost predicate OperationsOk(tasks: map<Id, Task>, ops: map<Id, Operation>) {
    forall id :: id in ops ==> OperationOk(tasks, id, ops[id])
  }

  /** A terminal task has no unresolved work, and a completed one only succeeded
      operations. */
  ghost predicate WorkOk(tasks: map<Id, Task>, ops: map<Id, Operation>) {
    forall id :: id in ops && ops[id].descriptor.taskId in tasks && Terminal(tasks[ops[id].descriptor.taskId].state) ==>
      && ops[id].state in {Succeeded, Failed}
      && (tasks[ops[id].descriptor.taskId].state == TaskCompleted ==> ops[id].state == Succeeded)
  }

  // ---- attempts -------------------------------------------------------------

  predicate AttemptOk(ops: map<Id, Operation>, attempts: map<Id, Attempt>, id: Id, a: Attempt) {
    && a.id == id && id != "" && a.leaseId != "" && a.owner != ""
    && a.operationId in ops && 1 <= a.generation <= ops[a.operationId].generation
    && (a.retryOf != "" ==>
          && a.retryOf in attempts
          && attempts[a.retryOf].operationId == a.operationId
          && attempts[a.retryOf].generation < a.generation)
  }

  ghost predicate AttemptsOk(ops: map<Id, Operation>, attempts: map<Id, Attempt>) {
    forall id :: id in attempts ==> AttemptOk(ops, attempts, id, attempts[id])
  }

  ghost predicate LeasesUnique(attempts: map<Id, Attempt>) {
    forall a, b :: a in attempts && b in attempts && attempts[a].leaseId == attempts[b].leaseId ==> a == b
  }

  predicate SameGeneration(a: Attempt, b: Attempt) {
    a.operationId == b.operationId && a.generation == b.generation
  }

  ghost predicate GenerationsUnique(attempts: map<Id, Attempt>) {
    forall a, b :: a in attempts && b in attempts && SameGeneration(attempts[a], attempts[b]) ==> a == b
  }

  predicate HasGeneration(attempts: map<Id, Attempt>, op: Id, g: nat) {
    exists a :: a in attempts && attempts[a].operationId == op && attempts[a].generation == g
  }

  /** No gap below the current generation. */
  ghost predicate GenerationsComplete(ops: map<Id, Operation>, attempts: map<Id, Attempt>) {
    forall id, g: nat :: id in ops && 1 <= g <= ops[id].generation ==> HasGeneration(attempts, id, g)
  }

  predicate Matches(s: OperationState, a: AttemptState) {
    || (s == Executing && a == Running)
    || (s == Verifying && a in {Reported, Uncertain})
    || (s == UnknownOutcome && a == Uncertain)
  }

  predicate ActiveOk(attempts: map<Id, Attempt>, id: Id, o: Operation) {
    o.active != "" ==>
      && o.active in attempts
      && attempts[o.active].operationId == id
      && attempts[o.active].generation == o.generation
      && Matches(o.state, attempts[o.active].state)
  }

  ghost predicate ActivesOk(ops: map<Id, Operation>, attempts: map<Id, Attempt>) {
    forall id :: id in ops ==> ActiveOk(attempts, id, ops[id])
  }

  /** An attempt that is not in flight is settled. */
  ghost predicate SettledOk(ops: map<Id, Operation>, attempts: map<Id, Attempt>) {
    forall a :: a in attempts && attempts[a].operationId in ops && ops[attempts[a].operationId].active != a ==>
      attempts[a].state in {AttemptClosed, NotStarted}
  }

  // ---- reservations ---------------------------------------------------------

  predicate ReservationOk(ops: map<Id, Operation>, attempts: map<Id, Attempt>, s: string, r: Reservation) {
    && r.scope == s
    && r.operationId in ops && Holds(ops[r.operationId]) && s in ops[r.operationId].descriptor.conflictScope
    && r.attemptId == ops[r.operationId].active && r.generation == ops[r.operationId].generation
    && r.attemptId in attempts && r.leaseId == attempts[r.attemptId].leaseId
  }

  ghost predicate ReservationsSound(ops: map<Id, Operation>, attempts: map<Id, Attempt>, reservations: map<string, Reservation>) {
    forall s :: s in reservations ==> ReservationOk(ops, attempts, s, reservations[s])
  }

  ghost predicate ReservationsComplete(ops: map<Id, Operation>, reservations: map<string, Reservation>) {
    forall id, s :: id in ops && Holds(ops[id]) && s in ops[id].descriptor.conflictScope ==>
      s in reservations && reservations[s].operationId == id
  }

  // ---- evidence, verifications, revocations ---------------------------------

  predicate EvidenceRecordOk(ops: map<Id, Operation>, attempts: map<Id, Attempt>, id: Id, e: Evidence) {
    && e.id == id && ValidEvidence(e)
    && e.operationId in ops && ops[e.operationId].descriptor.taskId == e.taskId
    && (e.attemptId != "" ==> e.attemptId in attempts && attempts[e.attemptId].operationId == e.operationId)
  }

  ghost predicate EvidenceOk(ops: map<Id, Operation>, attempts: map<Id, Attempt>, evidence: map<Id, Evidence>) {
    forall id :: id in evidence ==> EvidenceRecordOk(ops, attempts, id, evidence[id])
  }

  predicate About(e: Evidence, op: Id, attempt: Id) {
    e.operationId == op && e.attemptId == attempt
  }

  predicate Distinct(ids: seq<Id>) {
    forall i, j :: 0 <= i < j < |ids| ==> ids[i] != ids[j]
  }

  predicate VerificationRecordOk(ops: map<Id, Operation>, attempts: map<Id, Attempt>, evidence: map<Id, Evidence>,
                                 id: Id, v: Verification)
  {
    && v.id == id && ValidVerification(v)
    && v.operationId in ops && v.policyRef == ops[v.operationId].descriptor.verificationPolicy
    && v.attemptId in attempts && attempts[v.attemptId].operationId == v.operationId
    && Distinct(v.evidenceIds)
    && forall k :: k in v.evidenceIds ==> k in evidence && About(evidence[k], v.operationId, v.attemptId)
  }

  ghost predicate VerificationsOk(ops: map<Id, Operation>, attempts: map<Id, Attempt>, evidence: map<Id, Evidence>,
                                  verifications: map<Id, Verification>)
  {
    forall id :: id in verifications ==> VerificationRecordOk(ops, attempts, evidence, id, verifications[id])
  }

  predicate RevocationOk(attempts: map<Id, Attempt>, evidence: map<Id, Evidence>, id: Id, r: Revocation) {
    && r.attemptId == id && !r.reason.OtherReason?
    && id in attempts && attempts[id].operationId == r.operationId
    && attempts[id].state !in {Running, Reported}
    && r.evidenceId in evidence && About(evidence[r.evidenceId], r.operationId, id)
  }

  ghost predicate RevocationsOk(attempts: map<Id, Attempt>, evidence: map<Id, Evidence>, revocations: map<Id, Revocation>) {
    forall id :: id in revocations ==> RevocationOk(attempts, evidence, id, revocations[id])
  }

  // ---- what a settled attempt proves ----------------------------------------

  predicate Decided(v: Verification, op: Id, attempt: Id, verdict: Verdict) {
    v.operationId == op && v.attemptId == attempt && v.verdict == verdict
  }

  /** A stored verification of the attempt with the given verdict. */
  predicate HasVerdict(verifications: map<Id, Verification>, op: Id, attempt: Id, verdict: Verdict) {
    exists v :: v in verifications && Decided(verifications[v], op, attempt, verdict)
  }

  /** The verdict an attempt must have received, given where its operation is. */
  predicate Proven(o: Operation, verifications: map<Id, Verification>, a: Attempt) {
    && (a.generation < o.generation || o.state == Ready ==>
          HasVerdict(verifications, a.operationId, a.id, NotSatisfiedRetryable))
    && (a.generation == o.generation && o.state == Succeeded ==>
          HasVerdict(verifications, a.operationId, a.id, Satisfied))
    && (a.generation == o.generation && o.state == Failed ==>
          HasVerdict(verifications, a.operationId, a.id, NotSatisfiedTerminal))
  }

  ghost predicate ProofsOk(ops: map<Id, Operation>, attempts: map<Id, Attempt>, verifications: map<Id, Verification>) {
    forall id :: id in attempts && attempts[id].operationId in ops ==>
      Proven(ops[attempts[id].operationId], verifications, attempts[id])
  }

  // ---- messages -------------------------------------------------------------

  predicate MessageOk(id: Id, m: Message) {
    && m.id == id && id != "" && m.digest.of.messageId == id && m.digest.of.issuedAt == m.issuedAt
    && m.digest.of.taskId == m.taskId
    && m.expiresAt >= Unix(m.issuedAt + REPLAY_WINDOW)
  }

  ghost predicate MessagesOk(messages: map<Id, Message>) {
    forall id :: id in messages ==> MessageOk(id, messages[id])
  }

  // ---- the whole ------------------------------------------------------------

  ghost predicate GraphInv(d: Data) {
    && AttemptsOk(d.ops, d.attempts)
    && LeasesUnique(d.attempts)
    && GenerationsUnique(d.attempts)
    && GenerationsComplete(d.ops, d.attempts)
    && ActivesOk(d.ops, d.attempts)
    && SettledOk(d.ops, d.attempts)
  }

  ghost predicate RecordInv(d: Data) {
    && EvidenceOk(d.ops, d.attempts, d.evidence)
    && VerificationsOk(d.ops, d.attempts, d.evidence, d.verifications)
    && RevocationsOk(d.attempts, d.evidence, d.revocations)
    && ProofsOk(d.ops, d.attempts, d.verifications)
  }

  ghost predicate Inv(d: Data) {
    && TasksOk(d.tasks)
    && OperationsOk(d.tasks, d.ops)
    && WorkOk(d.tasks, d.ops)
    && GraphInv(d)
    && ReservationsSound(d.ops, d.attempts, d.reservations)
    && ReservationsComplete(d.ops, d.reservations)
    && RecordInv(d)
    && MessagesOk(d.messages)
  }

  lemma EmptyInv()
    ensures Inv(EMPTY)
  {
  }
}
