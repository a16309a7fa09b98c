/** The orchestration decisions as functions from stored data to stored data.
    An error carries no data: a transaction in which a decision fails is never
    committed, whatever had already been written. */
module Decisions {
  import opened Basics
  import opened Records
  import opened Storage
  import Machine

  // ---- messages -------------------------------------------------------------

  function Cutoff(d: Data, now: Time): int {
    Max(Unix(now - REPLAY_WINDOW), d.messageFloor)
  }

  predicate Acceptable(d: Data, now: Time, env: Envelope) {
    Unix(env.issuedAt) >= Cutoff(d, now) && env.issuedAt <= now + CLOCK_SKEW
  }

  function MessageOf(now: Time, env: Envelope): Message {
    Message(env.messageId, env.taskId, env.operationId, env.attemptId, V1(env), env.issuedAt,
            Max(Unix(now + REPLAY_WINDOW), Unix(env.issuedAt + REPLAY_WINDOW)))
  }

  /** The second component says that the message is a duplicate. */
  function RegisterMessage(d: Data, now: Time, env: Envelope): Result<(Data, bool)> {
    if !ValidEnvelope(env) then Err(InvalidEnvelope)
    else if !Acceptable(d, now, env) then Err(ExpiredMessage)
    else if env.messageId in d.messages then
      if d.messages[env.messageId].digest == V1(env) then Ok((d, true)) else Err(MessageIdCollision)
    else if env.operationId != "" && env.operationId in d.ops && d.ops[env.operationId].descriptor.taskId != env.taskId then
      Err(EvidenceScope)
    else if env.attemptId != "" && env.attemptId in d.attempts && d.attempts[env.attemptId].operationId != env.operationId then
      Err(EvidenceScope)
    else if env.taskId in d.tasks && Terminal(d.tasks[env.taskId].state) then Err(TaskTerminal)
    else
      var d' :- InsertMessage(d, MessageOf(now, env));
      Ok((d', false))
  }

  // ---- tasks and operations -------------------------------------------------

  function CreateTask(d: Data, id: Id, at: Time): Result<Data> {
    if id == "" || at == ZERO_TIME then Err(Invalid)
    else InsertTask(d, Task(id, TaskPlanned, 1, at, at))
  }

  function CreateOperation(d: Data, desc: Descriptor, at: Time): Result<Data> {
    if !ValidDescriptor(desc) then Err(InvalidDescriptor)
    else if at == ZERO_TIME then Err(Invalid)
    else
      var task :- Get(d.tasks, desc.taskId);
      if Terminal(task.state) then Err(TaskTerminal)
      else InsertOperation(d, Operation(desc, Planned, 1, 0, "", at, at))
  }

  /** The common tail of every state change: the operation, its active attempt
      and its reservations move together. */
  function Transition(d: Data, op: Operation, expected: nat, to: OperationState, mark: Option<AttemptState>, at: Time)
    : Result<Data>
  {
    var next :- Machine.Transition(op, expected, to, at);
    var d1 :- TouchAttempt(d, op.active, mark, at);
    var d2 := if Holds(next) then d1 else Release(d1, op.descriptor.id);
    UpdateOperation(d2, next, expected)
  }

  function TouchAttempt(d: Data, id: Id, mark: Option<AttemptState>, at: Time): Result<Data> {
    if id == "" then Ok(d)
    else
      var a :- Get(d.attempts, id);
      UpdateAttempt(d, a.(state := if mark.Some? then mark.value else a.state, updatedAt := at))
  }

  function MarkReady(d: Data, id: Id, expected: nat, at: Time): Result<Data> {
    var op :- Get(d.ops, id);
    if op.state != Planned then Err(InvalidTransition)
    else Transition(d, op, expected, Ready, None, at)
  }

  function ReservationFor(a: Attempt, scope: string, at: Time): Reservation {
    Reservation(scope, a.operationId, a.id, a.leaseId, a.generation, at)
  }

  function ReserveAll(d: Data, a: Attempt, scopes: seq<string>, at: Time): Result<Data>
    decreases |scopes|
  {
    if scopes == [] then Ok(d)
    else
      var d1 :- Reserve(d, ReservationFor(a, scopes[0], at));
      ReserveAll(d1, a, scopes[1..], at)
  }

  function StartAttempt(d: Data, id: Id, expected: nat, attemptId: Id, leaseId: Id, owner: Id, retryOf: Id, at: Time)
    : Result<(Data, Attempt)>
  {
    if leaseId == "" || owner == "" then Err(Invalid)
    else
      var op :- Get(d.ops, id);
      var _ :- RetrySource(d, id, retryOf);
      var (next, bare) :- Machine.StartAttempt(op, expected, attemptId, at);
      var a := bare.(leaseId := leaseId, owner := owner, retryOf := retryOf);
      var d1 :- InsertAttempt(d, a);
      var d2 :- if op.descriptor.effect == Mutation then ReserveAll(d1, a, op.descriptor.conflictScope, at) else Ok(d1);
      var d3 :- UpdateOperation(d2, next, expected);
      Ok((d3, a))
  }

  function RetrySource(d: Data, id: Id, retryOf: Id): Result<()> {
    if retryOf == "" then Ok(())
    else
      var prior :- Get(d.attempts, retryOf);
      if prior.operationId != id then Err(StaleOwnership) else Ok(())
  }

  function BeginVerification(d: Data, id: Id, expected: nat, at: Time): Result<Data> {
    var op :- Get(d.ops, id);
    Transition(d, op, expected, Verifying, if op.state == Executing then Some(Reported) else None, at)
  }

  function MarkUnknownOutcome(d: Data, id: Id, expected: nat, at: Time): Result<Data> {
    var op :- Get(d.ops, id);
    Transition(d, op, expected, UnknownOutcome, Some(Uncertain), at)
  }

  // ---- evidence and verification --------------------------------------------

  function RegisterEvidence(d: Data, v: Evidence): Result<Data> {
    if !ValidEvidence(v) then Err(Invalid)
    else
      var op :- Get(d.ops, v.operationId);
      if op.descriptor.taskId != v.taskId then Err(EvidenceScope)
      else
        var _ :- EvidenceAttempt(d, v);
        var task :- Get(d.tasks, v.taskId);
        if Terminal(task.state) then Err(TaskTerminal) else InsertEvidence(d, v)
  }

  function EvidenceAttempt(d: Data, v: Evidence): Result<()> {
    if v.attemptId == "" then Ok(())
    else
      var a :- Get(d.attempts, v.attemptId);
      if a.operationId != v.operationId then Err(EvidenceScope) else Ok(())
  }

  /** The evidence loop of `validateVerification`: the first offending reference
      decides the error. */
  function CheckReferences(d: Data, v: Verification, ids: seq<Id>, seen: set<Id>): Result<()> {
    if ids == [] then Ok(())
    else if ids[0] in seen then Err(EvidenceScope)
    else
      var r :- Get(d.evidence, ids[0]);
      if r.operationId != v.operationId || r.attemptId != v.attemptId then Err(EvidenceScope)
      else CheckReferences(d, v, ids[1..], seen + {ids[0]})
  }

  function ValidateVerification(d: Data, op: Operation, v: Verification): Result<()> {
    if !ValidVerification(v) then Err(Invalid)
    else if v.operationId != op.descriptor.id || v.policyRef != op.descriptor.verificationPolicy
            || v.attemptId == "" || v.attemptId != op.active
    then Err(EvidenceScope)
    else CheckReferences(d, v, v.evidenceIds, {})
  }

  function Target(v: Verdict): OperationState {
    match v
    case Satisfied => Succeeded
    case NotSatisfiedRetryable => Ready
    case NotSatisfiedTerminal => Failed
    case Inconclusive => UnknownOutcome
    case OtherVerdict(_) => OperationCancelled
  }

  function Apply(d: Data, id: Id, expected: nat, v: Verification, at: Time, notStarted: bool): Result<Data> {
    var op :- Get(d.ops, id);
    var _ :- ValidateVerification(d, op, v);
    var to := Target(v.verdict);
    var mark := if notStarted then NotStarted else if to == UnknownOutcome then Uncertain else AttemptClosed;
    var d1 :- InsertVerification(d, v);
    Transition(d1, op, expected, to, Some(mark), at)
  }

  function MarkNotStarted(d: Data, id: Id, expected: nat, v: Verification, at: Time): Result<Data> {
    if v.verdict != NotSatisfiedRetryable || !v.retryExecutionSafe then Err(Invalid)
    else Apply(d, id, expected, v, at, true)
  }

  function ApplyVerification(d: Data, id: Id, expected: nat, v: Verification, at: Time): Result<Data> {
    Apply(d, id, expected, v, at, false)
  }

  // ---- authority ------------------------------------------------------------

  /** What an executor presents to prove that it owns an operation. */
  datatype Claim = Claim(operationId: Id, attemptId: Id, leaseId: Id, generation: nat, owner: Id)

  function CheckActive(d: Data, c: Claim): Result<()> {
    var op :- Get(d.ops, c.operationId);
    if op.active == "" || op.active != c.attemptId || op.generation != c.generation then Err(StaleOwnership)
    else
      var a :- Get(d.attempts, c.attemptId);
      if c.attemptId in d.revocations then Err(StaleOwnership)
      else if a.state != Running && a.state != Reported then Err(StaleOwnership)
      else if a.leaseId != c.leaseId || a.generation != c.generation || a.owner != c.owner then Err(StaleOwnership)
      else if !InFlight(op.state) then Err(StaleOwnership)
      else Ok(())
  }

  /** The second component says that the report moved the operation on. */
  function RecordWorkerReport(d: Data, now: Time, r: Evidence, lease: Id, generation: nat, expires: Time)
    : Result<(Data, bool)>
  {
    var op :- Get(d.ops, r.operationId);
    var a :- Get(d.attempts, r.attemptId);
    if expires == ZERO_TIME || r.kind != WorkerReport || a.operationId != r.operationId || a.owner != r.source
       || a.leaseId != lease || a.generation != generation || r.subjectRef != op.descriptor.targetRef
    then Err(EvidenceScope)
    else
      var d1 :- RegisterEvidence(d, r);
      match CheckActive(d1, Claim(r.operationId, a.id, lease, generation, r.source))
      case Err(StaleOwnership) => Ok((d1, false))
      case Err(e) => Err(e)
      case Ok(_) =>
        if now >= expires then Err(DeadlineExceeded)
        else if op.state != Executing then Ok((d1, false))
        else
          var d2 :- BeginVerification(d1, r.operationId, op.revision, now);
          Ok((d2, true))
  }

  function InvalidateAttempt(d: Data, id: Id, expected: nat, attemptId: Id, reason: LossReason, seen: Evidence, at: Time)
    : Result<Data>
  {
    if reason.OtherReason? then Err(Invalid)
    else
      var op :- Get(d.ops, id);
      if op.revision != expected then Err(RevisionConflict)
      else if attemptId == "" || op.active != attemptId then Err(StaleOwnership)
      else if attemptId in d.revocations then Err(StaleOwnership)
      else if seen.operationId != id || seen.attemptId != attemptId
              || seen.kind !in {ProcessObservation, TransportObservation, PolicyDecision}
      then Err(EvidenceScope)
      else
        var next :- Machine.LoseExecutionCertainty(op, expected, at);
        var d1 :- RegisterEvidence(d, seen);
        var d2 :- InsertRevocation(d1, Revocation(attemptId, id, seen.id, reason, at));
        var d3 :- TouchAttempt(d2, attemptId, Some(Uncertain), at);
        UpdateOperation(d3, next, expected)
  }

  // ---- closing a task -------------------------------------------------------

  function FinalizeTask(d: Data, id: Id, revision: nat, at: Time): Result<Data> {
    var task :- Get(d.tasks, id);
    if task.revision != revision then Err(RevisionConflict)
    else if Terminal(task.state) then Err(TaskTerminal)
    else if at == ZERO_TIME || revision == 0 || revision >= MAX_INT64 then Err(Invalid)
    else if OperationsOf(d, id) == {} || HasPending(d, id) then Err(Invalid)
    else
      var state :- Verdict(|OperationsOf(d, id)|, |InState(d, id, Failed)|, |InState(d, id, OperationCancelled)|);
      UpdateTask(d, task.(state := state, revision := task.revision + 1, updatedAt := at), revision)
  }

  function Verdict(operations: nat, failed: nat, cancelled: nat): Result<TaskState> {
    if failed > 0 then Ok(TaskFailed)
    else if cancelled == operations then Ok(TaskCancelled)
    else if cancelled > 0 then Err(Invalid)
    else Ok(TaskCompleted)
  }

  // ---- one decision, whichever it is ----------------------------------------

  datatype Decision =
    | DoRegisterMessage(env: Envelope)
    | DoCreateTask(task: Id, at: Time)
    | DoCreateOperation(desc: Descriptor, at: Time)
    | DoMarkReady(id: Id, rev: nat, at: Time)
    | DoStartAttempt(id: Id, rev: nat, attempt: Id, lease: Id, owner: Id, retryOf: Id, at: Time)
    | DoBeginVerification(id: Id, rev: nat, at: Time)
    | DoMarkUnknownOutcome(id: Id, rev: nat, at: Time)
    | DoMarkNotStarted(id: Id, rev: nat, v: Verification, at: Time)
    | DoApplyVerification(id: Id, rev: nat, v: Verification, at: Time)
    | DoRegisterEvidence(record: Evidence)
    | DoRecordWorkerReport(record: Evidence, lease: Id, generation: nat, expires: Time)
    | DoInvalidateAttempt(id: Id, rev: nat, attempt: Id, reason: LossReason, record: Evidence, at: Time)
    | DoCheckActive(claim: Claim)
    | DoFinalizeTask(task: Id, rev: nat, at: Time)

  function First<T, U>(r: Result<(T, U)>): Result<T> {
    match r
    case Ok(v) => Ok(v.0)
    case Err(e) => Err(e)
  }

  function Decide(d: Data, now: Time, c: Decision): Result<Data> {
    match c
    case DoRegisterMessage(env) => First(RegisterMessage(d, now, env))
    case DoCreateTask(task, at) => CreateTask(d, task, at)
    case DoCreateOperation(desc, at) => CreateOperation(d, desc, at)
    case DoMarkReady(id, rev, at) => MarkReady(d, id, rev, at)
    case DoStartAttempt(id, rev, attempt, lease, owner, retryOf, at) =>
      First(StartAttempt(d, id, rev, attempt, lease, owner, retryOf, at))
    case DoBeginVerification(id, rev, at) => BeginVerification(d, id, rev, at)
    case DoMarkUnknownOutcome(id, rev, at) => MarkUnknownOutcome(d, id, rev, at)
    case DoMarkNotStarted(id, rev, v, at) => MarkNotStarted(d, id, rev, v, at)
    case DoApplyVerification(id, rev, v, at) => ApplyVerification(d, id, rev, v, at)
    case DoRegisterEvidence(record) => RegisterEvidence(d, record)
    case DoRecordWorkerReport(record, lease, generation, expires) =>
      First(RecordWorkerReport(d, now, record, lease, generation, expires))
    case DoInvalidateAttempt(id, rev, attempt, reason, record, at) =>
      InvalidateAttempt(d, id, rev, attempt, reason, record, at)
    case DoCheckActive(claim) =>
      var _ :- CheckActive(d, claim);
      Ok(d)
    case DoFinalizeTask(task, rev, at) => FinalizeTask(d, task, rev, at)
  }

  /** The composition of a list of decisions, stopping at the first error. */
  function DecideAll(d: Data, now: Time, cs: seq<Decision>): Result<Data>
    decreases |cs|
  {
    if cs == [] then Ok(d)
    else
      var d1 :- Decide(d, now, cs[0]);
      DecideAll(d1, now, cs[1..])
  }
}
