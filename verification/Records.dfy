/** The canonical records: protocol envelopes and descriptors, evidence,
    operations and attempts, and the validation each of them must pass. */
module Records {
  import opened Basics

  type Id = string

  // ---- protocol -------------------------------------------------------------

  datatype EffectClass = ReadOnly | Mutation | UnknownEffect(text: string)
  datatype IdempotencyMode = IdempotencyUnknown | Idempotent | Conditional | OtherMode(text: string)
  datatype MessageType =
    Command | Event | Observation | DecisionRequest | DecisionResponse | OtherMessageType(text: string)

  datatype Descriptor = Descriptor(
    id: Id,
    taskId: Id,
    name: string,
    targetRef: string,
    effect: EffectClass,
    conflictScope: seq<string>,
    idempotency: IdempotencyMode,
    verificationPolicy: string,
    authorizationPolicy: string)

  datatype LeaseRef = LeaseRef(id: Id, generation: nat)

  /** A payload with the answer of the sensitive-field filter, which is not
      modelled further. */
  datatype Payload = Payload(body: string, permitted: bool)

  datatype Envelope = Envelope(
    protocolVersion: string,
    messageId: Id,
    messageType: MessageType,
    messageName: string,
    taskId: Id,
    operationId: Id,
    attemptId: Id,
    correlationId: Id,
    causationId: Id,
    actorId: Id,
    actorRole: string,
    issuedAt: Time,
    deadlineAt: Option<Time>,
    lease: Option<LeaseRef>,
    payload: Payload,
    extensions: Payload)

  const PROTOCOL_VERSION := "1.0"

  const SUPPORTED_MESSAGES: set<string> := {
    "operation.offer", "operation.cancel_request", "operation.accepted", "operation.rejected",
    "operation.started", "operation.progress", "operation.result_reported",
    "operation.execution_uncertain", "verification.observed", "verification.completed",
    "issue.opened", "issue.updated", "issue.closed", "escalation.requested", "escalation.resolved"
  }

  predicate IsSpace(c: char) {
    c in {'\t', '\n', '\U{000B}', '\U{000C}', '\r', ' ', '\U{0085}', '\U{00A0}', '\U{1680}',
          '\U{2028}', '\U{2029}', '\U{202F}', '\U{205F}', '\U{3000}'}
    || '\U{2000}' <= c <= '\U{200A}'
  }

  /** `strings.TrimSpace`. */
  function Trim(s: string): string {
    if s != "" && IsSpace(s[0]) then Trim(s[1..])
    else if s != "" && IsSpace(s[|s| - 1]) then Trim(s[..|s| - 1])
    else s
  }

  predicate Blank(s: string) {
    Trim(s) == ""
  }

  lemma {:induction false} NotBlank(s: string)
    requires s != "" && !IsSpace(s[0])
    ensures !Blank(s)
    decreases |s|
  {
    if IsSpace(s[|s| - 1]) {
      NotBlank(s[..|s| - 1]);
    }
  }

  /** No blank scope, and no two scopes equal after trimming. */
  predicate DistinctScopes(scopes: seq<string>) {
    && (forall i :: 0 <= i < |scopes| ==> !Blank(scopes[i]))
    && (forall i, j :: 0 <= i < j < |scopes| ==> Trim(scopes[i]) != Trim(scopes[j]))
  }

  predicate ValidDescriptor(d: Descriptor) {
    && d.id != "" && d.taskId != "" && !Blank(d.name) && !Blank(d.targetRef)
    && !d.effect.UnknownEffect? && !d.idempotency.OtherMode?
    && !Blank(d.verificationPolicy) && !Blank(d.authorizationPolicy)
    && DistinctScopes(d.conflictScope)
    && (d.effect == Mutation ==> d.conflictScope != [])
  }

  predicate HasPrefix(s: string, prefix: string) {
    |prefix| <= |s| && s[..|prefix|] == prefix
  }

  predicate ValidEnvelope(e: Envelope) {
    && e.protocolVersion == PROTOCOL_VERSION
    && e.messageId != "" && e.taskId != "" && e.correlationId != "" && e.actorId != "" && !Blank(e.actorRole)
    && !e.messageType.OtherMessageType?
    && !Blank(e.messageName) && e.issuedAt != ZERO_TIME
    && e.messageName in SUPPORTED_MESSAGES
    && ((HasPrefix(e.messageName, "operation.") || HasPrefix(e.messageName, "verification.")) ==> e.operationId != "")
    && e.payload.permitted && e.extensions.permitted
  }

  // ---- evidence -------------------------------------------------------------

  datatype Kind =
    | DeliveryReceipt
    | WorkerReport
    | ProviderReport
    | TransportObservation
    | TargetObservation
    | ProcessObservation
    | ArtifactObservation
    | VerificationResult
    | UserDecision
    | PolicyDecision
    | OtherKind(text: string)

  datatype Verdict =
    Satisfied | NotSatisfiedRetryable | NotSatisfiedTerminal | Inconclusive | OtherVerdict(text: string)

  datatype Evidence = Evidence(
    id: Id,
    taskId: Id,
    operationId: Id,
    attemptId: Id,
    kind: Kind,
    source: Id,
    observedAt: Time,
    subjectRef: string,
    summary: string,
    artifactRef: string,
    digest: string)

  predicate ValidEvidence(r: Evidence) {
    && r.id != "" && r.taskId != "" && r.operationId != "" && r.source != ""
    && r.observedAt != ZERO_TIME && !Blank(r.subjectRef)
    && !r.kind.OtherKind?
  }

  datatype Verification = Verification(
    id: Id,
    operationId: Id,
    attemptId: Id,
    policyRef: string,
    evidenceIds: seq<Id>,
    verdict: Verdict,
    retryExecutionSafe: bool,
    summary: string,
    verifiedAt: Time,
    verifier: Id)

  predicate ValidVerification(v: Verification) {
    && !Blank(v.id) && v.operationId != "" && !Blank(v.policyRef) && v.verifier != ""
    && v.verifiedAt != ZERO_TIME && v.evidenceIds != []
    && !v.verdict.OtherVerdict?
    && (v.verdict == NotSatisfiedRetryable ==> v.retryExecutionSafe)
  }

  // ---- state ----------------------------------------------------------------

  datatype TaskState =
    TaskPlanned | TaskActive | TaskBlocked | TaskAwaitingDecision | TaskCompleted | TaskFailed | TaskCancelled

  datatype Task = Task(id: Id, state: TaskState, revision: nat, createdAt: Time, updatedAt: Time)

  predicate Terminal(s: TaskState) {
    s == TaskCompleted || s == TaskFailed || s == TaskCancelled
  }

  datatype OperationState =
    Planned | Ready | Executing | Verifying | UnknownOutcome | Succeeded | Failed | OperationCancelled

  datatype AttemptState =
    AttemptCreated | Running | Reported | AttemptRejected | NotStarted | Uncertain | AttemptClosed

  datatype Attempt = Attempt(
    id: Id,
    operationId: Id,
    leaseId: Id,
    generation: nat,
    owner: Id,
    retryOf: Id,
    state: AttemptState,
    createdAt: Time,
    updatedAt: Time)

  datatype Operation = Operation(
    descriptor: Descriptor,
    state: OperationState,
    revision: nat,
    generation: nat,
    active: Id,
    createdAt: Time,
    updatedAt: Time)

  /** The states in which an operation has an attempt in flight. */
  predicate InFlight(s: OperationState) {
    s == Executing || s == Verifying || s == UnknownOutcome
  }

  /** `HoldsConflictReservation`. */
  predicate Holds(o: Operation) {
    o.descriptor.effect == Mutation && InFlight(o.state)
  }

  // ---- persistence ----------------------------------------------------------

  /** SHA-256 over the canonical encoding of an envelope, taken as injective. */
  datatype Digest = V1(of: Envelope)

  datatype Message = Message(
    id: Id,
    taskId: Id,
    operationId: Id,
    attemptId: Id,
    digest: Digest,
    issuedAt: Time,
    expiresAt: int)

  datatype Reservation = Reservation(
    scope: string, operationId: Id, attemptId: Id, leaseId: Id, generation: nat, createdAt: Time)

  datatype LossReason = ControllerRestart | LeaseExpired | OwnershipLost | OtherReason(text: string)

  datatype Revocation = Revocation(attemptId: Id, operationId: Id, evidenceId: Id, reason: LossReason, revokedAt: Time)

  const MAX_PAGE_SIZE := 100
  const MAX_GC_ROWS := 10000
  const REPLAY_WINDOW := 7 * DAY
  const TERMINAL_RETENTION := 30 * DAY
  const CLOCK_SKEW := 5 * 60 * SECOND

  // ---- validation loop ------------------------------------------------------

  /** The scope loop of `OperationDescriptor.Validate`, with its `seen` map. */
  method CheckScopes(scopes: seq<string>) returns (ok: bool)
    ensures ok <==> DistinctScopes(scopes)
  {
    var seen: set<string> := {};
    for i := 0 to |scopes|
      invariant DistinctScopes(scopes[..i])
      invariant seen == set k | 0 <= k < i :: Trim(scopes[k])
    {
      var scope := Trim(scopes[i]);
      if scope == "" {
        return false;
      }
      if scope in seen {
        return false;
      }
      seen := seen + {scope};
    }
    assert scopes[..|scopes|] == scopes;
    return true;
  }
}
