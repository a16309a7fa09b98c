/** When each decision succeeds, and everything it leaves behind: the converse of the
    invariant, which only says what the state means once it is there. */
module Exactness {
  import opened Basics
  import opened Records
  import opened Storage
  import opened Decisions
  import opened Invariant
  import opened Preservation
  import opened Dispatching
  import opened Guarantees
  import Machine

  // ---- moving an operation --------------------------------------------------

  /** The caller saw the operation as it is, and its revision can still grow. */
  predicate Current(d: Data, id: Id, rev: nat, at: Time) {
    id in d.ops && d.ops[id].revision == rev && rev < MAX_INT64 && at != ZERO_TIME
  }

  function OpAfter(op: Operation, state: OperationState, active: Id, at: Time): Operation {
    op.(state := state, revision := op.revision + 1, active := active, updatedAt := at)
  }

  function AttemptAfter(attempts: map<Id, Attempt>, k: Id, state: AttemptState, at: Time): map<Id, Attempt>
    requires k in attempts
  {
    attempts[k := attempts[k].(state := state, updatedAt := at)]
  }

  lemma TargetStored(d: Data, id: Id)
    requires Inv(d) && id in d.ops
    ensures d.ops[id].descriptor.id == id && 1 <= d.ops[id].revision && d.ops[id].descriptor.taskId in d.tasks
    ensures InFlight(d.ops[id].state) <==> d.ops[id].active != ""
    ensures d.ops[id].active != "" ==>
              d.ops[id].active in d.attempts && d.attempts[d.ops[id].active].id == d.ops[id].active
              && d.attempts[d.ops[id].active].operationId == id
    ensures d.ops[id].state != OperationCancelled
    ensures !Holds(d.ops[id]) ==> Released(d.reservations, id) == d.reservations
    ensures InFlight(d.ops[id].state) ==> !Terminal(d.tasks[d.ops[id].descriptor.taskId].state)
  {
    hide TasksOk, MessagesOk, LeasesUnique, GenerationsUnique, GenerationsComplete, SettledOk, RecordInv, ReservationsComplete,
         ReservationsSound, ValidDescriptor, Released;
    assert OperationOk(d.tasks, id, d.ops[id]) && ActiveOk(d.attempts, id, d.ops[id]);
    if d.ops[id].active != "" {
      assert AttemptOk(d.ops, d.attempts, d.ops[id].active, d.attempts[d.ops[id].active]);
    }
    if !Holds(d.ops[id]) {
      NothingToRelease(d, id);
    }
  }

  /** A transition goes through exactly when it is current and the table has it. */
  lemma MovesExactly(d: Data, op: Operation, rev: nat, to: OperationState, mark: Option<AttemptState>, at: Time)
    requires op.descriptor.id in d.ops && op == d.ops[op.descriptor.id] && 1 <= op.revision
    requires op.active != "" ==> op.active in d.attempts && d.attempts[op.active].id == op.active
    ensures Transition(d, op, rev, to, mark, at).Ok? <==>
            Current(d, op.descriptor.id, rev, at) && to in Machine.Allowed(op.state)
    ensures Transition(d, op, rev, to, mark, at).Ok? ==>
              Transition(d, op, rev, to, mark, at).value ==
              d.(ops := d.ops[op.descriptor.id := OpAfter(op, to, if InFlight(to) then op.active else
                                                                   if to in {Ready, Succeeded, Failed, OperationCancelled}
                                                                   then "" else op.active, at)],
                 attempts := if op.active == "" then d.attempts
                             else AttemptAfter(d.attempts, op.active,
                                               if mark.Some? then mark.value else d.attempts[op.active].state, at),
                 reservations := if op.descriptor.effect == Mutation && InFlight(to) then d.reservations
                                 else Released(d.reservations, op.descriptor.id))
  {
    hide Released;
  }

  /** A planned operation becomes ready; nothing else changes. */
  lemma ReadyExactly(d: Data, id: Id, rev: nat, at: Time)
    requires Inv(d)
    ensures MarkReady(d, id, rev, at).Ok? <==> Current(d, id, rev, at) && d.ops[id].state == Planned
    ensures MarkReady(d, id, rev, at).Ok? ==>
              MarkReady(d, id, rev, at).value == d.(ops := d.ops[id := OpAfter(d.ops[id], Ready, "", at)])
  {
    hide Inv, Transition, Released, Holds;
    if id in d.ops {
      TargetStored(d, id);
      MovesExactly(d, d.ops[id], rev, Ready, None, at);
      NotHeld(d.ops[id]);
    }
  }

  lemma NotHeld(op: Operation)
    ensures !InFlight(op.state) ==> !Holds(op)
    ensures op.descriptor.effect != Mutation ==> !Holds(op)
  {
  }

  /** An executing operation, or one whose outcome is unknown, goes to verifying and
      keeps its attempt and its scopes. */
  lemma VerificationBeginsExactly(d: Data, id: Id, rev: nat, at: Time)
    requires Inv(d)
    ensures BeginVerification(d, id, rev, at).Ok? <==>
            Current(d, id, rev, at) && d.ops[id].state in {Executing, UnknownOutcome}
    ensures BeginVerification(d, id, rev, at).Ok? ==>
              var op := d.ops[id];
              && op.active in d.attempts
              && BeginVerification(d, id, rev, at).value ==
                 d.(ops := d.ops[id := OpAfter(op, Verifying, op.active, at)],
                    attempts := AttemptAfter(d.attempts, op.active,
                                             if op.state == Executing then Reported else d.attempts[op.active].state, at))
  {
    hide Inv, Transition, Released, Holds;
    if id in d.ops {
      TargetStored(d, id);
      NotHeld(d.ops[id]);
      MovesExactly(d, d.ops[id], rev, Verifying, if d.ops[id].state == Executing then Some(Reported) else None, at);
    }
  }

  /** An operation in flight whose outcome is still decided loses certainty, and keeps
      its attempt and its scopes. */
  lemma UnknownExactly(d: Data, id: Id, rev: nat, at: Time)
    requires Inv(d)
    ensures MarkUnknownOutcome(d, id, rev, at).Ok? <==>
            Current(d, id, rev, at) && d.ops[id].state in {Executing, Verifying}
    ensures MarkUnknownOutcome(d, id, rev, at).Ok? ==>
              var op := d.ops[id];
              && op.active in d.attempts
              && MarkUnknownOutcome(d, id, rev, at).value ==
                 d.(ops := d.ops[id := OpAfter(op, UnknownOutcome, op.active, at)],
                    attempts := AttemptAfter(d.attempts, op.active, Uncertain, at))
  {
    hide Inv, Transition, Released, Holds;
    if id in d.ops {
      TargetStored(d, id);
      NotHeld(d.ops[id]);
      MovesExactly(d, d.ops[id], rev, UnknownOutcome, Some(Uncertain), at);
    }
  }

  // ---- verdicts -------------------------------------------------------------

  /** A new verification of the active attempt, under the operation's own policy, with
      distinct pieces of stored evidence about that attempt. */
  ghost predicate Admissible(d: Data, id: Id, v: Verification) {
    && id in d.ops && ValidVerification(v) && v.id !in d.verifications
    && v.operationId == id && v.policyRef == d.ops[id].descriptor.verificationPolicy
    && v.attemptId != "" && v.attemptId == d.ops[id].active
    && Distinct(v.evidenceIds)
    && forall k :: k in v.evidenceIds ==> k in d.evidence && About(d.evidence[k], id, v.attemptId)
  }

  lemma {:induction false} ReferencesExactly(d: Data, v: Verification, ids: seq<Id>, seen: set<Id>)
    ensures CheckReferences(d, v, ids, seen).Ok? <==>
            && Distinct(ids) && (forall k :: k in ids ==> k !in seen)
            && (forall k :: k in ids ==> k in d.evidence && About(d.evidence[k], v.operationId, v.attemptId))
    decreases |ids|
  {
    hide Distinct;
    if ids == [] {
      DistinctEmpty();
    } else {
      DistinctTail(ids);
      ReferencesExactly(d, v, ids[1..], seen + {ids[0]});
      assert forall k :: k in ids <==> k == ids[0] || k in ids[1..];
    }
  }

  lemma ValidatesExactly(d: Data, id: Id, v: Verification)
    requires id in d.ops && d.ops[id].descriptor.id == id
    ensures ValidateVerification(d, d.ops[id], v).Ok? && v.id !in d.verifications <==> Admissible(d, id, v)
  {
    hide ValidVerification, Distinct;
    ReferencesExactly(d, v, v.evidenceIds, {});
  }

  /** The move of a verdict, whichever it is. */
  lemma AppliesExactly(d: Data, id: Id, rev: nat, v: Verification, at: Time, notStarted: bool)
    requires Inv(d)
    ensures Apply(d, id, rev, v, at, notStarted).Ok? <==>
            && Admissible(d, id, v) && Current(d, id, rev, at)
            && Target(v.verdict) in Machine.Allowed(d.ops[id].state)
    ensures Apply(d, id, rev, v, at, notStarted).Ok? ==>
              var mark := if notStarted then NotStarted else if Target(v.verdict) == UnknownOutcome then Uncertain else AttemptClosed;
              && d.ops[id].active in d.attempts
              && Apply(d, id, rev, v, at, notStarted) ==
                 Transition(d.(verifications := d.verifications[v.id := v]), d.ops[id], rev, Target(v.verdict), Some(mark), at)
  {
    hide Inv, Transition, ValidateVerification, Admissible, Target;
    if id in d.ops {
      TargetStored(d, id);
      ValidatesExactly(d, id, v);
      var mark := if notStarted then NotStarted else if Target(v.verdict) == UnknownOutcome then Uncertain else AttemptClosed;
      MovesExactly(d.(verifications := d.verifications[v.id := v]), d.ops[id], rev, Target(v.verdict), Some(mark), at);
      AdmissibleActive(d, id, v);
    }
  }

  lemma AdmissibleActive(d: Data, id: Id, v: Verification)
    ensures Admissible(d, id, v) ==> id in d.ops && d.ops[id].active != "" && !v.verdict.OtherVerdict?
  {
    hide Distinct;
  }

  /** What a settled operation leaves: no active attempt and no scope. */
  function Concluded(d: Data, v: Verification, state: OperationState, mark: AttemptState, at: Time): Data
    requires v.operationId in d.ops && v.attemptId in d.attempts
  {
    d.(verifications := d.verifications[v.id := v],
       ops := d.ops[v.operationId := OpAfter(d.ops[v.operationId], state, "", at)],
       attempts := AttemptAfter(d.attempts, v.attemptId, mark, at),
       reservations := map s | s in d.reservations && d.reservations[s].operationId != v.operationId :: d.reservations[s])
  }

  /** What each of the four verdicts does, and exactly when it may. A retryable
      verdict makes the operation ready again; only an inconclusive one leaves the
      attempt active and its scopes held. */
  lemma VerdictExactly(d: Data, id: Id, rev: nat, v: Verification, at: Time)
    requires Inv(d)
    ensures ApplyVerification(d, id, rev, v, at).Ok? <==>
            && Admissible(d, id, v) && Current(d, id, rev, at)
            && (d.ops[id].state == Verifying
                || (d.ops[id].state == Executing && v.verdict in {NotSatisfiedRetryable, Inconclusive}))
    ensures ApplyVerification(d, id, rev, v, at).Ok? ==>
              && v.operationId == id && v.attemptId == d.ops[id].active && v.attemptId in d.attempts
              && var d' := ApplyVerification(d, id, rev, v, at).value;
              && (v.verdict == Satisfied ==> d' == Concluded(d, v, Succeeded, AttemptClosed, at))
              && (v.verdict == NotSatisfiedTerminal ==> d' == Concluded(d, v, Failed, AttemptClosed, at))
              && (v.verdict == NotSatisfiedRetryable ==> d' == Concluded(d, v, Ready, AttemptClosed, at))
              && (v.verdict == Inconclusive ==>
                    d' == d.(verifications := d.verifications[v.id := v],
                             ops := d.ops[id := OpAfter(d.ops[id], UnknownOutcome, v.attemptId, at)],
                             attempts := AttemptAfter(d.attempts, v.attemptId, Uncertain, at)))
              && v.verdict in {Satisfied, NotSatisfiedTerminal, NotSatisfiedRetryable, Inconclusive}
  {
    hide Inv, Transition, Apply, Distinct, ValidVerification, Holds;
    AppliesExactly(d, id, rev, v, at, false);
    AdmissibleActive(d, id, v);
    if Apply(d, id, rev, v, at, false).Ok? {
      TargetStored(d, id);
      NotHeld(d.ops[id]);
      var mark := if Target(v.verdict) == UnknownOutcome then Uncertain else AttemptClosed;
      MovesExactly(d.(verifications := d.verifications[v.id := v]), d.ops[id], rev, Target(v.verdict), Some(mark), at);
    }
  }

  /** A retryable verdict may also say that the attempt never started. */
  lemma NotStartedExactly(d: Data, id: Id, rev: nat, v: Verification, at: Time)
    requires Inv(d)
    ensures MarkNotStarted(d, id, rev, v, at).Ok? <==>
            && Admissible(d, id, v) && Current(d, id, rev, at)
            && v.verdict == NotSatisfiedRetryable && v.retryExecutionSafe && d.ops[id].state in {Executing, Verifying}
    ensures MarkNotStarted(d, id, rev, v, at).Ok? ==>
              && v.operationId == id && v.attemptId == d.ops[id].active && v.attemptId in d.attempts
              && MarkNotStarted(d, id, rev, v, at).value == Concluded(d, v, Ready, NotStarted, at)
  {
    hide Inv, Transition, Apply, Distinct, ValidVerification, Holds;
    AppliesExactly(d, id, rev, v, at, true);
    if Apply(d, id, rev, v, at, true).Ok? {
      TargetStored(d, id);
      NotHeld(d.ops[id]);
      MovesExactly(d.(verifications := d.verifications[v.id := v]), d.ops[id], rev, Target(v.verdict), Some(NotStarted), at);
    }
  }

  // ---- evidence and withdrawal ----------------------------------------------

  /** Evidence is accepted exactly when it is valid, new, about stored work of one
      task, and the task is open; it is the only thing added. */
  lemma EvidenceExactly(d: Data, e: Evidence)
    requires Inv(d)
    ensures RegisterEvidence(d, e).Ok? <==>
            && ValidEvidence(e) && e.id !in d.evidence
            && e.operationId in d.ops && d.ops[e.operationId].descriptor.taskId == e.taskId
            && (e.attemptId != "" ==> e.attemptId in d.attempts && d.attempts[e.attemptId].operationId == e.operationId)
            && !Terminal(d.tasks[e.taskId].state)
    ensures RegisterEvidence(d, e).Ok? ==> RegisterEvidence(d, e).value == d.(evidence := d.evidence[e.id := e])
  {
    hide Inv, ValidEvidence;
    if e.operationId in d.ops {
      TargetStored(d, e.operationId);
    }
  }

  /** The observation a withdrawal has to bring. */
  predicate Witnesses(d: Data, e: Evidence, id: Id, attempt: Id) {
    && ValidEvidence(e) && e.id !in d.evidence && e.operationId == id && e.attemptId == attempt
    && id in d.ops && d.ops[id].descriptor.taskId == e.taskId
    && e.kind in {ProcessObservation, TransportObservation, PolicyDecision}
  }

  lemma InvalidatesWhen(d: Data, id: Id, rev: nat, attempt: Id, reason: LossReason, seen: Evidence, at: Time)
    requires Inv(d)
    ensures InvalidateAttempt(d, id, rev, attempt, reason, seen, at).Ok? <==>
            && Current(d, id, rev, at) && d.ops[id].active == attempt && attempt != "" && attempt !in d.revocations
            && !reason.OtherReason? && Witnesses(d, seen, id, attempt)
  {
    hide Inv, Witnesses, RegisterEvidence;
    WitnessRegistered(d, seen, id, attempt);
    if id in d.ops {
      TargetStored(d, id);
    }
  }

  /** For the active attempt, such an observation is one that is accepted as evidence. */
  lemma WitnessRegistered(d: Data, e: Evidence, id: Id, attempt: Id)
    requires Inv(d)
    ensures id in d.ops && d.ops[id].active == attempt && attempt != "" ==>
              (Witnesses(d, e, id, attempt) <==>
                 && RegisterEvidence(d, e).Ok? && e.operationId == id && e.attemptId == attempt
                 && e.kind in {ProcessObservation, TransportObservation, PolicyDecision})
    ensures RegisterEvidence(d, e).Ok? ==> RegisterEvidence(d, e).value == d.(evidence := d.evidence[e.id := e])
  {
    hide Inv, ValidEvidence, RegisterEvidence;
    EvidenceExactly(d, e);
    if id in d.ops {
      TargetStored(d, id);
    }
  }

  lemma InvalidateLeaves(d: Data, id: Id, rev: nat, attempt: Id, reason: LossReason, seen: Evidence, at: Time)
    requires Inv(d) && InvalidateAttempt(d, id, rev, attempt, reason, seen, at).Ok?
    ensures && id in d.ops && attempt in d.attempts
              && InvalidateAttempt(d, id, rev, attempt, reason, seen, at).value ==
                 d.(ops := d.ops[id := OpAfter(d.ops[id], UnknownOutcome, attempt, at)],
                    attempts := AttemptAfter(d.attempts, attempt, Uncertain, at),
                    evidence := d.evidence[seen.id := seen],
                    revocations := d.revocations[attempt := Revocation(attempt, id, seen.id, reason, at)])
  {
    hide Inv, ValidEvidence, RegisterEvidence;
    EvidenceExactly(d, seen);
    TargetStored(d, id);
  }

  /** An attempt is withdrawn exactly when it is the active one, not withdrawn before,
      the caller is current and brings a new observation about it. The operation then
      is unknown and keeps attempt and scopes, the attempt is uncertain, and the
      revocation names the observation and the reason. */
  lemma InvalidatesExactly(d: Data, id: Id, rev: nat, attempt: Id, reason: LossReason, seen: Evidence, at: Time)
    requires Inv(d)
    ensures InvalidateAttempt(d, id, rev, attempt, reason, seen, at).Ok? <==>
            && Current(d, id, rev, at) && d.ops[id].active == attempt && attempt != "" && attempt !in d.revocations
            && !reason.OtherReason? && Witnesses(d, seen, id, attempt)
    ensures InvalidateAttempt(d, id, rev, attempt, reason, seen, at).Ok? ==>
              && attempt in d.attempts
              && InvalidateAttempt(d, id, rev, attempt, reason, seen, at).value ==
                 d.(ops := d.ops[id := OpAfter(d.ops[id], UnknownOutcome, attempt, at)],
                    attempts := AttemptAfter(d.attempts, attempt, Uncertain, at),
                    evidence := d.evidence[seen.id := seen],
                    revocations := d.revocations[attempt := Revocation(attempt, id, seen.id, reason, at)])
  {
    hide Inv, InvalidateAttempt, Witnesses;
    InvalidatesWhen(d, id, rev, attempt, reason, seen, at);
    if InvalidateAttempt(d, id, rev, attempt, reason, seen, at).Ok? {
      InvalidateLeaves(d, id, rev, attempt, reason, seen, at);
    }
  }

  /** What a report that is in scope and well-formed is told. Without authority, or
      when the operation has already moved on, it is kept as evidence only; with
      authority it must be on time, or nothing is kept; otherwise the operation goes
      to verifying and its attempt is reported. */
  lemma ReportAnswersExactly(d: Data, now: Time, r: Evidence, lease: Id, generation: nat, expires: Time)
    requires Inv(d) && ReportInScope(d, r, lease, generation, expires) && RegisterEvidence(d, r).Ok?
    requires now != ZERO_TIME && d.ops[r.operationId].revision < MAX_INT64
    ensures var kept := d.(evidence := d.evidence[r.id := r]); var op := d.ops[r.operationId];
            && (!HasAuthority(d, Claim(r.operationId, r.attemptId, lease, generation, r.source)) ==>
                  RecordWorkerReport(d, now, r, lease, generation, expires) == Ok((kept, false)))
            && (HasAuthority(d, Claim(r.operationId, r.attemptId, lease, generation, r.source)) ==>
                  RecordWorkerReport(d, now, r, lease, generation, expires) ==
                  if now >= expires then Err(DeadlineExceeded)
                  else if op.state != Executing then Ok((kept, false))
                  else Ok((kept.(ops := d.ops[r.operationId := OpAfter(op, Verifying, r.attemptId, now)],
                                 attempts := AttemptAfter(d.attempts, r.attemptId, Reported, now)), true)))
  {
    hide Inv, RegisterEvidence, BeginVerification, CheckActive;
    var kept := d.(evidence := d.evidence[r.id := r]);
    RegisterEvidenceKeeps(d, r);
    var c := Claim(r.operationId, r.attemptId, lease, generation, r.source);
    TargetStored(d, r.operationId);
    ReportersAttempt(d, r.attemptId);
    SameActive(d, kept, c);
    if HasAuthority(d, c) {
      AuthorityExact(d, c);
      ActiveOfAuthority(d, c);
      VerificationBeginsExactly(kept, r.operationId, d.ops[r.operationId].revision, now);
    } else {
      LostAuthorityIsStale(d, c);
    }
  }

  lemma ReportersAttempt(d: Data, a: Id)
    requires Inv(d) && a in d.attempts
    ensures d.attempts[a].id == a
  {
    hide TasksOk, OperationsOk, WorkOk, MessagesOk, ReservationsSound, ReservationsComplete, RecordInv, LeasesUnique,
         GenerationsUnique, GenerationsComplete, ActivesOk, SettledOk;
    assert AttemptOk(d.ops, d.attempts, a, d.attempts[a]);
  }

  lemma SameActive(d: Data, e: Data, c: Claim)
    requires e == d.(evidence := e.evidence)
    ensures CheckActive(e, c) == CheckActive(d, c)
  {
  }

  lemma ActiveOfAuthority(d: Data, c: Claim)
    requires HasAuthority(d, c)
    ensures c.operationId in d.ops && d.ops[c.operationId].active == c.attemptId
  {
  }

  // ---- creation -------------------------------------------------------------

  lemma TaskCreatedExactly(d: Data, id: Id, at: Time)
    ensures CreateTask(d, id, at).Ok? <==> id != "" && at != ZERO_TIME && id !in d.tasks
    ensures CreateTask(d, id, at).Ok? ==> CreateTask(d, id, at).value == d.(tasks := d.tasks[id := Task(id, TaskPlanned, 1, at, at)])
  {
  }

  lemma OperationCreatedExactly(d: Data, desc: Descriptor, at: Time)
    ensures CreateOperation(d, desc, at).Ok? <==>
            && ValidDescriptor(desc) && at != ZERO_TIME && desc.id !in d.ops
            && desc.taskId in d.tasks && !Terminal(d.tasks[desc.taskId].state)
    ensures CreateOperation(d, desc, at).Ok? ==>
              CreateOperation(d, desc, at).value == d.(ops := d.ops[desc.id := Operation(desc, Planned, 1, 0, "", at, at)])
  {
    hide ValidDescriptor;
  }

  /** What a started attempt leaves: the next generation, running under its own lease
      and owner, and every scope of a mutation bound to it. */
  lemma StartLeaves(d: Data, id: Id, rev: nat, attempt: Id, lease: Id, owner: Id, retryOf: Id, at: Time)
    requires Inv(d) && StartAttempt(d, id, rev, attempt, lease, owner, retryOf, at).Ok?
    ensures id in d.ops
    ensures var (d', a) := StartAttempt(d, id, rev, attempt, lease, owner, retryOf, at).value;
            var op := d.ops[id];
            && a == Attempt(attempt, id, lease, op.generation + 1, owner, retryOf, Running, at, at)
            && d'.ops == d.ops[id := OpAfter(op, Executing, attempt, at).(generation := op.generation + 1)]
            && d'.attempts == d.attempts[attempt := a]
            && d' == d.(ops := d'.ops, attempts := d'.attempts, reservations := d'.reservations)
            && (forall s :: s in d'.reservations <==>
                  s in d.reservations || (op.descriptor.effect == Mutation && s in op.descriptor.conflictScope))
            && (forall s :: s in d.reservations ==> s in d'.reservations && d'.reservations[s] == d.reservations[s])
            && (forall s :: s in d'.reservations && s !in d.reservations ==>
                  d'.reservations[s] == Reservation(s, id, attempt, lease, op.generation + 1, at))
  {
    hide Inv, StartAttempt, LeaseTaken, AllFree;
    StartTarget(d, id, rev, attempt, lease, owner, retryOf, at);
    TargetStored(d, id);
    StartParts(d, id, rev, attempt, lease, owner, retryOf, at);
    var next, a := StartShape(d, id, rev, attempt, lease, owner, retryOf, at);
    Fresh(d.reservations, d.ops[id].descriptor.conflictScope);
  }

  lemma Fresh(reservations: map<string, Reservation>, scopes: seq<string>)
    ensures AllFree(reservations, scopes) ==> forall s :: s in scopes ==> s !in reservations
  {
  }

  lemma StartParts(d: Data, id: Id, rev: nat, attempt: Id, lease: Id, owner: Id, retryOf: Id, at: Time)
    requires StartAttempt(d, id, rev, attempt, lease, owner, retryOf, at).Ok? && id in d.ops && d.ops[id].descriptor.id == id
    ensures var (d', a) := StartAttempt(d, id, rev, attempt, lease, owner, retryOf, at).value;
            && a == Attempt(attempt, id, lease, d.ops[id].generation + 1, owner, retryOf, Running, at, at)
            && d'.ops == d.ops[id := OpAfter(d.ops[id], Executing, attempt, at).(generation := d.ops[id].generation + 1)]
  {
    hide ReserveAll, ReservationMap, AllFree, Distinct, LeaseTaken, RetrySource;
    var m := Machine.StartAttempt(d.ops[id], rev, attempt, at).value;
    var a := m.1.(leaseId := lease, owner := owner, retryOf := retryOf);
    ReserveAllExact(d.(attempts := d.attempts[a.id := a]), a, d.ops[id].descriptor.conflictScope, at);
  }

  lemma StartTarget(d: Data, id: Id, rev: nat, attempt: Id, lease: Id, owner: Id, retryOf: Id, at: Time)
    requires StartAttempt(d, id, rev, attempt, lease, owner, retryOf, at).Ok?
    ensures id in d.ops
  {
    hide ReserveAll;
  }

  // ---- every decision -------------------------------------------------------

  predicate Reaches(d: Data, d': Data, id: Id, from: set<OperationState>, to: OperationState) {
    && id in d.ops && d.ops[id].state in from
    && id in d'.ops && d'.ops[id].state == to && d'.ops[id].revision == d.ops[id].revision + 1
  }

  /** What the name of a decision promises. */
  ghost predicate Effective(d: Data, d': Data, c: Decision) {
    match c
    case DoRegisterMessage(env) => env.messageId in d'.messages && d'.messages[env.messageId].digest == V1(env)
    case DoCreateTask(t, _) => t !in d.tasks && t in d'.tasks && d'.tasks[t].state == TaskPlanned
    case DoCreateOperation(desc, _) =>
      desc.id !in d.ops && desc.id in d'.ops && d'.ops[desc.id].descriptor == desc && d'.ops[desc.id].state == Planned
    case DoMarkReady(id, _, _) => Reaches(d, d', id, {Planned}, Ready)
    case DoStartAttempt(id, _, attempt, _, _, _, _) => Reaches(d, d', id, {Ready}, Executing) && d'.ops[id].active == attempt
    case DoBeginVerification(id, _, _) => Reaches(d, d', id, {Executing, UnknownOutcome}, Verifying)
    case DoMarkUnknownOutcome(id, _, _) =>
      Reaches(d, d', id, {Executing, Verifying}, UnknownOutcome) && d'.revocations == d.revocations
    case DoMarkNotStarted(id, _, v, _) =>
      && Reaches(d, d', id, {Executing, Verifying}, Ready)
      && v.attemptId in d'.attempts && d'.attempts[v.attemptId].state == NotStarted
    case DoApplyVerification(id, _, v, _) =>
      && v.id in d'.verifications && v.id !in d.verifications
      && (v.verdict == Satisfied ==> Reaches(d, d', id, {Verifying}, Succeeded))
      && (v.verdict == NotSatisfiedTerminal ==> Reaches(d, d', id, {Verifying}, Failed))
      && (v.verdict == NotSatisfiedRetryable ==> Reaches(d, d', id, {Executing, Verifying}, Ready))
      && (v.verdict == Inconclusive ==> Reaches(d, d', id, {Executing, Verifying}, UnknownOutcome))
    case DoRegisterEvidence(r) => r.id !in d.evidence && d' == d.(evidence := d.evidence[r.id := r])
    case DoRecordWorkerReport(r, _, _, _) => r.id !in d.evidence && d'.evidence == d.evidence[r.id := r]
    case DoInvalidateAttempt(id, _, attempt, _, _, _) =>
      && Reaches(d, d', id, {Executing, Verifying, UnknownOutcome}, UnknownOutcome)
      && attempt !in d.revocations && attempt in d'.revocations
    case DoCheckActive(claim) => d' == d && HasAuthority(d, claim)
    case DoFinalizeTask(t, _, _) => t in d.tasks && !Terminal(d.tasks[t].state) && t in d'.tasks && Terminal(d'.tasks[t].state)
  }

  lemma MovesAreEffective(d: Data, now: Time, c: Decision)
    requires Inv(d) && Decide(d, now, c).Ok?
    requires c.DoMarkReady? || c.DoStartAttempt? || c.DoBeginVerification? || c.DoMarkUnknownOutcome? || c.DoInvalidateAttempt?
    ensures Effective(d, Decide(d, now, c).value, c)
  {
    hide Inv, MarkReady, StartAttempt, BeginVerification, MarkUnknownOutcome, InvalidateAttempt, Witnesses;
    match c
    case DoMarkReady(id, rev, at) => ReadyExactly(d, id, rev, at);
    case DoStartAttempt(id, rev, attempt, lease, owner, retryOf, at) =>
      StartLeaves(d, id, rev, attempt, lease, owner, retryOf, at);
      StartedFromReady(d, id, rev, attempt, lease, owner, retryOf, at);
    case DoBeginVerification(id, rev, at) => VerificationBeginsExactly(d, id, rev, at);
    case DoMarkUnknownOutcome(id, rev, at) => UnknownExactly(d, id, rev, at);
    case DoInvalidateAttempt(id, rev, attempt, reason, record, at) =>
      InvalidatesExactly(d, id, rev, attempt, reason, record, at);
      TargetStored(d, id);
  }

  lemma StartedFromReady(d: Data, id: Id, rev: nat, attempt: Id, lease: Id, owner: Id, retryOf: Id, at: Time)
    requires Inv(d) && StartAttempt(d, id, rev, attempt, lease, owner, retryOf, at).Ok?
    ensures id in d.ops && d.ops[id].state == Ready
  {
    hide Inv, StartAttempt, HeldBy, LeaseTaken;
    StartsExactly(d, id, rev, attempt, lease, owner, retryOf, at);
  }

  lemma NotStartedIsEffective(d: Data, now: Time, c: Decision)
    requires Inv(d) && Decide(d, now, c).Ok? && c.DoMarkNotStarted?
    ensures Effective(d, Decide(d, now, c).value, c)
  {
    hide Inv, MarkNotStarted, Admissible, Released;
    NotStartedExactly(d, c.id, c.rev, c.v, c.at);
  }

  lemma VerdictIsEffective(d: Data, now: Time, c: Decision)
    requires Inv(d) && Decide(d, now, c).Ok? && c.DoApplyVerification?
    ensures Effective(d, Decide(d, now, c).value, c)
  {
    hide Inv, ApplyVerification, Admissible, Released;
    VerdictExactly(d, c.id, c.rev, c.v, c.at);
    VerificationIsNew(d, c.id, c.v);
  }

  lemma VerificationIsNew(d: Data, id: Id, v: Verification)
    ensures Admissible(d, id, v) ==> v.id !in d.verifications
  {
    hide ValidVerification, Distinct;
  }

  lemma ReportIsEffective(d: Data, now: Time, c: Decision)
    requires Inv(d) && Decide(d, now, c).Ok? && c.DoRecordWorkerReport?
    ensures Effective(d, Decide(d, now, c).value, c)
  {
    hide Inv, RegisterEvidence, CheckActive, BeginVerification, ValidEvidence;
    EvidenceExactly(d, c.record);
    RegisterEvidenceKeeps(d, c.record);
    VerificationBeginsExactly(RegisterEvidence(d, c.record).value, c.record.operationId, d.ops[c.record.operationId].revision, now);
  }

  lemma RecordsAreEffective(d: Data, now: Time, c: Decision)
    requires Inv(d) && Decide(d, now, c).Ok?
    requires c.DoRegisterMessage? || c.DoRegisterEvidence? || c.DoRecordWorkerReport? || c.DoCheckActive?
    ensures Effective(d, Decide(d, now, c).value, c)
  {
    hide Inv, RegisterEvidence, CheckActive, ValidEvidence, ValidEnvelope, Acceptable, RecordWorkerReport;
    match c
    case DoRegisterMessage(env) =>
    case DoRegisterEvidence(r) => EvidenceExactly(d, r);
    case DoRecordWorkerReport(_, _, _, _) => ReportIsEffective(d, now, c);
    case DoCheckActive(_) =>
  }

  lemma TasksAreEffective(d: Data, now: Time, c: Decision)
    requires Inv(d) && Decide(d, now, c).Ok? && (c.DoCreateTask? || c.DoCreateOperation? || c.DoFinalizeTask?)
    ensures Effective(d, Decide(d, now, c).value, c)
  {
    hide Inv, CreateTask, CreateOperation, FinalizeTask, ValidDescriptor;
    match c
    case DoCreateTask(t, at) => TaskCreatedExactly(d, t, at);
    case DoCreateOperation(desc, at) => OperationCreatedExactly(d, desc, at);
    case DoFinalizeTask(t, rev, at) =>
      FinalizesExactly(d, t, rev, at);
      FinalizedVerdict(d, t, rev, at);
  }

  /** Every decision that goes through does what its name says, from a state in which
      it may. */
  lemma DecisionsTakeEffect(d: Data, now: Time, c: Decision)
    requires Inv(d) && Decide(d, now, c).Ok?
    ensures Effective(d, Decide(d, now, c).value, c)
  {
    hide Inv, Decide, Effective;
    match c
    case DoMarkNotStarted(_, _, _, _) => NotStartedIsEffective(d, now, c);
    case DoApplyVerification(_, _, _, _) => VerdictIsEffective(d, now, c);
    case DoRegisterMessage(_) => RecordsAreEffective(d, now, c);
    case DoRegisterEvidence(_) => RecordsAreEffective(d, now, c);
    case DoRecordWorkerReport(_, _, _, _) => RecordsAreEffective(d, now, c);
    case DoCheckActive(_) => RecordsAreEffective(d, now, c);
    case DoCreateTask(_, _) => TasksAreEffective(d, now, c);
    case DoCreateOperation(_, _) => TasksAreEffective(d, now, c);
    case DoFinalizeTask(_, _, _) => TasksAreEffective(d, now, c);
    case _ => MovesAreEffective(d, now, c);
  }

  // ---- refusals -------------------------------------------------------------

  /** A start that is fresh and current is refused only for a scope that another
      mutation in flight holds, and says so. */
  lemma ConflictRefused(d: Data, id: Id, rev: nat, attempt: Id, lease: Id, owner: Id, retryOf: Id, at: Time)
    requires Inv(d) && NewAttempt(d, id, rev, attempt, lease, owner, retryOf, at)
    ensures StartAttempt(d, id, rev, attempt, lease, owner, retryOf, at).Ok?
            || StartAttempt(d, id, rev, attempt, lease, owner, retryOf, at) == Err(ConflictScope)
    ensures StartAttempt(d, id, rev, attempt, lease, owner, retryOf, at) == Err(ConflictScope) <==>
            && d.ops[id].descriptor.effect == Mutation
            && exists s, other :: s in d.ops[id].descriptor.conflictScope && HeldBy(d, s, other)
  {
    hide Inv, StartAttempt, HeldBy, LeaseTaken;
    StartsExactly(d, id, rev, attempt, lease, owner, retryOf, at);
    StartErrors(d, id, rev, attempt, lease, owner, retryOf, at);
  }

  lemma {:induction false} ReserveErrors(d: Data, a: Attempt, scopes: seq<string>, at: Time)
    ensures ReserveAll(d, a, scopes, at).Ok? || ReserveAll(d, a, scopes, at) == Err(ConflictScope)
    ensures ReserveAll(d, a, scopes, at).Ok? ==> ReserveAll(d, a, scopes, at).value.ops == d.ops
    decreases |scopes|
  {
    if scopes != [] && scopes[0] !in d.reservations {
      ReserveErrors(Reserve(d, ReservationFor(a, scopes[0], at)).value, a, scopes[1..], at);
    }
  }

  lemma StartErrors(d: Data, id: Id, rev: nat, attempt: Id, lease: Id, owner: Id, retryOf: Id, at: Time)
    requires Inv(d) && NewAttempt(d, id, rev, attempt, lease, owner, retryOf, at)
    ensures StartAttempt(d, id, rev, attempt, lease, owner, retryOf, at).Ok?
            || StartAttempt(d, id, rev, attempt, lease, owner, retryOf, at) == Err(ConflictScope)
  {
    hide Inv, ReserveAll, LeaseTaken;
    TargetStored(d, id);
    GenerationNeverExhausted(d, id, rev, attempt, at);
    var a := Machine.StartAttempt(d.ops[id], rev, attempt, at).value.1.(leaseId := lease, owner := owner, retryOf := retryOf);
    ReserveErrors(d.(attempts := d.attempts[a.id := a]), a, d.ops[id].descriptor.conflictScope, at);
  }

  /** An executor that lost its authority over a stored operation is told just that. */
  lemma LostAuthorityIsStale(d: Data, c: Claim)
    requires Inv(d) && c.operationId in d.ops && !HasAuthority(d, c)
    ensures CheckActive(d, c) == Err(StaleOwnership)
  {
    hide Inv;
    TargetStored(d, c.operationId);
  }
}
