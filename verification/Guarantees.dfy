/** What the invariant and the history buy: authority, retry safety, mutual
    exclusion of mutations, and trustworthy outcomes. */
module Guarantees {
  import opened Basics
  import opened Records
  import opened Storage
  import opened Decisions
  import opened Invariant
  import opened Preservation
  import opened Dispatching
  import opened Shrinking
  import opened Collecting
  import opened History
  import Machine
  import Retention

  // ---- authority ------------------------------------------------------------

  ghost predicate HasAuthority(d: Data, c: Claim) {
    CheckActive(d, c).Ok?
  }

  predicate Names(c: Claim, a: Attempt) {
    && a.operationId == c.operationId && a.id == c.attemptId && a.leaseId == c.leaseId
    && a.generation == c.generation && a.owner == c.owner
  }

  /** The long check amounts to this: the claim names a stored attempt that is
      still live. */
  lemma AuthorityExact(d: Data, c: Claim)
    requires Inv(d)
    ensures HasAuthority(d, c) <==>
            c.attemptId in d.attempts && Names(c, d.attempts[c.attemptId]) && Live(d.attempts[c.attemptId])
  {
    hide TasksOk, WorkOk, ReservationsSound, ReservationsComplete, MessagesOk, LeasesUnique, GenerationsUnique,
         GenerationsComplete, EvidenceOk, VerificationsOk, ProofsOk, ValidDescriptor;
    if c.attemptId in d.attempts {
      var a := d.attempts[c.attemptId];
      assert AttemptOk(d.ops, d.attempts, c.attemptId, a);
      assert ActiveOk(d.attempts, a.operationId, d.ops[a.operationId]);
      assert OperationOk(d.tasks, a.operationId, d.ops[a.operationId]);
      if c.attemptId in d.revocations {
        RevokedFacts(d, c.attemptId);
      }
    }
    if c.operationId in d.ops {
      assert ActiveOk(d.attempts, c.operationId, d.ops[c.operationId]);
    }
  }

  /** At most one claim has authority over an operation. */
  lemma AuthorityUnique(d: Data, c1: Claim, c2: Claim)
    requires HasAuthority(d, c1) && HasAuthority(d, c2) && c1.operationId == c2.operationId
    ensures c1 == c2
  {
  }

  /** No decision gives authority back to an existing attempt that lacks it. */
  lemma LostUnderDecisions(d: Data, d': Data, c: Claim)
    requires Inv(d) && Keeps(d, d') && c.attemptId in d.attempts && !HasAuthority(d, c)
    ensures c.attemptId in d'.attempts && !HasAuthority(d', c)
  {
    hide Inv, HasAuthority, ActivesAge, OutcomesStay, ClosedTasksStay, OperationsEvolve;
    AuthorityExact(d, c);
    AuthorityExact(d', c);
  }

  lemma LostUnderCollection(d: Data, d': Data, c: Claim)
    requires Inv(d) && Inv(d') && c.attemptId in d'.attempts && Shrunk(d.(messageFloor := d'.messageFloor), d')
    requires !HasAuthority(d, c)
    ensures !HasAuthority(d', c)
  {
    hide Inv, HasAuthority;
    AuthorityExact(d, c);
    AuthorityExact(d', c);
  }

  lemma LostUnderEvents(d: Data, e: Event, c: Claim)
    requires Inv(d) && c.attemptId in d.attempts && !HasAuthority(d, c)
    ensures c.attemptId in Step(d, e).attempts ==> !HasAuthority(Step(d, e), c)
  {
    hide Inv, HasAuthority, Keeps, Retention.Collect, DecideAll, ProcessMessage, Shrunk, Rows;
    StepKeepsInv(d, e);
    if e.commits && Attempted(d, e).Ok? {
      match e
      case Write(now, cs, _) =>
        DecisionsKeep(d, now, cs);
        LostUnderDecisions(d, DecideAll(d, now, cs).value, c);
      case Process(now, env, cs, _) =>
        ProcessKeeps(d, now, env, cs);
        LostUnderDecisions(d, ProcessMessage(d, now, env, cs).value.0, c);
      case Gc(o, _) =>
        LegalIfOk(d, o);
        CollectAccounts(d, o);
        if c.attemptId in Step(d, e).attempts {
          LostUnderCollection(d, Step(d, e), c);
        }
    }
  }

  /** The attempt stays stored throughout the run. */
  ghost predicate StoredThroughout(d: Data, events: seq<Event>, attempt: Id)
    decreases |events|
  {
    attempt in d.attempts && (events != [] ==> StoredThroughout(Step(d, events[0]), events[1..], attempt))
  }

  /** Authority that is gone never returns while the attempt is stored, whatever
      happens in between. */
  lemma {:induction false} AuthorityNeverReturns(d: Data, events: seq<Event>, c: Claim)
    requires Inv(d) && StoredThroughout(d, events, c.attemptId) && !HasAuthority(d, c)
    ensures !HasAuthority(Run(d, events), c)
    decreases |events|
  {
    hide Inv, HasAuthority, Step;
    if events != [] {
      StepKeepsInv(d, events[0]);
      LostUnderEvents(d, events[0], c);
      AuthorityNeverReturns(Step(d, events[0]), events[1..], c);
    }
  }

  /** Withdrawing an attempt ends the authority of every claim that names it. */
  lemma InvalidationEndsAuthority(d: Data, id: Id, rev: nat, attempt: Id, reason: LossReason, seen: Evidence, at: Time, c: Claim)
    requires Inv(d) && InvalidateAttempt(d, id, rev, attempt, reason, seen, at).Ok? && c.attemptId == attempt
    ensures !HasAuthority(InvalidateAttempt(d, id, rev, attempt, reason, seen, at).value, c)
  {
    hide Inv, InvalidateAttempt, Remembers, OperationsEvolve, AttemptsEvolve;
    InvalidateAttemptKeeps(d, id, rev, attempt, reason, seen, at);
  }

  /** The lease, generation, owner and target a report must present. */
  predicate ReportInScope(d: Data, r: Evidence, lease: Id, generation: nat, expires: Time) {
    && r.operationId in d.ops && r.attemptId in d.attempts
    && expires != ZERO_TIME && r.kind == WorkerReport
    && Names(Claim(r.operationId, r.attemptId, lease, generation, r.source), d.attempts[r.attemptId])
    && r.subjectRef == d.ops[r.operationId].descriptor.targetRef
  }

  /** A report whose claim has no authority is kept as evidence exactly when it is in
      scope and well-formed, and changes nothing else. */
  lemma LateReportOnlyAddsEvidence(d: Data, now: Time, r: Evidence, lease: Id, generation: nat, expires: Time)
    requires Inv(d) && !HasAuthority(d, Claim(r.operationId, r.attemptId, lease, generation, r.source))
    ensures RecordWorkerReport(d, now, r, lease, generation, expires).Ok? <==>
            ReportInScope(d, r, lease, generation, expires) && RegisterEvidence(d, r).Ok?
    ensures RecordWorkerReport(d, now, r, lease, generation, expires).Ok? ==>
              RecordWorkerReport(d, now, r, lease, generation, expires).value
              == (d.(evidence := d.evidence[r.id := r]), false)
  {
    hide ValidEvidence, BeginVerification, TasksOk, OperationsOk, WorkOk, ReservationsSound, ReservationsComplete,
         MessagesOk, LeasesUnique, GenerationsUnique, GenerationsComplete, ActivesOk, SettledOk, RecordInv;
    if r.attemptId in d.attempts {
      assert AttemptOk(d.ops, d.attempts, r.attemptId, d.attempts[r.attemptId]);
    }
    if RegisterEvidence(d, r).Ok? {
      assert RegisterEvidence(d, r).value == d.(evidence := d.evidence[r.id := r]);
    }
  }

  /** A report moves its operation to verifying exactly when it is in scope, new,
      on time, and its attempt is live in an executing operation. */
  lemma ReportAppliesExactly(d: Data, now: Time, r: Evidence, lease: Id, generation: nat, expires: Time)
    requires Inv(d)
    ensures (RecordWorkerReport(d, now, r, lease, generation, expires).Ok?
             && RecordWorkerReport(d, now, r, lease, generation, expires).value.1)
            <==>
            (&& ReportInScope(d, r, lease, generation, expires)
             && RegisterEvidence(d, r).Ok?
             && HasAuthority(d, Claim(r.operationId, r.attemptId, lease, generation, r.source))
             && now < expires && now != ZERO_TIME
             && d.ops[r.operationId].state == Executing && d.ops[r.operationId].revision < MAX_INT64)
  {
    hide TasksOk, WorkOk, ReservationsSound, ReservationsComplete, MessagesOk, LeasesUnique, GenerationsUnique,
         GenerationsComplete, SettledOk, EvidenceOk, VerificationsOk, RevocationsOk, ProofsOk, ValidDescriptor, ValidEvidence;
    if r.operationId in d.ops && r.attemptId in d.attempts {
      var op := d.ops[r.operationId];
      assert AttemptOk(d.ops, d.attempts, r.attemptId, d.attempts[r.attemptId]);
      assert OperationOk(d.tasks, r.operationId, op) && ActiveOk(d.attempts, r.operationId, op);
      if RegisterEvidence(d, r).Ok? {
        assert RegisterEvidence(d, r).value == d.(evidence := d.evidence[r.id := r]);
      }
    }
  }

  // ---- generations and retries ----------------------------------------------

  /** The attempts of an operation are numbered 1 to its lease generation without
      gap or repetition. */
  lemma GenerationsExact(d: Data, op: Id, g: nat)
    requires Inv(d) && op in d.ops
    ensures (exists a :: a in AttemptsOf(d, op) && d.attempts[a].generation == g) <==> 1 <= g <= d.ops[op].generation
    ensures forall a, b | a in AttemptsOf(d, op) && b in AttemptsOf(d, op) ::
              d.attempts[a].generation == g && d.attempts[b].generation == g ==> a == b
  {
    hide TasksOk, OperationsOk, WorkOk, ReservationsSound, ReservationsComplete, MessagesOk, LeasesUnique, ActivesOk,
         SettledOk, EvidenceOk, VerificationsOk, RevocationsOk, ProofsOk;
    forall a | a in AttemptsOf(d, op)
      ensures 1 <= d.attempts[a].generation <= d.ops[op].generation
    {
      assert AttemptOk(d.ops, d.attempts, a, d.attempts[a]);
    }
    if 1 <= g <= d.ops[op].generation {
      assert HasGeneration(d.attempts, op, g);
      var a :| a in d.attempts && d.attempts[a].operationId == op && d.attempts[a].generation == g;
      assert a in AttemptsOf(d, op);
    }
    forall a, b | a in AttemptsOf(d, op) && b in AttemptsOf(d, op)
                  && d.attempts[a].generation == g && d.attempts[b].generation == g
      ensures a == b
    {
      assert SameGeneration(d.attempts[a], d.attempts[b]);
    }
  }

  /** A stored verification that an attempt may be retried, with its evidence. */
  ghost predicate RetryProven(d: Data, a: Attempt) {
    exists v :: v in d.verifications && IsRetryProof(d, d.verifications[v], a)
  }

  ghost predicate IsRetryProof(d: Data, v: Verification, a: Attempt) {
    && v.operationId == a.operationId && v.attemptId == a.id
    && v.verdict == NotSatisfiedRetryable && v.retryExecutionSafe
    && v.evidenceIds != [] && forall k :: k in v.evidenceIds ==> k in d.evidence && About(d.evidence[k], a.operationId, a.id)
  }

  lemma VerdictIsRetryProof(d: Data, a: Attempt)
    requires VerificationsOk(d.ops, d.attempts, d.evidence, d.verifications)
    requires HasVerdict(d.verifications, a.operationId, a.id, NotSatisfiedRetryable)
    ensures RetryProven(d, a)
  {
    var v :| v in d.verifications && Decided(d.verifications[v], a.operationId, a.id, NotSatisfiedRetryable);
    assert VerificationRecordOk(d.ops, d.attempts, d.evidence, v, d.verifications[v]);
    assert IsRetryProof(d, d.verifications[v], a);
  }

  /** Every attempt that was followed by another, and the last one of an operation
      that is ready again, has a stored retry-safe verification; and retries only
      point back. */
  lemma RetriesAreProven(d: Data, k: Id)
    requires Inv(d) && k in d.attempts
    ensures d.attempts[k].operationId in d.ops
    ensures var a := d.attempts[k]; var op := d.ops[a.operationId];
            a.generation < op.generation || op.state == Ready ==> RetryProven(d, a)
    ensures var a := d.attempts[k];
            a.retryOf != "" ==> a.retryOf in d.attempts && d.attempts[a.retryOf].generation < a.generation
                                && d.attempts[a.retryOf].operationId == a.operationId
  {
    hide TasksOk, OperationsOk, WorkOk, ReservationsSound, ReservationsComplete, MessagesOk, LeasesUnique, GenerationsUnique,
         GenerationsComplete, ActivesOk, SettledOk, EvidenceOk, VerificationsOk, RevocationsOk, HasVerdict, RetryProven;
    var a := d.attempts[k];
    assert AttemptOk(d.ops, d.attempts, k, a);
    assert Proven(d.ops[a.operationId], d.verifications, a);
    if a.generation < d.ops[a.operationId].generation || d.ops[a.operationId].state == Ready {
      VerdictIsRetryProof(d, a);
    }
  }

  /** A new attempt never follows an unknown outcome without proof: whenever one is
      started, every earlier attempt of the operation had been proven retryable. */
  lemma StartNeedsProof(d: Data, id: Id, rev: nat, attempt: Id, lease: Id, owner: Id, retryOf: Id, at: Time)
    requires Inv(d) && StartAttempt(d, id, rev, attempt, lease, owner, retryOf, at).Ok?
    ensures forall k :: k in AttemptsOf(d, id) ==> RetryProven(d, d.attempts[k])
  {
    hide Inv, ReserveAll, RetryProven;
    forall k | k in AttemptsOf(d, id)
      ensures RetryProven(d, d.attempts[k])
    {
      RetriesAreProven(d, k);
    }
  }

  /** The generation-exhausted branch of the state machine cannot be taken. */
  lemma GenerationNeverExhausted(d: Data, id: Id, rev: nat, attempt: Id, at: Time)
    requires Inv(d) && id in d.ops
    ensures 2 * d.ops[id].generation + 1 <= d.ops[id].revision
    ensures Machine.StartAttempt(d.ops[id], rev, attempt, at).Ok? <==>
            attempt != "" && Machine.Transition(d.ops[id], rev, Executing, at).Ok?
  {
    hide TasksOk, WorkOk, ReservationsSound, ReservationsComplete, MessagesOk, GraphInv, RecordInv, ValidDescriptor;
    assert OperationOk(d.tasks, id, d.ops[id]);
  }

  // ---- mutual exclusion -----------------------------------------------------

  /** The scopes that in-flight mutations hold. */
  ghost predicate HeldBy(d: Data, s: string, id: Id) {
    id in d.ops && Holds(d.ops[id]) && s in d.ops[id].descriptor.conflictScope
  }

  /** The reservation table is exactly the held scopes, each bound to the active
      attempt, lease and generation of the one operation that holds it. */
  lemma ReservationsExact(d: Data, s: string)
    requires Inv(d)
    ensures s in d.reservations <==> exists id :: HeldBy(d, s, id)
    ensures forall id :: HeldBy(d, s, id) ==>
              && s in d.reservations && d.ops[id].active in d.attempts
              && d.reservations[s] == Reservation(s, id, d.ops[id].active, d.attempts[d.ops[id].active].leaseId,
                                                  d.ops[id].generation, d.reservations[s].createdAt)
  {
    hide TasksOk, OperationsOk, WorkOk, MessagesOk, GraphInv, RecordInv;
    if s in d.reservations {
      assert ReservationOk(d.ops, d.attempts, s, d.reservations[s]);
      assert HeldBy(d, s, d.reservations[s].operationId);
    }
  }

  /** Two mutations in flight never share a scope. */
  lemma MutationsDisjoint(d: Data, id1: Id, id2: Id)
    requires Inv(d) && id1 in d.ops && id2 in d.ops && id1 != id2
    requires Holds(d.ops[id1]) && Holds(d.ops[id2])
    ensures forall s :: s in d.ops[id1].descriptor.conflictScope ==> s !in d.ops[id2].descriptor.conflictScope
  {
    hide TasksOk, OperationsOk, WorkOk, MessagesOk, GraphInv, RecordInv, ReservationsSound;
    forall s | s in d.ops[id1].descriptor.conflictScope && s in d.ops[id2].descriptor.conflictScope
      ensures d.reservations[s].operationId == id1 && d.reservations[s].operationId == id2
    {
    }
  }

  predicate NewAttempt(d: Data, id: Id, rev: nat, attempt: Id, lease: Id, owner: Id, retryOf: Id, at: Time) {
    && lease != "" && owner != "" && attempt != "" && at != ZERO_TIME
    && attempt !in d.attempts && !LeaseTaken(d.attempts, lease)
    && (retryOf != "" ==> retryOf in d.attempts && d.attempts[retryOf].operationId == id)
    && id in d.ops && d.ops[id].state == Ready && d.ops[id].revision == rev && rev < MAX_INT64
  }

  lemma ScopesDistinct(scopes: seq<string>)
    requires DistinctScopes(scopes)
    ensures Distinct(scopes)
  {
    forall i, j | 0 <= i < j < |scopes|
      ensures scopes[i] != scopes[j]
    {
      assert Trim(scopes[i]) != Trim(scopes[j]);
    }
  }

  /** An attempt starts exactly when its request is fresh and current and, for a
      mutation, no scope is held by any operation in flight. */
  lemma StartsExactly(d: Data, id: Id, rev: nat, attempt: Id, lease: Id, owner: Id, retryOf: Id, at: Time)
    requires Inv(d)
    ensures StartAttempt(d, id, rev, attempt, lease, owner, retryOf, at).Ok? <==>
            && NewAttempt(d, id, rev, attempt, lease, owner, retryOf, at)
            && (d.ops[id].descriptor.effect == Mutation ==>
                  forall s, other :: s in d.ops[id].descriptor.conflictScope ==> !HeldBy(d, s, other))
  {
    hide TasksOk, WorkOk, MessagesOk, GraphInv, RecordInv, ReservationsSound, ReservationsComplete, Holds, ReserveAll,
         LeaseTaken, ValidDescriptor, HeldBy;
    if id in d.ops {
      var op := d.ops[id];
      assert OperationOk(d.tasks, id, op);
      assert Distinct(op.descriptor.conflictScope) by {
        DescriptorScopes(op.descriptor);
        ScopesDistinct(op.descriptor.conflictScope);
      }
      FreeMeansUnheld(d, op.descriptor.conflictScope);
      StartSteps(d, id, rev, attempt, lease, owner, retryOf, at);
    }
  }

  lemma DescriptorScopes(desc: Descriptor)
    requires ValidDescriptor(desc)
    ensures DistinctScopes(desc.conflictScope)
  {
    hide DistinctScopes, Trim;
  }

  lemma FreeMeansUnheld(d: Data, scopes: seq<string>)
    requires Inv(d)
    ensures AllFree(d.reservations, scopes) <==> forall s, other :: s in scopes ==> !HeldBy(d, s, other)
  {
    hide Inv, HeldBy;
    forall s
      ensures s in d.reservations <==> exists id :: HeldBy(d, s, id)
    {
      ReservationsExact(d, s);
    }
  }

  lemma StartSteps(d: Data, id: Id, rev: nat, attempt: Id, lease: Id, owner: Id, retryOf: Id, at: Time)
    requires id in d.ops && d.ops[id].descriptor.id == id && Distinct(d.ops[id].descriptor.conflictScope)
    requires d.ops[id].generation < MAX_INT64 && d.ops[id].revision > 0
    ensures StartAttempt(d, id, rev, attempt, lease, owner, retryOf, at).Ok? <==>
            && NewAttempt(d, id, rev, attempt, lease, owner, retryOf, at)
            && (d.ops[id].descriptor.effect == Mutation ==> AllFree(d.reservations, d.ops[id].descriptor.conflictScope))
  {
    hide ReserveAll, LeaseTaken, AllFree, Distinct;
    var m := Machine.StartAttempt(d.ops[id], rev, attempt, at);
    if m.Ok? {
      var a := m.value.1.(leaseId := lease, owner := owner, retryOf := retryOf);
      ReserveAllExact(d.(attempts := d.attempts[a.id := a]), a, d.ops[id].descriptor.conflictScope, at);
    }
  }

  // ---- outcomes -------------------------------------------------------------

  /** A verification of the last attempt, under the operation's own policy, with
      every piece of its evidence stored. */
  ghost predicate OutcomeProven(d: Data, id: Id, verdict: Verdict)
    requires id in d.ops
  {
    exists a, v :: a in AttemptsOf(d, id) && v in d.verifications && ProvesOutcome(d, id, d.attempts[a], d.verifications[v], verdict)
  }

  ghost predicate ProvesOutcome(d: Data, id: Id, a: Attempt, v: Verification, verdict: Verdict)
    requires id in d.ops
  {
    && a.generation == d.ops[id].generation
    && Decided(v, id, a.id, verdict) && v.policyRef == d.ops[id].descriptor.verificationPolicy
    && v.evidenceIds != [] && Distinct(v.evidenceIds)
    && forall k :: k in v.evidenceIds ==> k in d.evidence && About(d.evidence[k], id, a.id)
  }

  lemma VerdictIsOutcome(d: Data, id: Id, a: Id, verdict: Verdict)
    requires id in d.ops && a in AttemptsOf(d, id) && d.attempts[a].generation == d.ops[id].generation
    requires VerificationsOk(d.ops, d.attempts, d.evidence, d.verifications)
    requires HasVerdict(d.verifications, id, d.attempts[a].id, verdict)
    ensures OutcomeProven(d, id, verdict)
  {
    var v :| v in d.verifications && Decided(d.verifications[v], id, d.attempts[a].id, verdict);
    assert VerificationRecordOk(d.ops, d.attempts, d.evidence, v, d.verifications[v]);
    assert ProvesOutcome(d, id, d.attempts[a], d.verifications[v], verdict);
  }

  /** An operation counts as succeeded, or as failed, only with a stored proof. */
  lemma OutcomesAreProven(d: Data, id: Id)
    requires Inv(d) && id in d.ops
    ensures d.ops[id].state == Succeeded ==> OutcomeProven(d, id, Satisfied)
    ensures d.ops[id].state == Failed ==> OutcomeProven(d, id, NotSatisfiedTerminal)
  {
    hide TasksOk, WorkOk, ReservationsSound, ReservationsComplete, MessagesOk, LeasesUnique, GenerationsUnique,
         ActivesOk, SettledOk, EvidenceOk, VerificationsOk, RevocationsOk, HasVerdict, OutcomeProven, ValidDescriptor;
    assert OperationOk(d.tasks, id, d.ops[id]);
    if d.ops[id].state in {Succeeded, Failed} {
      assert HasGeneration(d.attempts, id, d.ops[id].generation);
      var a :| a in d.attempts && d.attempts[a].operationId == id && d.attempts[a].generation == d.ops[id].generation;
      assert AttemptOk(d.ops, d.attempts, a, d.attempts[a]);
      assert Proven(d.ops[id], d.verifications, d.attempts[a]);
      VerdictIsOutcome(d, id, a, if d.ops[id].state == Succeeded then Satisfied else NotSatisfiedTerminal);
    }
  }

  /** A completed task has only succeeded operations, and no terminal task has
      pending work, in every state a run reaches. */
  lemma ClosedTasksAreDone(events: seq<Event>, task: Id)
    requires var d := Run(EMPTY, events); task in d.tasks && Terminal(d.tasks[task].state)
    ensures var d := Run(EMPTY, events);
            && !HasPending(d, task)
            && (d.tasks[task].state == TaskCompleted ==> forall id :: OfTask(d.ops, task, id) ==> d.ops[id].state == Succeeded)
  {
    hide Run, HasPending, TasksOk, OperationsOk, ReservationsSound, ReservationsComplete, MessagesOk, GraphInv, RecordInv;
    EmptyInv();
    RunKeepsInv(EMPTY, events);
    SettledTask(Run(EMPTY, events), task);
  }

  /** Decisions never undo an outcome, reopen a task, or lose a proof. */
  lemma OutcomesAreFinal(d: Data, now: Time, cs: seq<Decision>)
    requires Inv(d) && DecideAll(d, now, cs).Ok?
    ensures var d' := DecideAll(d, now, cs).value;
            && OutcomesStay(d.ops, d'.ops) && ClosedTasksStay(d.tasks, d'.tasks)
            && Grows(d.verifications, d'.verifications) && Grows(d.evidence, d'.evidence)
            && Grows(d.revocations, d'.revocations)
  {
    hide Inv, DecideAll;
    DecisionsKeep(d, now, cs);
  }

  // ---- closing --------------------------------------------------------------

  lemma TaskOperationFacts(d: Data, task: Id)
    requires OperationsOk(d.tasks, d.ops) && ReservationsSound(d.ops, d.attempts, d.reservations)
    ensures HasPending(d, task) <==> exists id :: OfTask(d.ops, task, id) && d.ops[id].state !in {Succeeded, Failed}
    ensures InState(d, task, OperationCancelled) == {}
  {
    hide ValidDescriptor, Reserved;
    forall id | OfTask(d.ops, task, id)
      ensures d.ops[id].state != OperationCancelled
      ensures d.ops[id].state in {Succeeded, Failed} ==> !Reserved(d.reservations, id)
    {
      assert OperationOk(d.tasks, id, d.ops[id]);
      SettledUnreserved(d, id);
    }
  }

  /** A task closes exactly when it is open and current, has operations, and every
      one of them has a verdict. */
  lemma FinalizesExactly(d: Data, task: Id, rev: nat, at: Time)
    requires Inv(d)
    ensures FinalizeTask(d, task, rev, at).Ok? <==>
            && task in d.tasks && d.tasks[task].revision == rev && d.tasks[task].state == TaskPlanned
            && at != ZERO_TIME && rev < MAX_INT64
            && OperationsOf(d, task) != {}
            && forall id :: OfTask(d.ops, task, id) ==> d.ops[id].state in {Succeeded, Failed}
  {
    hide OperationsOk, WorkOk, ReservationsSound, ReservationsComplete, MessagesOk, GraphInv, RecordInv, HasPending;
    TaskOperationFacts(d, task);
  }

  /** A closed task is completed when no operation failed, and failed otherwise. */
  lemma FinalizedVerdict(d: Data, task: Id, rev: nat, at: Time)
    requires Inv(d) && FinalizeTask(d, task, rev, at).Ok?
    ensures var d' := FinalizeTask(d, task, rev, at).value;
            && task in d.tasks
            && d' == d.(tasks := d.tasks[task := Task(task, d'.tasks[task].state, rev + 1, d.tasks[task].createdAt, at)])
            && d'.tasks[task].state == if exists id :: OfTask(d.ops, task, id) && d.ops[id].state == Failed
                                       then TaskFailed else TaskCompleted
  {
    hide OperationsOk, WorkOk, ReservationsSound, ReservationsComplete, MessagesOk, GraphInv, RecordInv, HasPending;
    TaskOperationFacts(d, task);
    assert InState(d, task, Failed) != {} <==> exists id :: OfTask(d.ops, task, id) && d.ops[id].state == Failed by {
      forall id | OfTask(d.ops, task, id) && d.ops[id].state == Failed
        ensures InState(d, task, Failed) != {}
      {
        assert id in InState(d, task, Failed);
      }
      if InState(d, task, Failed) != {} {
        var f :| f in InState(d, task, Failed);
      }
    }
  }

  lemma SettledUnreserved(d: Data, id: Id)
    requires ReservationsSound(d.ops, d.attempts, d.reservations) && id in d.ops
    ensures d.ops[id].state in {Succeeded, Failed} ==> !Reserved(d.reservations, id)
  {
    forall s | s in d.reservations && d.ops[id].state in {Succeeded, Failed}
      ensures d.reservations[s].operationId != id
    {
      assert ReservationOk(d.ops, d.attempts, s, d.reservations[s]);
    }
  }
}
