/** Every decision keeps the invariant. */
module Preservation {
  import opened Basics
  import opened Records
  import opened Storage
  import opened Decisions
  import opened Invariant
  import Machine

  // ---- what never changes under a decision ----------------------------------

  /** Operations stay, with their descriptors, and their generation and revision
      never go back. */
  ghost predicate OperationsEvolve(ops: map<Id, Operation>, ops': map<Id, Operation>) {
    forall id :: id in ops ==>
      && id in ops'
      && ops'[id].descriptor == ops[id].descriptor
      && ops'[id].generation >= ops[id].generation
      && ops'[id].revision >= ops[id].revision
  }

  predicate SameIdentity(a: Attempt, b: Attempt) {
    && a.id == b.id && a.operationId == b.operationId && a.leaseId == b.leaseId
    && a.generation == b.generation && a.owner == b.owner && a.retryOf == b.retryOf
  }

  /** Attempts stay, and only their state and time may change. */
  ghost predicate AttemptsEvolve(attempts: map<Id, Attempt>, attempts': map<Id, Attempt>) {
    forall id :: id in attempts ==> id in attempts' && SameIdentity(attempts[id], attempts'[id])
  }

  ghost predicate Grows<V>(m: map<Id, V>, m': map<Id, V>) {
    forall k :: k in m ==> k in m' && m'[k] == m[k]
  }

  /** An attempt that may still act for its operation. */
  predicate Live(a: Attempt) {
    a.state in {Running, Reported}
  }

  /** No attempt comes back to life. */
  ghost predicate AttemptsAge(attempts: map<Id, Attempt>, attempts': map<Id, Attempt>) {
    forall k :: k in attempts ==> k in attempts' && (Live(attempts'[k]) ==> Live(attempts[k]))
  }

  /** An attempt that is not the active one never becomes it. */
  ghost predicate ActivesAge(ops: map<Id, Operation>, ops': map<Id, Operation>, attempts: map<Id, Attempt>) {
    forall id, a :: id in ops && id in ops' && a in attempts && a != ops[id].active ==> a != ops'[id].active
  }

  ghost predicate OutcomesStay(ops: map<Id, Operation>, ops': map<Id, Operation>) {
    forall id :: id in ops && ops[id].state in {Succeeded, Failed} ==> id in ops' && ops'[id] == ops[id]
  }

  ghost predicate ClosedTasksStay(tasks: map<Id, Task>, tasks': map<Id, Task>) {
    forall id :: id in tasks && Terminal(tasks[id].state) ==> id in tasks' && tasks'[id] == tasks[id]
  }

  /** What no decision forgets or revives. */
  ghost predicate Remembers(d: Data, d': Data) {
    && Grows(d.evidence, d'.evidence) && Grows(d.verifications, d'.verifications)
    && Grows(d.revocations, d'.revocations) && Grows(d.messages, d'.messages)
    && d'.messageFloor == d.messageFloor
    && AttemptsAge(d.attempts, d'.attempts) && ActivesAge(d.ops, d'.ops, d.attempts)
    && OutcomesStay(d.ops, d'.ops) && ClosedTasksStay(d.tasks, d'.tasks)
  }

  lemma RemembersTransitive(d: Data, d1: Data, d2: Data)
    requires Remembers(d, d1) && Remembers(d1, d2)
    requires OperationsEvolve(d.ops, d1.ops)
    ensures Remembers(d, d2)
  {
    forall id, a | id in d.ops && id in d2.ops && a in d.attempts && a != d.ops[id].active
      ensures a != d2.ops[id].active
    {
      assert id in d1.ops && a in d1.attempts && a != d1.ops[id].active;
    }
  }

  lemma EvidenceStays(ops: map<Id, Operation>, ops': map<Id, Operation>,
                      attempts: map<Id, Attempt>, attempts': map<Id, Attempt>, evidence: map<Id, Evidence>)
    requires EvidenceOk(ops, attempts, evidence)
    requires OperationsEvolve(ops, ops') && AttemptsEvolve(attempts, attempts')
    ensures EvidenceOk(ops', attempts', evidence)
  {
    forall id | id in evidence
      ensures EvidenceRecordOk(ops', attempts', id, evidence[id])
    {
      assert EvidenceRecordOk(ops, attempts, id, evidence[id]);
    }
  }

  lemma VerificationsStay(ops: map<Id, Operation>, ops': map<Id, Operation>,
                          attempts: map<Id, Attempt>, attempts': map<Id, Attempt>,
                          evidence: map<Id, Evidence>, evidence': map<Id, Evidence>, verifications: map<Id, Verification>)
    requires VerificationsOk(ops, attempts, evidence, verifications)
    requires OperationsEvolve(ops, ops') && AttemptsEvolve(attempts, attempts')
    requires forall k :: k in evidence ==> k in evidence' && evidence'[k] == evidence[k]
    ensures VerificationsOk(ops', attempts', evidence', verifications)
  {
    forall id | id in verifications
      ensures VerificationRecordOk(ops', attempts', evidence', id, verifications[id])
    {
      assert VerificationRecordOk(ops, attempts, evidence, id, verifications[id]);
    }
  }

  lemma RevocationsStay(attempts: map<Id, Attempt>, attempts': map<Id, Attempt>,
                        evidence: map<Id, Evidence>, evidence': map<Id, Evidence>, revocations: map<Id, Revocation>)
    requires RevocationsOk(attempts, evidence, revocations)
    requires AttemptsEvolve(attempts, attempts')
    requires forall k :: k in evidence ==> k in evidence' && evidence'[k] == evidence[k]
    requires forall id :: id in revocations && id in attempts ==> attempts'[id].state !in {Running, Reported}
    ensures RevocationsOk(attempts', evidence', revocations)
  {
    forall id | id in revocations
      ensures RevocationOk(attempts', evidence', id, revocations[id])
    {
      assert RevocationOk(attempts, evidence, id, revocations[id]);
    }
  }

  // ---- inserting independent rows -------------------------------------------

  /** A new operation has no rows yet, so nothing refers to it. */
  lemma NewOperation(tasks: map<Id, Task>, ops: map<Id, Operation>, op: Operation)
    requires OperationsOk(tasks, ops) && WorkOk(tasks, ops)
    requires op.descriptor.id !in ops && OperationOk(tasks, op.descriptor.id, op)
    requires !Terminal(tasks[op.descriptor.taskId].state)
    ensures OperationsOk(tasks, ops[op.descriptor.id := op]) && WorkOk(tasks, ops[op.descriptor.id := op])
    ensures OperationsEvolve(ops, ops[op.descriptor.id := op])
    ensures OutcomesStay(ops, ops[op.descriptor.id := op])
  {
    hide ValidDescriptor;
  }

  lemma NewOperationAttempts(ops: map<Id, Operation>, op: Operation, attempts: map<Id, Attempt>,
                             verifications: map<Id, Verification>)
    requires AttemptsOk(ops, attempts) && GenerationsComplete(ops, attempts)
    requires ActivesOk(ops, attempts) && SettledOk(ops, attempts) && ProofsOk(ops, attempts, verifications)
    requires op.descriptor.id !in ops && op.generation == 0 && op.active == ""
    ensures var ops' := ops[op.descriptor.id := op];
            && AttemptsOk(ops', attempts) && GenerationsComplete(ops', attempts)
            && ActivesOk(ops', attempts) && SettledOk(ops', attempts) && ProofsOk(ops', attempts, verifications)
    ensures AttemptsEvolve(attempts, attempts) && ActivesAge(ops, ops[op.descriptor.id := op], attempts)
  {
    hide HasVerdict;
    var ops' := ops[op.descriptor.id := op];
    forall k | k in attempts
      ensures AttemptOk(ops', attempts, k, attempts[k]) && attempts[k].operationId in ops
    {
      assert AttemptOk(ops, attempts, k, attempts[k]);
    }
  }

  lemma NewOperationReservations(ops: map<Id, Operation>, op: Operation, attempts: map<Id, Attempt>,
                                 reservations: map<string, Reservation>)
    requires ReservationsSound(ops, attempts, reservations) && ReservationsComplete(ops, reservations)
    requires op.descriptor.id !in ops && !Holds(op)
    ensures ReservationsSound(ops[op.descriptor.id := op], attempts, reservations)
    ensures ReservationsComplete(ops[op.descriptor.id := op], reservations)
  {
    forall s | s in reservations
      ensures ReservationOk(ops[op.descriptor.id := op], attempts, s, reservations[s])
    {
      assert ReservationOk(ops, attempts, s, reservations[s]);
    }
  }

  lemma CreateOperationKeeps(d: Data, desc: Descriptor, at: Time)
    requires Inv(d) && CreateOperation(d, desc, at).Ok?
    ensures Keeps(d, CreateOperation(d, desc, at).value)
  {
    hide TasksOk, OperationsOk, WorkOk, ReservationsSound, ReservationsComplete, MessagesOk,
         AttemptsOk, LeasesUnique, GenerationsUnique, GenerationsComplete, ActivesOk, SettledOk,
         EvidenceOk, VerificationsOk, RevocationsOk, ProofsOk,
         ValidDescriptor, OperationsEvolve, AttemptsEvolve, ActivesAge, OutcomesStay;
    var op := Operation(desc, Planned, 1, 0, "", at, at);
    NewOperation(d.tasks, d.ops, op);
    NewOperationAttempts(d.ops, op, d.attempts, d.verifications);
    NewOperationReservations(d.ops, op, d.attempts, d.reservations);
    EvidenceStays(d.ops, d.ops[desc.id := op], d.attempts, d.attempts, d.evidence);
    VerificationsStay(d.ops, d.ops[desc.id := op], d.attempts, d.attempts, d.evidence, d.evidence, d.verifications);
  }

  lemma NewEvidence(d: Data, e: Evidence)
    requires EvidenceOk(d.ops, d.attempts, d.evidence) && EvidenceRecordOk(d.ops, d.attempts, e.id, e)
    requires VerificationsOk(d.ops, d.attempts, d.evidence, d.verifications)
    requires RevocationsOk(d.attempts, d.evidence, d.revocations)
    requires e.id !in d.evidence
    ensures EvidenceOk(d.ops, d.attempts, d.evidence[e.id := e])
    ensures VerificationsOk(d.ops, d.attempts, d.evidence[e.id := e], d.verifications)
    ensures RevocationsOk(d.attempts, d.evidence[e.id := e], d.revocations)
  {
    hide ValidEvidence, ValidVerification;
    VerificationsStay(d.ops, d.ops, d.attempts, d.attempts, d.evidence, d.evidence[e.id := e], d.verifications);
    forall k | k in d.revocations && k in d.attempts
      ensures d.attempts[k].state !in {Running, Reported}
    {
      RevokedFacts(d, k);
    }
    RevocationsStay(d.attempts, d.attempts, d.evidence, d.evidence[e.id := e], d.revocations);
  }

  lemma RevokedFacts(d: Data, k: Id)
    requires RevocationsOk(d.attempts, d.evidence, d.revocations) && k in d.revocations
    ensures k in d.attempts && d.attempts[k].state !in {Running, Reported}
  {
    assert RevocationOk(d.attempts, d.evidence, k, d.revocations[k]);
  }

  lemma RegisterEvidenceKeeps(d: Data, e: Evidence)
    requires Inv(d) && RegisterEvidence(d, e).Ok?
    ensures Inv(RegisterEvidence(d, e).value)
    ensures RegisterEvidence(d, e).value == d.(evidence := d.evidence[e.id := e])
    ensures e.id !in d.evidence && EvidenceRecordOk(d.ops, d.attempts, e.id, e)
  {
    hide TasksOk, OperationsOk, WorkOk, ReservationsSound, ReservationsComplete, MessagesOk,
         AttemptsOk, LeasesUnique, GenerationsUnique, GenerationsComplete, ActivesOk, SettledOk,
         EvidenceOk, VerificationsOk, RevocationsOk, ProofsOk,
         ValidEvidence;
    NewEvidence(d, e);
  }

  // ---- verifications --------------------------------------------------------

  lemma {:induction false} CheckReferencesSound(d: Data, v: Verification, ids: seq<Id>, seen: set<Id>)
    requires CheckReferences(d, v, ids, seen).Ok?
    ensures Distinct(ids)
    ensures forall k :: k in ids ==> k !in seen && k in d.evidence && About(d.evidence[k], v.operationId, v.attemptId)
    decreases |ids|
  {
    if ids != [] {
      CheckReferencesSound(d, v, ids[1..], seen + {ids[0]});
      forall i, j | 0 <= i < j < |ids|
        ensures ids[i] != ids[j]
      {
        if i > 0 {
          assert ids[1..][i - 1] != ids[1..][j - 1];
        } else {
          assert ids[1..][j - 1] in ids[1..];
        }
      }
    }
  }

  lemma HasVerdictStays(verifications: map<Id, Verification>, v: Verification, op: Id, attempt: Id, verdict: Verdict)
    requires v.id !in verifications && HasVerdict(verifications, op, attempt, verdict)
    ensures HasVerdict(verifications[v.id := v], op, attempt, verdict)
  {
    var k :| k in verifications && Decided(verifications[k], op, attempt, verdict);
    assert verifications[v.id := v][k] == verifications[k];
  }

  lemma NewVerificationProofs(ops: map<Id, Operation>, attempts: map<Id, Attempt>,
                              verifications: map<Id, Verification>, v: Verification)
    requires ProofsOk(ops, attempts, verifications) && v.id !in verifications
    ensures ProofsOk(ops, attempts, verifications[v.id := v])
  {
    forall id | id in attempts && attempts[id].operationId in ops
      ensures Proven(ops[attempts[id].operationId], verifications[v.id := v], attempts[id])
    {
      var a := attempts[id];
      assert Proven(ops[a.operationId], verifications, a);
      forall verdict | HasVerdict(verifications, a.operationId, a.id, verdict)
        ensures HasVerdict(verifications[v.id := v], a.operationId, a.id, verdict)
      {
        HasVerdictStays(verifications, v, a.operationId, a.id, verdict);
      }
    }
  }

  lemma NewVerification(d: Data, op: Operation, v: Verification)
    requires VerificationsOk(d.ops, d.attempts, d.evidence, d.verifications) && v.id !in d.verifications
    requires op.descriptor.id in d.ops && op == d.ops[op.descriptor.id] && ActiveOk(d.attempts, op.descriptor.id, op)
    requires ValidateVerification(d, op, v).Ok?
    ensures VerificationsOk(d.ops, d.attempts, d.evidence, d.verifications[v.id := v])
    ensures HasVerdict(d.verifications[v.id := v], op.descriptor.id, op.active, v.verdict)
    ensures op.active != ""
  {
    hide ValidVerification;
    CheckReferencesSound(d, v, v.evidenceIds, {});
    assert VerificationRecordOk(d.ops, d.attempts, d.evidence, v.id, v);
    assert Decided(d.verifications[v.id := v][v.id], op.descriptor.id, op.active, v.verdict);
  }

  lemma InsertVerificationKeeps(d: Data, op: Operation, v: Verification)
    requires Inv(d) && op.descriptor.id in d.ops && op == d.ops[op.descriptor.id]
    requires ValidateVerification(d, op, v).Ok? && v.id !in d.verifications
    ensures Inv(d.(verifications := d.verifications[v.id := v]))
    ensures HasVerdict(d.verifications[v.id := v], op.descriptor.id, op.active, v.verdict)
    ensures op.active != ""
  {
    hide TasksOk, OperationsOk, WorkOk, ReservationsSound, ReservationsComplete, MessagesOk,
         AttemptsOk, LeasesUnique, GenerationsUnique, GenerationsComplete, ActivesOk, SettledOk,
         EvidenceOk, VerificationsOk, RevocationsOk, ProofsOk,
         ValidVerification, HasVerdict, ValidateVerification;
    TargetFacts(d, op.descriptor.id);
    NewVerification(d, op, v);
    NewVerificationProofs(d.ops, d.attempts, d.verifications, v);
  }

  // ---- moving an operation --------------------------------------------------

  function Marked(attempts: map<Id, Attempt>, active: Id, mark: Option<AttemptState>, at: Time): map<Id, Attempt>
    requires active != "" ==> active in attempts
  {
    if active == "" then attempts
    else
      var a := attempts[active];
      attempts[active := a.(state := if mark.Some? then mark.value else a.state, updatedAt := at)]
  }

  lemma MarkedFacts(attempts: map<Id, Attempt>, active: Id, mark: Option<AttemptState>, at: Time)
    requires active != "" ==> active in attempts
    ensures var attempts' := Marked(attempts, active, mark, at);
            && attempts'.Keys == attempts.Keys
            && AttemptsEvolve(attempts, attempts')
            && (forall k :: k in attempts && k != active ==> attempts'[k] == attempts[k])
            && (active != "" ==> SameIdentity(attempts[active], attempts'[active]))
            && (active != "" ==> attempts'[active].state == if mark.Some? then mark.value else attempts[active].state)
            && ((active != "" && mark.Some? && mark.value in {Running, Reported} ==> Live(attempts[active])) ==>
                  AttemptsAge(attempts, attempts'))
  {
  }

  /** The state after an operation, its active attempt and its reservations moved
      together. */
  function Advance(d: Data, id: Id, next: Operation, mark: Option<AttemptState>, at: Time): Data
    requires id in d.ops && (d.ops[id].active != "" ==> d.ops[id].active in d.attempts)
  {
    Data(d.messageFloor, d.revocations, d.tasks, d.ops[id := next],
         Marked(d.attempts, d.ops[id].active, mark, at), d.evidence, d.verifications, d.messages,
         if Holds(next) then d.reservations else Released(d.reservations, id))
  }

  /** What a move must satisfy to keep the invariant. */
  ghost predicate MoveOk(d: Data, id: Id, next: Operation, mark: Option<AttemptState>) {
    && id in d.ops
    && (d.ops[id].active != "" ==> d.ops[id].active in d.attempts)
    && var op := d.ops[id];
    && next.descriptor == op.descriptor && next.generation == op.generation
    && op.revision < next.revision <= MAX_INT64
    && op.state !in {Succeeded, Failed} && next.state !in {Planned, OperationCancelled, Executing}
    && next.active == (if InFlight(next.state) then op.active else "")
    && (InFlight(next.state) || next.state in {Succeeded, Failed} ==> op.active != "")
    && (op.active != "" ==>
          var s := if mark.Some? then mark.value else d.attempts[op.active].state;
          if InFlight(next.state) then Matches(next.state, s) else s in {AttemptClosed, NotStarted})
    && (op.active == "" ==> op.state == Planned)
    && (op.active != "" && mark.Some? && mark.value in {Running, Reported} ==> Live(d.attempts[op.active]))
    && (op.active != "" && op.active in d.revocations && mark.Some? ==> mark.value !in {Running, Reported})
    && (next.state == Ready && op.active != "" ==> HasVerdict(d.verifications, id, op.active, NotSatisfiedRetryable))
    && (next.state == Succeeded ==> HasVerdict(d.verifications, id, op.active, Satisfied))
    && (next.state == Failed ==> HasVerdict(d.verifications, id, op.active, NotSatisfiedTerminal))
  }

  lemma MoveFacts(d: Data, id: Id, next: Operation, mark: Option<AttemptState>)
    requires MoveOk(d, id, next, mark)
    requires OperationOk(d.tasks, id, d.ops[id]) && ActiveOk(d.attempts, id, d.ops[id])
    requires d.ops[id].active == "" || d.ops[id].generation >= 1
    ensures OperationOk(d.tasks, id, next)
  {
    hide ValidDescriptor, HasVerdict;
  }

  /** What the invariant says about one operation. */
  lemma TargetFacts(d: Data, id: Id)
    requires OperationsOk(d.tasks, d.ops) && ActivesOk(d.ops, d.attempts) && AttemptsOk(d.ops, d.attempts)
    requires id in d.ops
    ensures OperationOk(d.tasks, id, d.ops[id]) && ActiveOk(d.attempts, id, d.ops[id])
    ensures "" !in d.attempts
    ensures d.ops[id].active != "" ==>
              && d.ops[id].active in d.attempts && d.ops[id].generation >= 1
              && d.attempts[d.ops[id].active].id == d.ops[id].active
  {
    forall k | k in d.attempts
      ensures k != ""
    {
      assert AttemptOk(d.ops, d.attempts, k, d.attempts[k]);
    }
    assert ActiveOk(d.attempts, id, d.ops[id]);
    if d.ops[id].active != "" {
      assert AttemptOk(d.ops, d.attempts, d.ops[id].active, d.attempts[d.ops[id].active]);
    }
  }

  // Each part of the invariant on its own, from the parts it depends on.

  lemma OperationsMove(tasks: map<Id, Task>, ops: map<Id, Operation>, id: Id, next: Operation)
    requires OperationsOk(tasks, ops) && WorkOk(tasks, ops)
    requires id in ops && OperationOk(tasks, id, next) && ops[id].state !in {Succeeded, Failed}
    requires next.descriptor == ops[id].descriptor && next.generation == ops[id].generation && next.revision > ops[id].revision
    ensures OperationsOk(tasks, ops[id := next]) && WorkOk(tasks, ops[id := next]) && OperationsEvolve(ops, ops[id := next])
  {
    hide ValidDescriptor;
    assert OperationOk(tasks, id, ops[id]);
  }

  lemma AttemptsStay(ops: map<Id, Operation>, ops': map<Id, Operation>,
                     attempts: map<Id, Attempt>, attempts': map<Id, Attempt>)
    requires AttemptsOk(ops, attempts)
    requires OperationsEvolve(ops, ops') && AttemptsEvolve(attempts, attempts') && attempts'.Keys == attempts.Keys
    ensures AttemptsOk(ops', attempts')
  {
    forall k | k in attempts'
      ensures AttemptOk(ops', attempts', k, attempts'[k])
    {
      assert AttemptOk(ops, attempts, k, attempts[k]);
    }
  }

  lemma GenerationsStay(ops: map<Id, Operation>, ops': map<Id, Operation>,
                        attempts: map<Id, Attempt>, attempts': map<Id, Attempt>)
    requires LeasesUnique(attempts) && GenerationsUnique(attempts) && GenerationsComplete(ops, attempts)
    requires AttemptsEvolve(attempts, attempts') && attempts'.Keys == attempts.Keys
    requires forall id :: id in ops' ==> id in ops && ops'[id].generation == ops[id].generation
    ensures LeasesUnique(attempts') && GenerationsUnique(attempts') && GenerationsComplete(ops', attempts')
  {
    forall k, g: nat | k in ops' && 1 <= g <= ops'[k].generation
      ensures HasGeneration(attempts', k, g)
    {
      assert HasGeneration(attempts, k, g);
      var a :| a in attempts && attempts[a].operationId == k && attempts[a].generation == g;
      assert attempts'[a].operationId == k && attempts'[a].generation == g;
    }
    forall a, b | a in attempts' && b in attempts' && SameGeneration(attempts'[a], attempts'[b])
      ensures a == b
    {
      assert SameGeneration(attempts[a], attempts[b]);
    }
  }

  lemma ActivesMove(ops: map<Id, Operation>, id: Id, next: Operation, attempts: map<Id, Attempt>, attempts': map<Id, Attempt>)
    requires ActivesOk(ops, attempts) && SettledOk(ops, attempts) && id in ops && "" !in attempts
    requires AttemptsEvolve(attempts, attempts') && attempts'.Keys == attempts.Keys
    requires forall k :: k in attempts && k != ops[id].active ==> attempts'[k] == attempts[k]
    requires ActiveOk(attempts', id, next)
    requires next.active == ops[id].active ||
             (next.active == "" && ops[id].active in attempts && attempts'[ops[id].active].state in {AttemptClosed, NotStarted})
    ensures ActivesOk(ops[id := next], attempts') && SettledOk(ops[id := next], attempts')
  {
    var ops' := ops[id := next];
    assert ActiveOk(attempts, id, ops[id]);
    forall k | k in ops'
      ensures ActiveOk(attempts', k, ops'[k])
    {
      assert k in ops && ActiveOk(attempts, k, ops[k]);
    }
    forall a | a in attempts' && attempts'[a].operationId in ops' && ops'[attempts'[a].operationId].active != a
      ensures attempts'[a].state in {AttemptClosed, NotStarted}
    {
      assert a in attempts && attempts[a].operationId == attempts'[a].operationId;
    }
  }

  lemma ReservationsMove(ops: map<Id, Operation>, id: Id, next: Operation,
                         attempts: map<Id, Attempt>, attempts': map<Id, Attempt>,
                         reservations: map<string, Reservation>, reservations': map<string, Reservation>)
    requires ReservationsSound(ops, attempts, reservations) && ReservationsComplete(ops, reservations)
    requires id in ops && AttemptsEvolve(attempts, attempts')
    requires next.descriptor == ops[id].descriptor && next.generation == ops[id].generation
    requires Holds(next) ==> Holds(ops[id]) && next.active == ops[id].active
    requires reservations' == if Holds(next) then reservations else Released(reservations, id)
    ensures ReservationsSound(ops[id := next], attempts', reservations')
    ensures ReservationsComplete(ops[id := next], reservations')
  {
    ReservationsStayComplete(ops, id, next, reservations, reservations');
    var ops' := ops[id := next];
    forall s | s in reservations'
      ensures ReservationOk(ops', attempts', s, reservations'[s])
    {
      assert ReservationOk(ops, attempts, s, reservations[s]);
    }
  }

  lemma ReservationsStayComplete(ops: map<Id, Operation>, id: Id, next: Operation,
                                 reservations: map<string, Reservation>, reservations': map<string, Reservation>)
    requires ReservationsComplete(ops, reservations) && id in ops && next.descriptor == ops[id].descriptor
    requires Holds(next) ==> Holds(ops[id])
    requires reservations' == if Holds(next) then reservations else Released(reservations, id)
    ensures ReservationsComplete(ops[id := next], reservations')
  {
    var ops' := ops[id := next];
    forall k, s | k in ops' && Holds(ops'[k]) && s in ops'[k].descriptor.conflictScope
      ensures s in reservations' && reservations'[s].operationId == k
    {
      assert k in ops && Holds(ops[k]) && s in ops[k].descriptor.conflictScope;
    }
  }

  lemma ProvenByIdentity(o: Operation, verifications: map<Id, Verification>, a: Attempt, b: Attempt)
    requires SameIdentity(a, b) && Proven(o, verifications, a)
    ensures Proven(o, verifications, b)
  {
    hide HasVerdict;
  }

  lemma ProofsMove(ops: map<Id, Operation>, id: Id, next: Operation, attempts: map<Id, Attempt>, attempts': map<Id, Attempt>,
                   verifications: map<Id, Verification>)
    requires AttemptsOk(ops, attempts) && GenerationsUnique(attempts) && ProofsOk(ops, attempts, verifications)
    requires AttemptsEvolve(attempts, attempts') && attempts'.Keys == attempts.Keys
    requires id in ops && next.generation == ops[id].generation && ActiveOk(attempts, id, ops[id])
    requires ops[id].active != "" && ops[id].active in attempts ==> Proven(next, verifications, attempts[ops[id].active])
    requires ops[id].active == "" ==> ops[id].generation == 0
    ensures ProofsOk(ops[id := next], attempts', verifications)
  {
    hide HasVerdict;
    var ops' := ops[id := next];
    forall k | k in attempts' && attempts'[k].operationId in ops'
      ensures Proven(ops'[attempts'[k].operationId], verifications, attempts'[k])
    {
      var a := attempts[k];
      assert AttemptOk(ops, attempts, k, a);
      assert Proven(ops[a.operationId], verifications, a);
      ProvenAfterMove(ops, id, next, attempts, verifications, k);
      ProvenByIdentity(ops'[a.operationId], verifications, a, attempts'[k]);
    }
  }

  lemma ProvenAfterMove(ops: map<Id, Operation>, id: Id, next: Operation, attempts: map<Id, Attempt>,
                        verifications: map<Id, Verification>, k: Id)
    requires GenerationsUnique(attempts) && k in attempts && id in ops
    requires AttemptOk(ops, attempts, k, attempts[k]) && Proven(ops[attempts[k].operationId], verifications, attempts[k])
    requires next.generation == ops[id].generation && ActiveOk(attempts, id, ops[id])
    requires ops[id].active != "" && ops[id].active in attempts ==> Proven(next, verifications, attempts[ops[id].active])
    requires ops[id].active == "" ==> ops[id].generation == 0
    ensures Proven(ops[id := next][attempts[k].operationId], verifications, attempts[k])
  {
    hide HasVerdict;
    if attempts[k].operationId == id && attempts[k].generation == ops[id].generation {
      assert SameGeneration(attempts[k], attempts[ops[id].active]);
    }
  }

  lemma AdvanceKeeps(d: Data, id: Id, next: Operation, mark: Option<AttemptState>, at: Time)
    requires Inv(d) && MoveOk(d, id, next, mark)
    ensures Inv(Advance(d, id, next, mark, at))
    ensures OperationsEvolve(d.ops, Advance(d, id, next, mark, at).ops)
    ensures AttemptsEvolve(d.attempts, Advance(d, id, next, mark, at).attempts)
    ensures Remembers(d, Advance(d, id, next, mark, at))
  {
    hide AttemptsAge, ActivesAge, OutcomesStay, ClosedTasksStay,
         TasksOk, OperationsOk, WorkOk, ReservationsSound, ReservationsComplete, MessagesOk, Marked,
         AttemptsOk, LeasesUnique, GenerationsUnique, GenerationsComplete, ActivesOk, SettledOk,
         EvidenceOk, VerificationsOk, RevocationsOk, ProofsOk, OperationsEvolve, AttemptsEvolve,
         ValidDescriptor, HasVerdict, Released;
    var d' := Advance(d, id, next, mark, at);
    MarkedFacts(d.attempts, d.ops[id].active, mark, at);
    TargetFacts(d, id);
    MoveFacts(d, id, next, mark);
    OperationsMove(d.tasks, d.ops, id, next);
    AttemptsStay(d.ops, d'.ops, d.attempts, d'.attempts);
    GenerationsStay(d.ops, d'.ops, d.attempts, d'.attempts);
    ActivesMove(d.ops, id, next, d.attempts, d'.attempts);
    ReservationsMove(d.ops, id, next, d.attempts, d'.attempts, d.reservations, d'.reservations);
    EvidenceStays(d.ops, d'.ops, d.attempts, d'.attempts, d.evidence);
    VerificationsStay(d.ops, d'.ops, d.attempts, d'.attempts, d.evidence, d.evidence, d.verifications);
    forall k | k in d.revocations && k in d.attempts
      ensures d'.attempts[k].state !in {Running, Reported}
    {
      RevokedFacts(d, k);
    }
    RevocationsStay(d.attempts, d'.attempts, d.evidence, d.evidence, d.revocations);
    ProofsMove(d.ops, id, next, d.attempts, d'.attempts, d.verifications);
    MoveAges(d, id, next);
  }

  lemma MoveAges(d: Data, id: Id, next: Operation)
    requires id in d.ops && "" !in d.attempts && (next.active == "" || next.active == d.ops[id].active)
    requires d.ops[id].state !in {Succeeded, Failed}
    ensures ActivesAge(d.ops, d.ops[id := next], d.attempts) && OutcomesStay(d.ops, d.ops[id := next])
    ensures ClosedTasksStay(d.tasks, d.tasks)
  {
  }

  // ---- decisions that move an operation -------------------------------------

  /** What the caller of `Transition` must have established about the verdict and
      the attempt state it passes. */
  predicate Justified(d: Data, op: Operation, to: OperationState, mark: Option<AttemptState>) {
    var id := op.descriptor.id;
    match to
    case Ready => op.state == Planned ||
      (HasVerdict(d.verifications, id, op.active, NotSatisfiedRetryable) && mark in {Some(AttemptClosed), Some(NotStarted)})
    case Succeeded => HasVerdict(d.verifications, id, op.active, Satisfied) && mark in {Some(AttemptClosed), Some(NotStarted)}
    case Failed => HasVerdict(d.verifications, id, op.active, NotSatisfiedTerminal) && mark in {Some(AttemptClosed), Some(NotStarted)}
    case UnknownOutcome => mark == Some(Uncertain)
    case Verifying => mark == if op.state == Executing then Some(Reported) else None
    case _ => false
  }

  lemma RevokedNotRunning(d: Data, op: Operation)
    requires RevocationsOk(d.attempts, d.evidence, d.revocations) && op.active in d.revocations
    requires ActiveOk(d.attempts, op.descriptor.id, op) && op.active != ""
    ensures op.state != Executing
  {
    assert RevocationOk(d.attempts, d.evidence, op.active, d.revocations[op.active]);
  }

  lemma TransitionShape(d: Data, op: Operation, expected: nat, to: OperationState, mark: Option<AttemptState>, at: Time)
    requires op.descriptor.id in d.ops && op == d.ops[op.descriptor.id]
    requires op.active != "" ==> op.active in d.attempts && d.attempts[op.active].id == op.active
    requires Transition(d, op, expected, to, mark, at).Ok?
    ensures Machine.Transition(op, expected, to, at).Ok?
    ensures Transition(d, op, expected, to, mark, at).value ==
            Advance(d, op.descriptor.id, Machine.Transition(op, expected, to, at).value, mark, at)
  {
    hide Released;
    var d' := Transition(d, op, expected, to, mark, at).value;
    assert d'.attempts == Marked(d.attempts, op.active, mark, at);
  }

  lemma JustifiedMove(d: Data, op: Operation, expected: nat, to: OperationState, mark: Option<AttemptState>, at: Time)
    requires op.descriptor.id in d.ops && op == d.ops[op.descriptor.id]
    requires OperationOk(d.tasks, op.descriptor.id, op) && ActiveOk(d.attempts, op.descriptor.id, op)
    requires op.active != "" && op.active in d.revocations ==> op.state != Executing
    requires Justified(d, op, to, mark)
    requires Machine.Transition(op, expected, to, at).Ok?
    ensures MoveOk(d, op.descriptor.id, Machine.Transition(op, expected, to, at).value, mark)
  {
    hide ValidDescriptor, HasVerdict;
  }

  /** A justified transition keeps the invariant. */
  lemma TransitionKeeps(d: Data, op: Operation, expected: nat, to: OperationState, mark: Option<AttemptState>, at: Time)
    requires Inv(d) && op.descriptor.id in d.ops && op == d.ops[op.descriptor.id]
    requires Justified(d, op, to, mark)
    requires Transition(d, op, expected, to, mark, at).Ok?
    ensures var d' := Transition(d, op, expected, to, mark, at).value;
            && Inv(d') && OperationsEvolve(d.ops, d'.ops) && AttemptsEvolve(d.attempts, d'.attempts)
            && Remembers(d, d')
  {
    hide TasksOk, OperationsOk, WorkOk, ReservationsSound, ReservationsComplete, MessagesOk,
         AttemptsOk, LeasesUnique, GenerationsUnique, GenerationsComplete, ActivesOk, SettledOk,
         EvidenceOk, VerificationsOk, RevocationsOk, ProofsOk,
         Justified, Transition, Advance, MoveOk, OperationsEvolve, AttemptsEvolve, OperationOk, Remembers;
    TargetFacts(d, op.descriptor.id);
    if op.active != "" && op.active in d.revocations {
      RevokedNotRunning(d, op);
    }
    TransitionShape(d, op, expected, to, mark, at);
    JustifiedMove(d, op, expected, to, mark, at);
    AdvanceKeeps(d, op.descriptor.id, Machine.Transition(op, expected, to, at).value, mark, at);
  }

  ghost predicate Keeps(d: Data, d': Data) {
    && Inv(d') && Remembers(d, d')
    && OperationsEvolve(d.ops, d'.ops) && AttemptsEvolve(d.attempts, d'.attempts)
  }

  lemma KeepsTransitive(d: Data, d1: Data, d2: Data)
    requires Keeps(d, d1) && Keeps(d1, d2)
    ensures Keeps(d, d2)
  {
    hide Inv, Remembers;
    RemembersTransitive(d, d1, d2);
  }

  lemma KeepsInv(d: Data, d': Data)
    requires Keeps(d, d')
    ensures Inv(d')
  {
    hide Inv, Remembers;
  }

  lemma KeepsReflexive(d: Data)
    requires Inv(d)
    ensures Keeps(d, d)
  {
    hide Inv;
  }

  lemma StoredUnderOwnId(d: Data, id: Id)
    requires OperationsOk(d.tasks, d.ops) && id in d.ops
    ensures d.ops[id].descriptor.id == id
  {
    assert OperationOk(d.tasks, id, d.ops[id]);
  }

  lemma MarkReadyKeeps(d: Data, id: Id, expected: nat, at: Time)
    requires Inv(d) && MarkReady(d, id, expected, at).Ok?
    ensures Keeps(d, MarkReady(d, id, expected, at).value)
  {
    hide TasksOk, OperationsOk, WorkOk, ReservationsSound, ReservationsComplete, MessagesOk,
         AttemptsOk, LeasesUnique, GenerationsUnique, GenerationsComplete, ActivesOk, SettledOk,
         EvidenceOk, VerificationsOk, RevocationsOk, ProofsOk, Transition, OperationsEvolve, AttemptsEvolve,
         AttemptsAge, ActivesAge, OutcomesStay, ClosedTasksStay;
    StoredUnderOwnId(d, id);
    TransitionKeeps(d, d.ops[id], expected, Ready, None, at);
  }

  lemma BeginVerificationKeeps(d: Data, id: Id, expected: nat, at: Time)
    requires Inv(d) && BeginVerification(d, id, expected, at).Ok?
    ensures Keeps(d, BeginVerification(d, id, expected, at).value)
  {
    hide TasksOk, OperationsOk, WorkOk, ReservationsSound, ReservationsComplete, MessagesOk,
         AttemptsOk, LeasesUnique, GenerationsUnique, GenerationsComplete, ActivesOk, SettledOk,
         EvidenceOk, VerificationsOk, RevocationsOk, ProofsOk, Transition, OperationsEvolve, AttemptsEvolve,
         AttemptsAge, ActivesAge, OutcomesStay, ClosedTasksStay;
    StoredUnderOwnId(d, id);
    TransitionKeeps(d, d.ops[id], expected, Verifying, if d.ops[id].state == Executing then Some(Reported) else None, at);
  }

  lemma MarkUnknownOutcomeKeeps(d: Data, id: Id, expected: nat, at: Time)
    requires Inv(d) && MarkUnknownOutcome(d, id, expected, at).Ok?
    ensures Keeps(d, MarkUnknownOutcome(d, id, expected, at).value)
  {
    hide TasksOk, OperationsOk, WorkOk, ReservationsSound, ReservationsComplete, MessagesOk,
         AttemptsOk, LeasesUnique, GenerationsUnique, GenerationsComplete, ActivesOk, SettledOk,
         EvidenceOk, VerificationsOk, RevocationsOk, ProofsOk, Transition, OperationsEvolve, AttemptsEvolve,
         AttemptsAge, ActivesAge, OutcomesStay, ClosedTasksStay;
    StoredUnderOwnId(d, id);
    TransitionKeeps(d, d.ops[id], expected, UnknownOutcome, Some(Uncertain), at);
  }

  /** Applying a verdict stores the verification that justifies the new state. */
  lemma ApplyKeeps(d: Data, id: Id, expected: nat, v: Verification, at: Time, notStarted: bool)
    requires Inv(d) && Apply(d, id, expected, v, at, notStarted).Ok?
    requires notStarted ==> v.verdict == NotSatisfiedRetryable
    ensures Keeps(d, Apply(d, id, expected, v, at, notStarted).value)
  {
    hide TasksOk, OperationsOk, WorkOk, ReservationsSound, ReservationsComplete, MessagesOk,
         AttemptsOk, LeasesUnique, GenerationsUnique, GenerationsComplete, ActivesOk, SettledOk,
         EvidenceOk, VerificationsOk, RevocationsOk, ProofsOk, Transition, OperationsEvolve, AttemptsEvolve,
         AttemptsAge, ActivesAge, OutcomesStay, ClosedTasksStay, ValidateVerification, HasVerdict;
    StoredUnderOwnId(d, id);
    var op := d.ops[id];
    InsertVerificationKeeps(d, op, v);
    var to := Target(v.verdict);
    var mark := if notStarted then NotStarted else if to == UnknownOutcome then Uncertain else AttemptClosed;
    KnownVerdict(d, op, v);
    TransitionKeeps(d.(verifications := d.verifications[v.id := v]), op, expected, to, Some(mark), at);
  }

  lemma KnownVerdict(d: Data, op: Operation, v: Verification)
    requires ValidateVerification(d, op, v).Ok?
    ensures !v.verdict.OtherVerdict?
  {
  }
}
