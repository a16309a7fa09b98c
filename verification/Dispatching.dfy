/** Starting an attempt, withdrawing one, recording reports and closing tasks keep
    the invariant; so does every decision. */
module Dispatching {
  import opened Basics
  import opened Records
  import opened Storage
  import opened Decisions
  import opened Invariant
  import opened Preservation
  import Machine

  // ---- reserving ------------------------------------------------------------

  function ReservationMap(a: Attempt, scopes: seq<string>, at: Time): map<string, Reservation> {
    map s | s in scopes :: ReservationFor(a, s, at)
  }

  lemma {:induction false} ReserveAllValue(d: Data, a: Attempt, scopes: seq<string>, at: Time)
    requires ReserveAll(d, a, scopes, at).Ok?
    ensures ReserveAll(d, a, scopes, at).value == d.(reservations := d.reservations + ReservationMap(a, scopes, at))
    decreases |scopes|
  {
    if scopes == [] {
      assert d.reservations + ReservationMap(a, scopes, at) == d.reservations;
    } else {
      var d1 := Reserve(d, ReservationFor(a, scopes[0], at)).value;
      ReserveAllValue(d1, a, scopes[1..], at);
      ReservationMapStep(d.reservations, a, scopes, at);
    }
  }

  lemma ReservationMapStep(m: map<string, Reservation>, a: Attempt, scopes: seq<string>, at: Time)
    requires scopes != []
    ensures m[scopes[0] := ReservationFor(a, scopes[0], at)] + ReservationMap(a, scopes[1..], at)
            == m + ReservationMap(a, scopes, at)
  {
    hide ReservationFor;
    assert forall s :: s in scopes <==> s == scopes[0] || s in scopes[1..];
  }

  predicate AllFree(reservations: map<string, Reservation>, scopes: seq<string>) {
    forall s :: s in scopes ==> s !in reservations
  }

  /** Reserving one scope after the other succeeds exactly when the scopes are
      distinct and all free, and then adds exactly those reservations. */
  lemma {:induction false} ReserveAllExact(d: Data, a: Attempt, scopes: seq<string>, at: Time)
    ensures ReserveAll(d, a, scopes, at).Ok? <==> Distinct(scopes) && AllFree(d.reservations, scopes)
    ensures ReserveAll(d, a, scopes, at).Ok? ==>
              ReserveAll(d, a, scopes, at).value == d.(reservations := d.reservations + ReservationMap(a, scopes, at))
    ensures ReserveAll(d, a, scopes, at).Err? ==> ReserveAll(d, a, scopes, at).error == ConflictScope
    decreases |scopes|
  {
    hide Distinct;
    if scopes == [] {
      assert Distinct(scopes) by { DistinctEmpty(); }
    } else if scopes[0] in d.reservations {
      assert scopes[0] in scopes;
    } else {
      var d1 := Reserve(d, ReservationFor(a, scopes[0], at)).value;
      ReserveAllExact(d1, a, scopes[1..], at);
      DistinctTail(scopes);
      assert forall s :: s in scopes <==> s == scopes[0] || s in scopes[1..];
    }
    if ReserveAll(d, a, scopes, at).Ok? {
      ReserveAllValue(d, a, scopes, at);
    }
  }

  lemma DistinctEmpty()
    ensures Distinct([])
  {
  }

  lemma DistinctTail(xs: seq<string>)
    requires xs != []
    ensures Distinct(xs) <==> xs[0] !in xs[1..] && Distinct(xs[1..])
  {
    if Distinct(xs) {
      assert forall i, j :: 0 <= i < j < |xs[1..]| ==> xs[1..][i] == xs[i + 1] && xs[1..][j] == xs[j + 1];
      assert forall j :: 0 <= j < |xs[1..]| ==> xs[1..][j] == xs[j + 1];
    }
    if xs[0] !in xs[1..] && Distinct(xs[1..]) {
      forall i, j | 0 <= i < j < |xs|
        ensures xs[i] != xs[j]
      {
        assert xs[j] == xs[1..][j - 1];
        if i > 0 {
          assert xs[i] == xs[1..][i - 1];
        }
      }
    }
  }

  // ---- starting an attempt --------------------------------------------------

  /** Everything a successful start establishes about its target and its new
      attempt. */
  ghost predicate StartOk(d: Data, id: Id, next: Operation, a: Attempt) {
    && id in d.ops && d.ops[id].state == Ready && d.ops[id].active == ""
    && next == d.ops[id].(state := Executing, revision := d.ops[id].revision + 1, updatedAt := next.updatedAt,
                          generation := d.ops[id].generation + 1, active := a.id)
    && a.id != "" && a.id !in d.attempts && a.leaseId != "" && a.owner != "" && !LeaseTaken(d.attempts, a.leaseId)
    && a.operationId == id && a.generation == next.generation && a.state == Running
    && (a.retryOf != "" ==> a.retryOf in d.attempts && d.attempts[a.retryOf].operationId == id)
  }

  function Started(d: Data, id: Id, next: Operation, a: Attempt, at: Time): Data {
    Data(d.messageFloor, d.revocations, d.tasks, d.ops[id := next], d.attempts[a.id := a], d.evidence, d.verifications,
         d.messages,
         if next.descriptor.effect == Mutation
         then d.reservations + ReservationMap(a, next.descriptor.conflictScope, at) else d.reservations)
  }

  lemma StartShape(d: Data, id: Id, expected: nat, attemptId: Id, leaseId: Id, owner: Id, retryOf: Id, at: Time)
    returns (next: Operation, a: Attempt)
    requires id in d.ops && d.ops[id].descriptor.id == id && (d.ops[id].state == Ready ==> d.ops[id].active == "")
    requires StartAttempt(d, id, expected, attemptId, leaseId, owner, retryOf, at).Ok?
    ensures StartOk(d, id, next, a)
    ensures StartAttempt(d, id, expected, attemptId, leaseId, owner, retryOf, at).value == (Started(d, id, next, a, at), a)
    ensures next.descriptor.effect == Mutation ==>
              AllFree(d.reservations, next.descriptor.conflictScope)
    ensures next.revision <= MAX_INT64
    ensures a.id == attemptId && a.leaseId == leaseId && a.owner == owner && a.retryOf == retryOf
  {
    hide ReserveAll;
    var m := Machine.StartAttempt(d.ops[id], expected, attemptId, at).value;
    next, a := m.0, m.1.(leaseId := leaseId, owner := owner, retryOf := retryOf);
    ReserveAllExact(d.(attempts := d.attempts[a.id := a]), a, d.ops[id].descriptor.conflictScope, at);
  }

  lemma StartOperations(d: Data, id: Id, next: Operation, a: Attempt)
    requires OperationsOk(d.tasks, d.ops) && WorkOk(d.tasks, d.ops) && StartOk(d, id, next, a) && next.revision <= MAX_INT64
    ensures OperationsOk(d.tasks, d.ops[id := next]) && WorkOk(d.tasks, d.ops[id := next])
    ensures OperationsEvolve(d.ops, d.ops[id := next])
  {
    hide ValidDescriptor, LeaseTaken;
    assert OperationOk(d.tasks, id, d.ops[id]);
    assert OperationOk(d.tasks, id, next);
  }

  lemma StartAttempts(d: Data, id: Id, next: Operation, a: Attempt)
    requires AttemptsOk(d.ops, d.attempts) && LeasesUnique(d.attempts) && GenerationsUnique(d.attempts)
    requires StartOk(d, id, next, a)
    ensures AttemptsOk(d.ops[id := next], d.attempts[a.id := a])
    ensures LeasesUnique(d.attempts[a.id := a]) && GenerationsUnique(d.attempts[a.id := a])
    ensures AttemptsEvolve(d.attempts, d.attempts[a.id := a])
  {
    var attempts' := d.attempts[a.id := a];
    forall k | k in attempts'
      ensures AttemptOk(d.ops[id := next], attempts', k, attempts'[k])
    {
      if k != a.id {
        assert AttemptOk(d.ops, d.attempts, k, d.attempts[k]);
      } else if a.retryOf != "" {
        assert AttemptOk(d.ops, d.attempts, a.retryOf, d.attempts[a.retryOf]);
      }
    }
    forall k | k in d.attempts
      ensures d.attempts[k].leaseId != a.leaseId && !SameGeneration(d.attempts[k], a)
    {
      assert AttemptOk(d.ops, d.attempts, k, d.attempts[k]);
    }
  }

  lemma StartGenerations(d: Data, id: Id, next: Operation, a: Attempt)
    requires GenerationsComplete(d.ops, d.attempts) && ActivesOk(d.ops, d.attempts) && SettledOk(d.ops, d.attempts)
    requires "" !in d.attempts
    requires StartOk(d, id, next, a)
    ensures GenerationsComplete(d.ops[id := next], d.attempts[a.id := a])
    ensures ActivesOk(d.ops[id := next], d.attempts[a.id := a])
    ensures SettledOk(d.ops[id := next], d.attempts[a.id := a])
  {
    hide LeaseTaken;
    var attempts', ops' := d.attempts[a.id := a], d.ops[id := next];
    forall k, g: nat | k in ops' && 1 <= g <= ops'[k].generation
      ensures HasGeneration(attempts', k, g)
    {
      if k == id && g == a.generation {
        assert attempts'[a.id].operationId == k && attempts'[a.id].generation == g;
      } else {
        assert HasGeneration(d.attempts, k, g);
        var x :| x in d.attempts && d.attempts[x].operationId == k && d.attempts[x].generation == g;
        assert attempts'[x].operationId == k && attempts'[x].generation == g;
      }
    }
    forall k | k in ops'
      ensures ActiveOk(attempts', k, ops'[k])
    {
      assert ActiveOk(d.attempts, k, d.ops[k]);
    }
  }

  lemma StartReservationsSound(d: Data, id: Id, next: Operation, a: Attempt, at: Time)
    requires ReservationsSound(d.ops, d.attempts, d.reservations) && StartOk(d, id, next, a)
    ensures var d' := Started(d, id, next, a, at); ReservationsSound(d'.ops, d'.attempts, d'.reservations)
  {
    hide LeaseTaken;
    var d' := Started(d, id, next, a, at);
    forall s | s in d'.reservations
      ensures ReservationOk(d'.ops, d'.attempts, s, d'.reservations[s])
    {
      if s in d.reservations {
        assert ReservationOk(d.ops, d.attempts, s, d.reservations[s]);
      }
    }
  }

  lemma StartReservationsComplete(d: Data, id: Id, next: Operation, a: Attempt, at: Time)
    requires ReservationsComplete(d.ops, d.reservations) && StartOk(d, id, next, a)
    requires next.descriptor.effect == Mutation ==>
               AllFree(d.reservations, next.descriptor.conflictScope)
    ensures var d' := Started(d, id, next, a, at); ReservationsComplete(d'.ops, d'.reservations)
  {
    hide LeaseTaken;
    var d' := Started(d, id, next, a, at);
    forall k, s | k in d'.ops && Holds(d'.ops[k]) && s in d'.ops[k].descriptor.conflictScope
      ensures s in d'.reservations && d'.reservations[s].operationId == k
    {
      if k != id {
        assert Holds(d.ops[k]);
      }
    }
  }

  lemma StartProofs(d: Data, id: Id, next: Operation, a: Attempt)
    requires ProofsOk(d.ops, d.attempts, d.verifications) && AttemptsOk(d.ops, d.attempts) && StartOk(d, id, next, a)
    ensures ProofsOk(d.ops[id := next], d.attempts[a.id := a], d.verifications)
  {
    hide HasVerdict, LeaseTaken;
    var attempts' := d.attempts[a.id := a];
    forall k | k in attempts' && attempts'[k].operationId in d.ops[id := next]
      ensures Proven(d.ops[id := next][attempts'[k].operationId], d.verifications, attempts'[k])
    {
      if k != a.id {
        assert AttemptOk(d.ops, d.attempts, k, d.attempts[k]);
        assert Proven(d.ops[d.attempts[k].operationId], d.verifications, d.attempts[k]);
      }
    }
  }

  lemma StartRevocations(d: Data, a: Attempt)
    requires RevocationsOk(d.attempts, d.evidence, d.revocations) && a.id !in d.attempts
    requires AttemptsEvolve(d.attempts, d.attempts[a.id := a])
    ensures RevocationsOk(d.attempts[a.id := a], d.evidence, d.revocations)
  {
    forall k | k in d.revocations && k in d.attempts
      ensures d.attempts[a.id := a][k].state !in {Running, Reported}
    {
      RevokedFacts(d, k);
    }
    RevocationsStay(d.attempts, d.attempts[a.id := a], d.evidence, d.evidence, d.revocations);
  }

  lemma ReadyFacts(d: Data, id: Id)
    requires OperationsOk(d.tasks, d.ops) && id in d.ops
    ensures d.ops[id].descriptor.id == id && (d.ops[id].state == Ready ==> d.ops[id].active == "")
  {
    assert OperationOk(d.tasks, id, d.ops[id]);
  }

  lemma StartAttemptKeeps(d: Data, id: Id, expected: nat, attemptId: Id, leaseId: Id, owner: Id, retryOf: Id, at: Time)
    requires Inv(d) && StartAttempt(d, id, expected, attemptId, leaseId, owner, retryOf, at).Ok?
    ensures Keeps(d, StartAttempt(d, id, expected, attemptId, leaseId, owner, retryOf, at).value.0)
  {
    hide TasksOk, OperationsOk, WorkOk, ReservationsSound, ReservationsComplete, MessagesOk,
         AttemptsOk, LeasesUnique, GenerationsUnique, GenerationsComplete, ActivesOk, SettledOk,
         EvidenceOk, VerificationsOk, RevocationsOk, ProofsOk,
         OperationsEvolve, AttemptsEvolve, ReserveAll, LeaseTaken;
    ReadyFacts(d, id);
    var next, a := StartShape(d, id, expected, attemptId, leaseId, owner, retryOf, at);
    StartedKeeps(d, id, next, a, at);
  }

  lemma StartedKeeps(d: Data, id: Id, next: Operation, a: Attempt, at: Time)
    requires Inv(d) && StartOk(d, id, next, a) && next.revision <= MAX_INT64
    requires next.descriptor.effect == Mutation ==>
               AllFree(d.reservations, next.descriptor.conflictScope)
    ensures Keeps(d, Started(d, id, next, a, at))
  {
    hide TasksOk, OperationsOk, WorkOk, ReservationsSound, ReservationsComplete, MessagesOk,
         AttemptsOk, LeasesUnique, GenerationsUnique, GenerationsComplete, ActivesOk, SettledOk,
         EvidenceOk, VerificationsOk, RevocationsOk, ProofsOk,
         OperationsEvolve, AttemptsEvolve, LeaseTaken;
    var d' := Started(d, id, next, a, at);
    StartOperations(d, id, next, a);
    StartAttempts(d, id, next, a);
    TargetFacts(d, id);
    StartGenerations(d, id, next, a);
    StartReservationsSound(d, id, next, a, at);
    StartReservationsComplete(d, id, next, a, at);
    EvidenceStays(d.ops, d'.ops, d.attempts, d'.attempts, d.evidence);
    VerificationsStay(d.ops, d'.ops, d.attempts, d'.attempts, d.evidence, d.evidence, d.verifications);
    StartRevocations(d, a);
    StartProofs(d, id, next, a);
  }

  // ---- withdrawing an attempt -----------------------------------------------

  lemma LossMove(d: Data, id: Id, expected: nat, at: Time)
    requires id in d.ops && OperationOk(d.tasks, id, d.ops[id]) && ActiveOk(d.attempts, id, d.ops[id])
    requires d.ops[id].active != "" && Machine.LoseExecutionCertainty(d.ops[id], expected, at).Ok?
    ensures var next := Machine.LoseExecutionCertainty(d.ops[id], expected, at).value;
            MoveOk(d, id, next, Some(Uncertain)) && next.state == UnknownOutcome && next.active == d.ops[id].active
  {
    hide ValidDescriptor, HasVerdict;
  }

  lemma InvalidateShape(d: Data, id: Id, expected: nat, attemptId: Id, reason: LossReason, seen: Evidence, at: Time)
    requires InvalidateAttempt(d, id, expected, attemptId, reason, seen, at).Ok?
    requires id in d.ops && d.ops[id].descriptor.id == id && InFlight(d.ops[id].state)
    requires d.ops[id].active == attemptId && attemptId in d.attempts && d.attempts[attemptId].id == attemptId
    requires !Holds(d.ops[id]) ==> Released(d.reservations, id) == d.reservations
    ensures RegisterEvidence(d, seen) == Ok(d.(evidence := d.evidence[seen.id := seen]))
    ensures Machine.LoseExecutionCertainty(d.ops[id], expected, at).Ok?
    ensures attemptId != "" && attemptId !in d.revocations
    ensures seen.operationId == id && seen.attemptId == attemptId && !reason.OtherReason?
    ensures InvalidateAttempt(d, id, expected, attemptId, reason, seen, at).value ==
            Advance(d.(evidence := d.evidence[seen.id := seen]), id,
                    Machine.LoseExecutionCertainty(d.ops[id], expected, at).value, Some(Uncertain), at).(
              revocations := d.revocations[attemptId := Revocation(attemptId, id, seen.id, reason, at)])
  {
    hide ValidEvidence, Released, Holds;
    LossHolds(d.ops[id], expected, at);
  }

  lemma NothingToRelease(d: Data, id: Id)
    requires ReservationsSound(d.ops, d.attempts, d.reservations) && id in d.ops && !Holds(d.ops[id])
    ensures Released(d.reservations, id) == d.reservations
  {
    forall s | s in d.reservations
      ensures d.reservations[s].operationId != id
    {
      assert ReservationOk(d.ops, d.attempts, s, d.reservations[s]);
    }
  }

  /** Losing certainty never releases a reservation. */
  lemma LossHolds(op: Operation, expected: nat, at: Time)
    requires Machine.LoseExecutionCertainty(op, expected, at).Ok? && InFlight(op.state)
    ensures var next := Machine.LoseExecutionCertainty(op, expected, at).value;
            next.descriptor == op.descriptor && (Holds(next) <==> Holds(op))
  {
  }

  lemma NewRevocation(attempts: map<Id, Attempt>, evidence: map<Id, Evidence>, revocations: map<Id, Revocation>, r: Revocation)
    requires RevocationsOk(attempts, evidence, revocations) && RevocationOk(attempts, evidence, r.attemptId, r)
    ensures RevocationsOk(attempts, evidence, revocations[r.attemptId := r])
  {
  }

  lemma ActiveAttemptKnown(d: Data, id: Id, expected: nat, attemptId: Id, reason: LossReason, seen: Evidence, at: Time)
    requires OperationsOk(d.tasks, d.ops) && ActivesOk(d.ops, d.attempts) && AttemptsOk(d.ops, d.attempts)
    requires InvalidateAttempt(d, id, expected, attemptId, reason, seen, at).Ok?
    ensures id in d.ops && OperationOk(d.tasks, id, d.ops[id]) && ActiveOk(d.attempts, id, d.ops[id])
    ensures d.ops[id].active == attemptId && attemptId in d.attempts && d.attempts[attemptId].id == attemptId
    ensures d.attempts[attemptId].operationId == id && d.ops[id].active != "" && d.ops[id].descriptor.id == id && InFlight(d.ops[id].state)
  {
    hide RegisterEvidence;
    TargetFacts(d, id);
  }

  lemma InvalidateAttemptKeeps(d: Data, id: Id, expected: nat, attemptId: Id, reason: LossReason, seen: Evidence, at: Time)
    requires Inv(d) && InvalidateAttempt(d, id, expected, attemptId, reason, seen, at).Ok?
    ensures Keeps(d, InvalidateAttempt(d, id, expected, attemptId, reason, seen, at).value)
    ensures var d' := InvalidateAttempt(d, id, expected, attemptId, reason, seen, at).value;
            id in d'.ops && d'.ops[id].state == UnknownOutcome && d'.ops[id].active == attemptId && attemptId in d'.revocations
  {
    hide TasksOk, OperationsOk, WorkOk, ReservationsSound, ReservationsComplete, MessagesOk,
         AttemptsOk, LeasesUnique, GenerationsUnique, GenerationsComplete, ActivesOk, SettledOk,
         EvidenceOk, VerificationsOk, RevocationsOk, ProofsOk,
         OperationsEvolve, AttemptsEvolve, RegisterEvidence, InvalidateAttempt, MoveOk, OperationOk, Marked, ValidEvidence;
    ActiveAttemptKnown(d, id, expected, attemptId, reason, seen, at);
    if !Holds(d.ops[id]) {
      NothingToRelease(d, id);
    }
    InvalidateShape(d, id, expected, attemptId, reason, seen, at);
    RegisterEvidenceKeeps(d, seen);
    var d1 := d.(evidence := d.evidence[seen.id := seen]);
    var next := Machine.LoseExecutionCertainty(d.ops[id], expected, at).value;
    LossMove(d1, id, expected, at);
    AdvanceKeeps(d1, id, next, Some(Uncertain), at);
    MarkedFacts(d1.attempts, attemptId, Some(Uncertain), at);
    var d2 := Advance(d1, id, next, Some(Uncertain), at);
    NewRevocation(d2.attempts, d2.evidence, d2.revocations, Revocation(attemptId, id, seen.id, reason, at));
  }

  // ---- recording a report ---------------------------------------------------

  lemma RecordWorkerReportKeeps(d: Data, now: Time, r: Evidence, lease: Id, generation: nat, expires: Time)
    requires Inv(d) && RecordWorkerReport(d, now, r, lease, generation, expires).Ok?
    ensures Keeps(d, RecordWorkerReport(d, now, r, lease, generation, expires).value.0)
  {
    hide Inv, OperationsOk, RegisterEvidence, CheckActive, BeginVerification;
    var d1 := RegisterEvidence(d, r).value;
    RegisterEvidenceKeeps(d, r);
    if RecordWorkerReport(d, now, r, lease, generation, expires).value.1 {
      BeginVerificationKeeps(d1, r.operationId, d.ops[r.operationId].revision, now);
    }
  }

  // ---- closing a task -------------------------------------------------------

  lemma FinalizedWork(d: Data, id: Id, revision: nat, at: Time)
    requires OperationsOk(d.tasks, d.ops) && WorkOk(d.tasks, d.ops) && TasksOk(d.tasks)
    requires FinalizeTask(d, id, revision, at).Ok?
    ensures var d' := FinalizeTask(d, id, revision, at).value;
            && d' == d.(tasks := d'.tasks) && d'.tasks.Keys == d.tasks.Keys
            && TasksOk(d'.tasks) && WorkOk(d'.tasks, d'.ops) && ClosedTasksStay(d.tasks, d'.tasks)
  {
    hide ValidDescriptor, Reserved;
    var d' := FinalizeTask(d, id, revision, at).value;
    forall k | OfTask(d.ops, id, k)
      ensures d.ops[k].state in {Succeeded, Failed}
      ensures d.ops[k].state == Failed ==> k in InState(d, id, Failed)
    {
      assert OperationOk(d.tasks, k, d.ops[k]);
    }
    assert InState(d, id, OperationCancelled) == {};
    forall k | k in d'.ops && d'.ops[k].descriptor.taskId in d'.tasks && Terminal(d'.tasks[d'.ops[k].descriptor.taskId].state)
      ensures d'.ops[k].state in {Succeeded, Failed}
      ensures d'.tasks[d'.ops[k].descriptor.taskId].state == TaskCompleted ==> d'.ops[k].state == Succeeded
    {
      if d.ops[k].descriptor.taskId == id {
        assert OfTask(d.ops, id, k);
      }
    }
  }

  lemma OperationsKeepTasks(tasks: map<Id, Task>, tasks': map<Id, Task>, ops: map<Id, Operation>)
    requires OperationsOk(tasks, ops) && tasks.Keys <= tasks'.Keys
    ensures OperationsOk(tasks', ops)
  {
    hide ValidDescriptor;
    forall k | k in ops
      ensures OperationOk(tasks', k, ops[k])
    {
      assert OperationOk(tasks, k, ops[k]);
    }
  }

  lemma FinalizeTaskKeeps(d: Data, id: Id, revision: nat, at: Time)
    requires Inv(d) && FinalizeTask(d, id, revision, at).Ok?
    ensures Keeps(d, FinalizeTask(d, id, revision, at).value)
  {
    hide TasksOk, OperationsOk, WorkOk, ReservationsSound, ReservationsComplete, MessagesOk,
         AttemptsOk, LeasesUnique, GenerationsUnique, GenerationsComplete, ActivesOk, SettledOk,
         EvidenceOk, VerificationsOk, RevocationsOk, ProofsOk, FinalizeTask;
    FinalizedWork(d, id, revision, at);
    OperationsKeepTasks(d.tasks, FinalizeTask(d, id, revision, at).value.tasks, d.ops);
  }

  // ---- every decision -------------------------------------------------------

  lemma CreateTaskKeeps(d: Data, id: Id, at: Time)
    requires Inv(d) && CreateTask(d, id, at).Ok?
    ensures Keeps(d, CreateTask(d, id, at).value)
  {
    hide OperationsOk, ReservationsSound, ReservationsComplete, MessagesOk,
         AttemptsOk, LeasesUnique, GenerationsUnique, GenerationsComplete, ActivesOk, SettledOk,
         EvidenceOk, VerificationsOk, RevocationsOk, ProofsOk;
    OperationsKeepTasks(d.tasks, CreateTask(d, id, at).value.tasks, d.ops);
    TasksOfOperations(d);
  }

  lemma TasksOfOperations(d: Data)
    requires OperationsOk(d.tasks, d.ops)
    ensures forall k :: k in d.ops ==> d.ops[k].descriptor.taskId in d.tasks
  {
    hide ValidDescriptor;
    forall k | k in d.ops
      ensures d.ops[k].descriptor.taskId in d.tasks
    {
      assert OperationOk(d.tasks, k, d.ops[k]);
    }
  }

  lemma RegisterMessageKeeps(d: Data, now: Time, env: Envelope)
    requires Inv(d) && RegisterMessage(d, now, env).Ok?
    ensures Keeps(d, RegisterMessage(d, now, env).value.0)
  {
    hide TasksOk, OperationsOk, WorkOk, ReservationsSound, ReservationsComplete, MessagesOk,
         AttemptsOk, LeasesUnique, GenerationsUnique, GenerationsComplete, ActivesOk, SettledOk,
         EvidenceOk, VerificationsOk, RevocationsOk, ProofsOk,
         ValidEnvelope, OperationsEvolve, AttemptsEvolve, Remembers;
    MessageNamed(d, now, env);
    NewMessage(d, now, env);
    MessageRemembers(d, now, env);
  }

  lemma MessageNamed(d: Data, now: Time, env: Envelope)
    requires RegisterMessage(d, now, env).Ok?
    ensures env.messageId != ""
  {
    hide Acceptable;
  }

  lemma MessageRemembers(d: Data, now: Time, env: Envelope)
    requires RegisterMessage(d, now, env).Ok?
    ensures var d' := RegisterMessage(d, now, env).value.0;
            Remembers(d, d') && OperationsEvolve(d.ops, d'.ops) && AttemptsEvolve(d.attempts, d'.attempts)
  {
    hide Remembers, OperationsEvolve, AttemptsEvolve, ValidEnvelope;
    NewMessageRemembers(d, env.messageId, MessageOf(now, env));
    var d' := RegisterMessage(d, now, env).value.0;
    assert d' == d || (env.messageId !in d.messages && d' == d.(messages := d.messages[env.messageId := MessageOf(now, env)]));
    assert d'.ops == d.ops && d'.attempts == d.attempts;
  }

  lemma NewMessageRemembers(d: Data, id: Id, m: Message)
    ensures Remembers(d, d) && OperationsEvolve(d.ops, d.ops) && AttemptsEvolve(d.attempts, d.attempts)
    ensures id !in d.messages ==> Remembers(d, d.(messages := d.messages[id := m]))
  {
  }

  lemma NewMessage(d: Data, now: Time, env: Envelope)
    requires MessagesOk(d.messages) && env.messageId != ""
    ensures MessagesOk(d.messages[env.messageId := MessageOf(now, env)])
  {
    assert MessageOk(env.messageId, MessageOf(now, env));
  }

  /** Any decision that succeeds keeps the invariant, the identity of every
      operation and attempt, and never lowers a generation or a revision. */
  lemma DecisionKeeps(d: Data, now: Time, c: Decision)
    requires Inv(d) && Decide(d, now, c).Ok?
    ensures Keeps(d, Decide(d, now, c).value)
  {
    hide Inv, RegisterMessage, CreateTask, CreateOperation, MarkReady, StartAttempt, BeginVerification,
         MarkUnknownOutcome, Apply, RegisterEvidence, RecordWorkerReport, InvalidateAttempt, CheckActive, FinalizeTask;
    match c
    case DoRegisterMessage(env) => RegisterMessageKeeps(d, now, env);
    case DoCreateTask(task, at) => CreateTaskKeeps(d, task, at);
    case DoCreateOperation(desc, at) => CreateOperationKeeps(d, desc, at);
    case DoMarkReady(id, rev, at) => MarkReadyKeeps(d, id, rev, at);
    case DoStartAttempt(id, rev, attempt, lease, owner, retryOf, at) =>
      StartAttemptKeeps(d, id, rev, attempt, lease, owner, retryOf, at);
    case DoBeginVerification(id, rev, at) => BeginVerificationKeeps(d, id, rev, at);
    case DoMarkUnknownOutcome(id, rev, at) => MarkUnknownOutcomeKeeps(d, id, rev, at);
    case DoMarkNotStarted(id, rev, v, at) => ApplyKeeps(d, id, rev, v, at, true);
    case DoApplyVerification(id, rev, v, at) => ApplyKeeps(d, id, rev, v, at, false);
    case DoRegisterEvidence(record) => RegisterEvidenceKeeps(d, record);
    case DoRecordWorkerReport(record, lease, generation, expires) =>
      RecordWorkerReportKeeps(d, now, record, lease, generation, expires);
    case DoInvalidateAttempt(id, rev, attempt, reason, record, at) =>
      InvalidateAttemptKeeps(d, id, rev, attempt, reason, record, at);
    case DoCheckActive(claim) =>
    case DoFinalizeTask(task, rev, at) => FinalizeTaskKeeps(d, task, rev, at);
  }

  lemma {:induction false} DecisionsKeep(d: Data, now: Time, cs: seq<Decision>)
    requires Inv(d) && DecideAll(d, now, cs).Ok?
    ensures Keeps(d, DecideAll(d, now, cs).value)
    decreases |cs|
  {
    hide Inv, Decide, Keeps;
    if cs != [] {
      var d1 := Decide(d, now, cs[0]).value;
      DecisionKeeps(d, now, cs[0]);
      KeepsInv(d, d1);
      DecisionsKeep(d1, now, cs[1..]);
      KeepsTransitive(d, d1, DecideAll(d1, now, cs[1..]).value);
    } else {
      KeepsReflexive(d);
    }
  }
}
