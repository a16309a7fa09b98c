/** What the class of a recovered operation tells its reader: which decisions are
    still open to it and what its outcome rests on. */
module RecoveryClasses {
  import opened Basics
  import opened Records
  import opened Storage
  import opened Decisions
  import opened Invariant
  import opened Guarantees
  import opened Exactness
  import opened Recovery
  import Machine

  ghost function ClassOf(d: Data, id: Id): RecoveryClass
    requires Inv(d) && id in d.ops
  {
    InspectSucceeds(d, id);
    Inspect(d, d.ops[id]).value.class_
  }

  lemma ClassIsOfState(d: Data, id: Id)
    requires Inv(d) && id in d.ops
    ensures ClassOf(d, id) == Classify(d.ops[id].state)
  {
    hide Inv, Inspect;
    InspectSucceeds(d, id);
  }

  /** While its revision can still grow, the class of an operation is told by the
      decisions that are open to it: pending may become ready; ready may start; one
      to be evaluated may lose certainty; an unknown one may only be verified. */
  lemma ClassSaysWhatIsOpen(d: Data, id: Id, attempt: Id, at: Time)
    requires Inv(d) && id in d.ops && d.ops[id].revision < MAX_INT64 && attempt != "" && at != ZERO_TIME
    ensures var rev := d.ops[id].revision; var class_ := ClassOf(d, id);
            && (class_ == Pending <==> MarkReady(d, id, rev, at).Ok?)
            && (class_ == IsReady <==> Machine.StartAttempt(d.ops[id], rev, attempt, at).Ok?)
            && (class_ == EvaluateExecution <==> MarkUnknownOutcome(d, id, rev, at).Ok?)
            && (class_ == Unknown <==> BeginVerification(d, id, rev, at).Ok? && !MarkUnknownOutcome(d, id, rev, at).Ok?)
            && class_ != IsCancelled
  {
    hide Inv, ClassOf, MarkReady, MarkUnknownOutcome, BeginVerification;
    var rev := d.ops[id].revision;
    ClassIsOfState(d, id);
    TargetStored(d, id);
    ReadyExactly(d, id, rev, at);
    UnknownExactly(d, id, rev, at);
    VerificationBeginsExactly(d, id, rev, at);
    GenerationNeverExhausted(d, id, rev, attempt, at);
  }

  /** A pending operation has no attempt yet; one to be evaluated or unknown has the
      attempt that owns it in flight; a completed one and a failed one have a stored
      proof of just that verdict, and no decision moves them any more. */
  lemma ClassSaysWhatIsProven(d: Data, id: Id)
    requires Inv(d) && id in d.ops
    ensures ClassOf(d, id) == Pending ==> AttemptsOf(d, id) == {}
    ensures ClassOf(d, id) in {EvaluateExecution, Unknown} <==> d.ops[id].active in d.attempts && InFlight(d.ops[id].state)
    ensures ClassOf(d, id) == Unknown ==> !exists c: Claim :: c.operationId == id && HasAuthority(d, c)
    ensures ClassOf(d, id) == VerifiedCompletion ==> OutcomeProven(d, id, Satisfied)
    ensures ClassOf(d, id) == KnownFailure ==> OutcomeProven(d, id, NotSatisfiedTerminal)
    ensures ClassOf(d, id) in {VerifiedCompletion, KnownFailure} ==> Machine.Allowed(d.ops[id].state) == {}
  {
    hide Inv, ClassOf, OutcomeProven, HasAuthority;
    ClassIsOfState(d, id);
    TargetStored(d, id);
    OutcomesAreProven(d, id);
    PlannedIsUntouched(d, id);
    if d.ops[id].state == UnknownOutcome {
      UnknownHasNoOwner(d, id);
    }
  }

  lemma PlannedIsUntouched(d: Data, id: Id)
    requires Inv(d) && id in d.ops
    ensures d.ops[id].state == Planned ==> d.ops[id].generation == 0
    ensures forall a :: a in AttemptsOf(d, id) ==> d.ops[id].generation > 0
  {
    hide TasksOk, WorkOk, MessagesOk, LeasesUnique, GenerationsUnique, GenerationsComplete, ActivesOk, SettledOk, RecordInv,
         ReservationsSound, ReservationsComplete, ValidDescriptor;
    assert OperationOk(d.tasks, id, d.ops[id]);
    forall a | a in AttemptsOf(d, id)
      ensures d.ops[id].generation > 0
    {
      assert AttemptOk(d.ops, d.attempts, a, d.attempts[a]);
    }
  }

  lemma UnknownHasNoOwner(d: Data, id: Id)
    requires Inv(d) && id in d.ops && d.ops[id].state == UnknownOutcome
    ensures forall c: Claim :: c.operationId == id ==> !HasAuthority(d, c)
  {
    hide TasksOk, WorkOk, MessagesOk, LeasesUnique, GenerationsUnique, GenerationsComplete, SettledOk, RecordInv,
         ReservationsSound, ReservationsComplete, ValidDescriptor;
    assert ActiveOk(d.attempts, id, d.ops[id]);
  }
}
