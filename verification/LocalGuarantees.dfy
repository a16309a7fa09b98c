/** The guarantees of the local check, over every run of calls, crashes and lost
    acknowledgements: at most one command per task, success only with its receipt,
    and recovery that always finishes the same way. */
module LocalGuarantees {
  import opened Basics
  import opened Records
  import opened Storage
  import opened Decisions
  import opened Invariant
  import opened Preservation
  import opened LocalCheck
  import opened LocalStore
  import opened CrashSafety
  import opened Driving
  import Guarantees
  import History
  import Runner

  // ---- every run ------------------------------------------------------------

  lemma StepKeeps(sum: Receipt -> string, w: World, step: LocalCheck.Step)
    requires WorldInv(sum, w) && LocalCheck.Enabled(sum, w, step)
    ensures WorldInv(sum, LocalCheck.Act(sum, w, step))
  {
    hide WorldInv, Write, Drives, Runner.Act, Runner.Enabled, Judges, Saved, ValidId, ValidDigest, DigestOf, Loads, Reads,
         Compares, Adopts, Closes, LooksUp, DescriptorOf, IntentRecord, Receipted, RequestFor;
    match step
    case Check(c, id, config, workspace) => BeginStep(sum, w, c, LocalCheck.Call(id, config, workspace, Fresh));
    case LookUp(c) => LookUpStep(sum, w, c);
    case Create(c, at, ack) => CreateStep(sum, w, c, at, ack);
    case Describe(c, at, ack) => DescribeStep(sum, w, c, at, ack);
    case Intend(c, at, ack) => IntendStep(sum, w, c, at, ack);
    case Arm(c, at, ack) => ArmStep(sum, w, c, at, ack);
    case Execute(c, issuedAt, deadline) => ExecuteStep(sum, w, c, issuedAt, deadline);
    case Drive(c, s) => DriveStep(sum, w, c, s);
    case Launch(id) => LaunchStep(sum, w, id);
    case Exit(id, exit, bytes, hash, same, finished) => ExitStep(sum, w, id, exit, bytes, hash, same, finished);
    case Adopt(c) => AdoptStep(sum, w, c);
    case Save(c, outcome) => SaveStep(sum, w, c, outcome);
    case Plant(id, file) => FileAppears(sum, w, id, file, w.saved);
    case Recover(c, id) => BeginStep(sum, w, c, LocalCheck.Call(id, "", "", Loading));
    case Load(c, now) => LoadStep(sum, w, c, now);
    case Read(c) => ReadStep(sum, w, c);
    case Compare(c) => CompareStep(sum, w, c);
    case Judge(c, at, now, ack) => JudgeStep(sum, w, c, at, now, ack);
    case Close(c) => CloseStep(sum, w, c);
    case Finalize(c, at, ack) => FinalizeStep(sum, w, c, at, ack);
  }

  lemma {:induction false} RunKeeps(sum: Receipt -> string, w: World, steps: seq<LocalCheck.Step>)
    requires WorldInv(sum, w) && Runnable(sum, w, steps)
    ensures WorldInv(sum, LocalCheck.Run(sum, w, steps))
    decreases |steps|
  {
    hide WorldInv, LocalCheck.Act, LocalCheck.Enabled;
    if steps != [] {
      StepKeeps(sum, w, steps[0]);
      RunKeeps(sum, LocalCheck.Act(sum, w, steps[0]), steps[1..]);
    }
  }

  lemma StartInv(sum: Receipt -> string)
    ensures WorldInv(sum, START)
  {
    hide Inv;
    EmptyInv();
  }

  /** A reachable world. */
  ghost predicate Reached(sum: Receipt -> string, steps: seq<LocalCheck.Step>, w: World) {
    Runnable(sum, START, steps) && w == LocalCheck.Run(sum, START, steps)
  }

  lemma ReachedInv(sum: Receipt -> string, steps: seq<LocalCheck.Step>, w: World)
    requires Reached(sum, steps, w)
    ensures WorldInv(sum, w)
  {
    hide WorldInv, Runnable, LocalCheck.Run;
    StartInv(sum);
    RunKeeps(sum, START, steps);
  }

  // ---- at most once ---------------------------------------------------------

  /** While nothing is collected, the command of a task is launched at most once,
      and only for an attempt that was committed and started by the runner. */
  lemma CommandRunsAtMostOnce(sum: Receipt -> string, steps: seq<LocalCheck.Step>, w: World)
    requires Reached(sum, steps, w)
    ensures forall i, j :: 0 <= i < j < |w.launched| ==> w.launched[i] != w.launched[j]
    ensures forall id :: id in w.launched ==> Att(id) in w.sys.started && Att(id) in w.sys.d.attempts
  {
    hide WorldInv, Reached, Sound, IntentStored, ValidDigest;
    ReachedInv(sum, steps, w);
    forall id | id in w.workers
      ensures Att(id) in w.sys.started && LaunchesOk(w.launched, w.workers)
    {
      WorkerFacts(sum, w, id);
    }
    StartedStored(sum, w);
    LaunchFacts(sum, w);
  }

  lemma LaunchFacts(sum: Receipt -> string, w: World)
    requires WorldInv(sum, w)
    ensures LaunchesOk(w.launched, w.workers)
  {
    hide Shape, Runner.SystemInv, Linked, Configured, LaunchesOk, WorkersOk, VerdictsBased, ReadsOk, RunnerFinished, SavesFinished,
         SavedFinished;
  }

  lemma StartedStored(sum: Receipt -> string, w: World)
    requires WorldInv(sum, w)
    ensures forall a :: a in w.sys.started ==> a in w.sys.d.attempts
  {
    hide WorldInv, Shape, Inv, Runner.CallsInv;
    WorldShape(sum, w);
  }

  // ---- what a verdict rests on ----------------------------------------------

  /** SHA-256 over the canonical encoding of receipts, taken as injective. */
  ghost predicate Injective(sum: Receipt -> string) {
    forall a, b :: sum(a) == sum(b) ==> a == b
  }

  lemma SameDigest(sum: Receipt -> string, a: Receipt, b: Receipt)
    requires Injective(sum) && DigestOf(sum, a) == DigestOf(sum, b)
    ensures a == b
  {
    assert DigestOf(sum, a)[7..] == sum(a) && DigestOf(sum, b)[7..] == sum(b);
  }

  /** The verification behind a closed operation, and the receipt behind that. */
  lemma OutcomeBased(sum: Receipt -> string, workers: map<Id, Worker>, d: Data, files: map<Id, File>, id: Id)
    requires Shape(sum, workers, d) && VerdictsBased(sum, d, files) && Concluded(d.ops, id)
    ensures id in files && files[id].Whole? && Sound(id, files[id].receipt)
    ensures d.ops[Op(id)].state == if Clean(files[id].receipt) then Succeeded else Failed
    ensures HasReport(d.evidence, id, files[id].receipt, DigestOf(sum, files[id].receipt))
    ensures Matched(d.evidence, id, DigestOf(sum, files[id].receipt))
  {
    hide Inv, Local, VerdictsClosed, VerdictsBased, HasReport, Matched, Sound, DigestOf;
    Guarantees.OutcomesAreProven(d, Op(id));
    var verdict := if d.ops[Op(id)].state == Succeeded then Satisfied else NotSatisfiedTerminal;
    var a, v :| a in AttemptsOf(d, Op(id)) && v in d.verifications
                && Guarantees.ProvesOutcome(d, Op(id), d.attempts[a], d.verifications[v], verdict);
    VerificationBased(sum, d, files, id, v);
  }

  lemma VerificationBased(sum: Receipt -> string, d: Data, files: map<Id, File>, id: Id, v: Id)
    requires VerdictsBased(sum, d, files) && v in d.verifications && d.verifications[v].operationId == Op(id)
    ensures Based(sum, d.evidence, files, id, d.verifications[v])
  {
    hide Based;
    BasedOn(sum, d.evidence, files, v[13..], d.verifications[v], id);
  }

  lemma BasedOn(sum: Receipt -> string, evidence: map<Id, Evidence>, files: map<Id, File>, t: Id, v: Verification, id: Id)
    requires Based(sum, evidence, files, t, v) && v.operationId == Op(id)
    ensures t == id
  {
    OpsDiffer(t, id);
  }

  /** A worker report with the digest of a receipt was made for the receipt that the
      command produced. */
  lemma ReportIsOwn(sum: Receipt -> string, workers: map<Id, Worker>, d: Data, id: Id, r: Receipt)
    requires Shape(sum, workers, d) && HasReport(d.evidence, id, r, DigestOf(sum, r))
    ensures Exits(workers, id) && DigestOf(sum, workers[id].command.receipt) == DigestOf(sum, r)
  {
    hide TasksOk, OperationsOk, WorkOk, GraphInv, ReservationsSound, ReservationsComplete, MessagesOk, VerificationsOk,
         RevocationsOk, ProofsOk, VerdictsClosed, LocalAttempts, LocalTasks, Staged, ValidEvidence;
    var k :| k in d.evidence && d.evidence[k].operationId == Op(id) && IsReport(d.evidence[k], r, DigestOf(sum, r));
    assert EvidenceRecordOk(d.ops, d.attempts, k, d.evidence[k]);
    assert LocalOp(Op(id), d.ops[Op(id)]);
    OpsDiffer(id, d.ops[Op(id)].descriptor.taskId);
    assert Honest(sum, workers, d.evidence[k]);
    assert DigestOf(sum, r)[0] == 's';
  }

  /** A task's operation has a verdict only when its command ran and exited, its own
      receipt is on file, and the verdict is what that receipt says. */
  lemma VerdictMeansOwnReceipt(sum: Receipt -> string, steps: seq<LocalCheck.Step>, w: World, id: Id)
    requires Injective(sum) && Reached(sum, steps, w) && Concluded(w.sys.d.ops, id)
    ensures id in w.launched && Exits(w.workers, id) && id in w.files
    ensures w.files[id] == Whole(w.workers[id].command.receipt)
    ensures w.sys.d.ops[Op(id)].state == Succeeded <==>
            w.workers[id].command.receipt.exit == 0 && w.workers[id].command.receipt.inputsMatch
  {
    hide WorldInv, Reached, Shape, VerdictsBased, Sound, HasReport, DigestOf, Matched, Injective;
    ReachedInv(sum, steps, w);
    WorldShape(sum, w);
    BasedFacts(sum, w);
    OutcomeBased(sum, w.workers, w.sys.d, w.files, id);
    ReportIsOwn(sum, w.workers, w.sys.d, id, w.files[id].receipt);
    SameDigest(sum, w.files[id].receipt, w.workers[id].command.receipt);
    LaunchFacts(sum, w);
  }

  lemma BasedFacts(sum: Receipt -> string, w: World)
    requires WorldInv(sum, w)
    ensures VerdictsBased(sum, w.sys.d, w.files)
  {
    hide Shape, Runner.SystemInv, Linked, Configured, LaunchesOk, WorkersOk, VerdictsBased, ReadsOk, RunnerFinished, SavesFinished,
         SavedFinished;
  }

  // ---- recovery -------------------------------------------------------------

  /** A store in which the check of a task was reported and its receipt saved. */
  ghost predicate Recoverable(sum: Receipt -> string, workers: map<Id, Worker>, d: Data, files: map<Id, File>, id: Id, r: Receipt) {
    && Shape(sum, workers, d) && VerdictsBased(sum, d, files) && Awaiting(d.ops, id) && Att(id) in d.attempts
    && OnFile(files, id, r) && HasIntent(d.evidence, id, r) && HasReport(d.evidence, id, r, DigestOf(sum, r))
  }

  lemma SavedRecoverable(sum: Receipt -> string, w: World, id: Id)
    requires WorldInv(sum, w) && id in w.saved
    ensures id in w.files && w.files[id].Whole?
    ensures Recoverable(sum, w.workers, w.sys.d, w.files, id, w.files[id].receipt)
  {
    hide WorldInv, Shape, Sound, VerdictsBased, HasReport, Awaiting, DigestOf, ValidDigest, Runner.SystemInv;
    WorldShape(sum, w);
    BasedFacts(sum, w);
    SavedFacts(sum, w, id);
    ExitedSound(sum, w, id);
    assert IsIntent(w.sys.d.evidence[Intent(id)], id, w.files[id].receipt);
  }

  lemma SavedFacts(sum: Receipt -> string, w: World, id: Id)
    requires WorldInv(sum, w) && id in w.saved
    ensures Finished(sum, w.sys, w.workers, id) && id in w.files && w.files[id] == Whole(w.workers[id].command.receipt)
  {
    hide Shape, Runner.SystemInv, Linked, Configured, LaunchesOk, WorkersOk, VerdictsBased, ReadsOk, RunnerFinished, SavesFinished,
         Settled, HasReport;
  }

  lemma VerdictTexts(id: Id)
    ensures !Blank("verifier") && !Blank("verification.completed") && !Blank(TargetRef(id)) && !Blank(Judgement(id))
    ensures !Blank(VERIFY_POLICY)
  {
    hide Blank;
    NotBlank("verifier");
    NotBlank("verification.completed");
    NotBlank(TargetRef(id));
    NotBlank(Judgement(id));
    NotBlank(VERIFY_POLICY);
  }

  lemma EnvelopeValid(id: Id, r: Receipt, digest: string)
    requires Sound(id, r) && id != ""
    ensures ValidEnvelope(VerdictEnvelope(id, r, digest))
  {
    hide Blank, ValidDigest;
    VerdictTexts(id);
  }

  /** The operation that waits for its verdict, its attempt and its task. */
  lemma WaitingFacts(sum: Receipt -> string, workers: map<Id, Worker>, d: Data, id: Id)
    requires Inv(d) && Local(sum, workers, d) && Op(id) in d.ops && d.ops[Op(id)].state == Verifying
    ensures var op := d.ops[Op(id)];
            && Described(op.descriptor, id) && op.revision == 4 && op.active == Att(id)
            && Att(id) in d.attempts && d.attempts[Att(id)].operationId == Op(id) && d.attempts[Att(id)].owner == WORKER
            && d.attempts[Att(id)].leaseId == Lease(id) && d.attempts[Att(id)].generation == 1
            && d.attempts[Att(id)].id == Att(id)
            && id in d.tasks && !Terminal(d.tasks[id].state) && id != "" && d.tasks[id].id == id
  {
    hide TasksOk, OperationsOk, WorkOk, GraphInv, RecordInv, ReservationsSound, ReservationsComplete, MessagesOk,
         LocalTasks, HonestEvidence, ValidDescriptor;
    OpDescribed(d.ops, id);
    assert LocalOp(Op(id), d.ops[Op(id)]);
    InFlightActive(d, Op(id));
    var a := d.ops[Op(id)].active;
    ActiveStored(d, Op(id));
    assert LocalAttempt(d.ops, a, d.attempts[a]);
    OpenTask(d, Op(id));
  }

  lemma InFlightActive(d: Data, k: Id)
    requires Inv(d) && k in d.ops && InFlight(d.ops[k].state)
    ensures d.ops[k].active != ""
  {
    hide TasksOk, WorkOk, GraphInv, RecordInv, ReservationsSound, ReservationsComplete, MessagesOk, ValidDescriptor;
    assert OperationOk(d.tasks, k, d.ops[k]);
  }

  lemma OpenTask(d: Data, k: Id)
    requires Inv(d) && k in d.ops
    ensures d.ops[k].descriptor.taskId in d.tasks && d.ops[k].descriptor.taskId != ""
    ensures d.tasks[d.ops[k].descriptor.taskId].id == d.ops[k].descriptor.taskId
    ensures Terminal(d.tasks[d.ops[k].descriptor.taskId].state) ==> d.ops[k].state in {Succeeded, Failed}
    ensures !Terminal(d.tasks[d.ops[k].descriptor.taskId].state) ==> d.tasks[d.ops[k].descriptor.taskId].state == TaskPlanned
  {
    hide GraphInv, RecordInv, ReservationsSound, ReservationsComplete, MessagesOk, ValidDescriptor;
    assert OperationOk(d.tasks, k, d.ops[k]);
  }

  /** No record of a verdict exists while the operation waits for one. */
  lemma NoVerdictYet(d: Data, id: Id)
    requires VerdictsClosed(d) && Op(id) in d.ops && d.ops[Op(id)].state == Verifying
    ensures Verified(id) !in d.messages && Observed(id) !in d.evidence && Judgement(id) !in d.verifications
  {
    assert Verified(id)[9..] == id && Observed(id)[9..] == id && Judgement(id)[13..] == id;
    assert HasPrefix(Verified(id), "verified_") && HasPrefix(Observed(id), "observed_");
    assert !Concluded(d.ops, id);
  }

  lemma VerdictMessage(sum: Receipt -> string, workers: map<Id, Worker>, d: Data, now: Time, id: Id, r: Receipt, digest: string)
    requires Shape(sum, workers, d) && Op(id) in d.ops && d.ops[Op(id)].state == Verifying && Sound(id, r)
    ensures var env := VerdictEnvelope(id, r, digest);
            && (RegisterMessage(d, now, env).Ok? <==> Acceptable(d, now, env))
            && (RegisterMessage(d, now, env).Ok? ==> !RegisterMessage(d, now, env).value.1)
  {
    hide Inv, Local, ValidEnvelope, Acceptable, VerdictsClosed, Described;
    WaitingFacts(sum, workers, d, id);
    NoVerdictYet(d, id);
    EnvelopeValid(id, r, digest);
    assert d.ops[Op(id)].descriptor.taskId == id by {
      TaskOfDescribed(d.ops[Op(id)].descriptor, id);
    }
  }

  lemma TaskOfDescribed(desc: Descriptor, id: Id)
    requires Described(desc, id)
    ensures desc.taskId == id && desc.id == Op(id) && desc.verificationPolicy == VERIFY_POLICY && desc.targetRef == TargetRef(id)
  {
  }

  lemma VerdictObservation(sum: Receipt -> string, workers: map<Id, Worker>, d: Data, id: Id, r: Receipt, digest: string, at: Time)
    requires Inv(d) && Local(sum, workers, d) && Op(id) in d.ops && d.ops[Op(id)].state == Verifying && Sound(id, r)
    requires Observed(id) !in d.evidence
    ensures RegisterEvidence(d, ObservedRecord(id, r, digest, at)).Ok? <==> at != ZERO_TIME
    ensures at != ZERO_TIME ==>
              RegisterEvidence(d, ObservedRecord(id, r, digest, at)).value ==
              d.(evidence := d.evidence[Observed(id) := ObservedRecord(id, r, digest, at)])
  {
    hide Inv, Local, Described, ValidDigest, Blank;
    WaitingFacts(sum, workers, d, id);
    TaskOfDescribed(d.ops[Op(id)].descriptor, id);
    VerdictTexts(id);
  }

  /** The verification of a waiting operation is accepted once its evidence is. */
  lemma VerdictApplies(d: Data, id: Id, r: Receipt, at: Time)
    requires Op(id) in d.ops && d.ops[Op(id)].state == Verifying && d.ops[Op(id)].revision == 4 && d.ops[Op(id)].active == Att(id)
    requires Described(d.ops[Op(id)].descriptor, id) && r.attempt == Att(id) && at != ZERO_TIME
    requires Att(id) in d.attempts && d.attempts[Att(id)].id == Att(id)
    requires Observed(id) in d.evidence && About(d.evidence[Observed(id)], Op(id), Att(id))
    requires Judgement(id) !in d.verifications
    ensures ApplyVerification(d, Op(id), 4, VerificationOf(id, r, at), at).Ok?
  {
    hide Blank, Released, SummaryOf;
    VerdictTexts(id);
    var v := VerificationOf(id, r, at);
    assert v.evidenceIds == [Observed(id)] && v.evidenceIds[1..] == [];
    assert CheckReferences(d, v, v.evidenceIds, {}).Ok?;
    assert VerdictOf(r) in {Satisfied, NotSatisfiedTerminal};
  }

  lemma VerdictDecided(sum: Receipt -> string, workers: map<Id, Worker>, d: Data, now: Time, id: Id, r: Receipt, digest: string,
                       at: Time)
    requires Inv(d) && Local(sum, workers, d) && Op(id) in d.ops && d.ops[Op(id)].state == Verifying && Sound(id, r)
    requires Observed(id) !in d.evidence && Judgement(id) !in d.verifications
    ensures DecideAll(d, now, VerdictDecisions(id, r, digest, 4, at)).Ok? <==> at != ZERO_TIME
  {
    hide Inv, Local, Described, Apply, RegisterEvidence, ValidDigest, SummaryOf, VerdictOf;
    WaitingFacts(sum, workers, d, id);
    VerdictObservation(sum, workers, d, id, r, digest, at);
    var cs := VerdictDecisions(id, r, digest, 4, at);
    if at != ZERO_TIME {
      var d1 := RegisterEvidence(d, ObservedRecord(id, r, digest, at)).value;
      VerdictApplies(d1, id, r, at);
      assert Decide(d, now, cs[0]) == Ok(d1);
      assert DecideAll(d, now, cs) == DecideAll(d1, now, cs[1..]);
      assert DecideAll(d1, now, cs[1..]) == DecideAll(Decide(d1, now, cs[1]).value, now, cs[1..][1..]);
    }
  }

  lemma MessageShape(sum: Receipt -> string, workers: map<Id, Worker>, d: Data, now: Time, env: Envelope)
    requires Shape(sum, workers, d) && RegisterMessage(d, now, env).Ok?
    ensures Inv(RegisterMessage(d, now, env).value.0) && Local(sum, workers, RegisterMessage(d, now, env).value.0)
    ensures RegisterMessage(d, now, env).value.0 == d.(messages := RegisterMessage(d, now, env).value.0.messages)
  {
    hide Inv, Local, VerdictsClosed, RegisterMessage, Keeps, Adds;
    RegistersMessage(d, now, env);
    HonestStep(sum, workers, d, now, DoRegisterMessage(env));
    Runner.MessageMap(d, now, env);
  }

  /** The verdict is committed exactly when its clock reading is set and the receipt
      is still inside the replay window. */
  lemma JudgedExactly(sum: Receipt -> string, workers: map<Id, Worker>, d: Data, id: Id, r: Receipt, judge: Time, store: Time)
    requires Shape(sum, workers, d) && Op(id) in d.ops && d.ops[Op(id)].state == Verifying && Sound(id, r)
    ensures Judged(sum, d, id, r, 4, judge, store).Ok? <==>
            judge != ZERO_TIME && Acceptable(d, store, VerdictEnvelope(id, r, DigestOf(sum, r)))
  {
    hide Inv, Local, VerdictsClosed, Acceptable, RegisterMessage, DecideAll, VerdictEnvelope, VerdictDecisions, Sound, DigestOf;
    var digest := DigestOf(sum, r);
    var env := VerdictEnvelope(id, r, digest);
    VerdictMessage(sum, workers, d, store, id, r, digest);
    if RegisterMessage(d, store, env).Ok? {
      var d1 := RegisterMessage(d, store, env).value.0;
      MessageShape(sum, workers, d, store, env);
      NoVerdictYet(d, id);
      VerdictDecided(sum, workers, d1, store, id, r, digest, judge);
    }
  }

  // ---- closing the task -----------------------------------------------------

  function TaskVerdict(r: Receipt): TaskState {
    if Clean(r) then TaskCompleted else TaskFailed
  }

  function OperationVerdict(r: Receipt): OperationState {
    if Clean(r) then Succeeded else Failed
  }

  lemma OnlyOperation(sum: Receipt -> string, workers: map<Id, Worker>, d: Data, id: Id)
    requires Shape(sum, workers, d) && Op(id) in d.ops
    ensures forall k :: OfTask(d.ops, id, k) <==> k == Op(id)
  {
    hide Inv, VerdictsClosed, LocalAttempts, LocalTasks, HonestEvidence, Staged;
    OpDescribed(d.ops, id);
    forall k | OfTask(d.ops, id, k)
      ensures k == Op(id)
    {
      assert LocalOp(k, d.ops[k]);
    }
  }

  lemma TaskIsLocal(sum: Receipt -> string, workers: map<Id, Worker>, d: Data, id: Id)
    requires Shape(sum, workers, d) && id in d.tasks
    ensures LocalTask(d.ops, id, d.tasks[id])
  {
    hide Inv, VerdictsClosed, LocalOps, LocalAttempts, HonestEvidence, LocalTask;
  }

  lemma TaskStored(sum: Receipt -> string, workers: map<Id, Worker>, d: Data, id: Id)
    requires Shape(sum, workers, d) && Op(id) in d.ops
    ensures id in d.tasks && (!Terminal(d.tasks[id].state) ==> d.tasks[id].state == TaskPlanned)
    ensures d.tasks[id].state == TaskCompleted ==> d.ops[Op(id)].state == Succeeded
    ensures Terminal(d.tasks[id].state) ==> d.tasks[id].state in {TaskCompleted, TaskFailed}
  {
    hide GraphInv, RecordInv, ReservationsSound, ReservationsComplete, MessagesOk, ValidDescriptor, Local, VerdictsClosed;
    SeenDescribed(sum, workers, d, id);
    OpenTask(d, Op(id));
  }

  /** Closing the task of a concluded operation needs only a clock, changes only the
      task, and gives it the verdict of the operation. */
  lemma FinalizedExactly(sum: Receipt -> string, workers: map<Id, Worker>, d: Data, id: Id, at: Time)
    requires Shape(sum, workers, d) && Concluded(d.ops, id)
    ensures id in d.tasks
    ensures Finalized(d, id, at).Ok? <==> Terminal(d.tasks[id].state) || at != ZERO_TIME
    ensures Finalized(d, id, at).Ok? ==>
              var d' := Finalized(d, id, at).value;
              && id in d'.tasks && d' == d.(tasks := d'.tasks)
              && d'.tasks[id].state == (if d.ops[Op(id)].state == Succeeded then TaskCompleted else TaskFailed)
              && (Terminal(d.tasks[id].state) ==> d' == d)
  {
    hide Inv, Local, VerdictsClosed, FinalizeTask;
    OnlyOperation(sum, workers, d, id);
    TaskStored(sum, workers, d, id);
    TaskIsLocal(sum, workers, d, id);
    Guarantees.FinalizesExactly(d, id, d.tasks[id].revision, at);
    assert Op(id) in OperationsOf(d, id);
    if FinalizeTask(d, id, d.tasks[id].revision, at).Ok? {
      Guarantees.FinalizedVerdict(d, id, d.tasks[id].revision, at);
    }
  }

  // ---- recovery finishes ----------------------------------------------------

  /** The clock readings with which a recovery gets through. */
  predicate OnTime(sum: Receipt -> string, d: Data, id: Id, r: Receipt, k: Clock)
    requires Op(id) in d.ops && id in d.tasks
  {
    && r.finished <= k.load + SECOND
    && (d.ops[Op(id)].state == Verifying ==>
          k.judge != ZERO_TIME && Acceptable(d, k.store, VerdictEnvelope(id, r, DigestOf(sum, r))))
    && (Terminal(d.tasks[id].state) || k.close != ZERO_TIME)
  }

  /** The final state of a check, which depends on nothing but its receipt. */
  ghost predicate Final(sum: Receipt -> string, d: Data, files: map<Id, File>, id: Id, r: Receipt) {
    && Op(id) in d.ops && d.ops[Op(id)].state == OperationVerdict(r)
    && id in d.tasks && d.tasks[id].state == TaskVerdict(r)
    && forall now :: r.finished <= now + SECOND ==>
         Status(sum, d, files, id, now) == Ok(Report(TaskVerdict(r), OperationVerdict(r), Some(r)))
  }

  /** A state in which recovery is done: it is final, and recovering again leaves it
      as it is. */
  ghost predicate Finishes(sum: Receipt -> string, d: Data, files: map<Id, File>, id: Id, r: Receipt) {
    && Final(sum, d, files, id, r)
    && forall k: Clock :: r.finished <= k.load + SECOND ==> Recovered(sum, d, files, id, k) == Ok(d)
  }

  lemma WaitingProven(sum: Receipt -> string, workers: map<Id, Worker>, d: Data, files: map<Id, File>, id: Id, r: Receipt)
    requires Recoverable(sum, workers, d, files, id, r) && d.ops[Op(id)].state == Verifying
    ensures Awaits(d.ops[Op(id)], id, r) && LocalCheck.Proven(sum, d, id, r) && d.ops[Op(id)].revision == 4
  {
    hide Inv, Local, VerdictsClosed, VerdictsBased, HasIntent, HasReport, DigestOf, ValidDigest, Described;
    WaitingFacts(sum, workers, d, id);
    TaskOfDescribed(d.ops[Op(id)].descriptor, id);
  }

  /** Once the operation has its verdict, closing the task reaches the final state,
      and recovering again changes nothing. */
  lemma ConcludedFinal(sum: Receipt -> string, workers: map<Id, Worker>, d: Data, files: map<Id, File>, id: Id, r: Receipt, at: Time)
    requires Shape(sum, workers, d) && VerdictsBased(sum, d, files) && Concluded(d.ops, id) && OnFile(files, id, r)
    requires Finalized(d, id, at).Ok?
    ensures Finishes(sum, Finalized(d, id, at).value, files, id, r)
  {
    hide Shape, VerdictsBased, Finalized, Sound, DigestOf, Matched;
    OutcomeBased(sum, workers, d, files, id);
    FinalizedExactly(sum, workers, d, id, at);
    var d' := Finalized(d, id, at).value;
    TerminalStays(d', id);
  }

  lemma TerminalStays(d: Data, id: Id)
    requires id in d.tasks && Terminal(d.tasks[id].state)
    ensures forall at :: Finalized(d, id, at) == Ok(d)
  {
    hide FinalizeTask;
  }

  lemma JudgedConcludes(sum: Receipt -> string, workers: map<Id, Worker>, d: Data, files: map<Id, File>, id: Id, r: Receipt,
                        judge: Time, store: Time)
    requires Recoverable(sum, workers, d, files, id, r) && Judged(sum, d, id, r, 4, judge, store).Ok?
    ensures var d' := Judged(sum, d, id, r, 4, judge, store).value;
            Shape(sum, workers, d') && VerdictsBased(sum, d', files) && Concluded(d'.ops, id) && d'.tasks == d.tasks
  {
    hide Shape, VerdictsBased, HasIntent, HasReport, Sound, DigestOf, Concluded, Keeps, VerdictEnvelope, VerdictDecisions,
         History.ProcessMessage, Matched, VerificationOf;
    VerdictCommit(sum, workers, d, store, id, r, DigestOf(sum, r), 4, judge);
    var d' := Judged(sum, d, id, r, 4, judge, store).value;
    EvidenceKept(d, d');
    VerdictIsBased(sum, d, d', files, id, r, judge);
  }

  /** A recovery that starts from a reported check with its receipt saved gets through
      exactly when its clock allows; it then reaches the final state of the receipt,
      and every further recovery leaves the store as it is. */
  lemma RecoveredExactly(sum: Receipt -> string, workers: map<Id, Worker>, d: Data, files: map<Id, File>, id: Id, r: Receipt, k: Clock)
    requires Recoverable(sum, workers, d, files, id, r)
    ensures Op(id) in d.ops && id in d.tasks
    ensures Recovered(sum, d, files, id, k).Ok? <==> OnTime(sum, d, id, r, k)
    ensures Recovered(sum, d, files, id, k).Ok? ==>
              Finishes(sum, Recovered(sum, d, files, id, k).value, files, id, r)
  {
    hide Shape, VerdictsBased, Recovered, OnTime, Finishes, HasIntent, HasReport, Sound;
    TaskStored(sum, workers, d, id);
    if d.ops[Op(id)].state == Verifying {
      RecoveredWaiting(sum, workers, d, files, id, r, k);
    } else {
      RecoveredConcluded(sum, workers, d, files, id, r, k);
    }
  }

  lemma RecoveredConcluded(sum: Receipt -> string, workers: map<Id, Worker>, d: Data, files: map<Id, File>, id: Id, r: Receipt,
                           k: Clock)
    requires Recoverable(sum, workers, d, files, id, r) && Concluded(d.ops, id) && id in d.tasks
    ensures Recovered(sum, d, files, id, k).Ok? <==> OnTime(sum, d, id, r, k)
    ensures Recovered(sum, d, files, id, k).Ok? ==> Finishes(sum, Recovered(sum, d, files, id, k).value, files, id, r)
  {
    hide Shape, VerdictsBased, HasIntent, HasReport, Sound, DigestOf, Finalized, Judged, Finishes, Acceptable, VerdictEnvelope,
         Awaits, LocalCheck.Proven;
    FinalizedExactly(sum, workers, d, id, k.close);
    if Finalized(d, id, k.close).Ok? {
      ConcludedFinal(sum, workers, d, files, id, r, k.close);
    }
  }

  /** Recovering a waiting operation is judging it and closing its task. */
  lemma WaitingSteps(sum: Receipt -> string, workers: map<Id, Worker>, d: Data, files: map<Id, File>, id: Id, r: Receipt, k: Clock)
    requires Recoverable(sum, workers, d, files, id, r) && d.ops[Op(id)].state == Verifying
    ensures Recovered(sum, d, files, id, k).Ok? <==>
            && r.finished <= k.load + SECOND && Judged(sum, d, id, r, 4, k.judge, k.store).Ok?
            && Finalized(Judged(sum, d, id, r, 4, k.judge, k.store).value, id, k.close).Ok?
    ensures Recovered(sum, d, files, id, k).Ok? ==>
              Recovered(sum, d, files, id, k) == Finalized(Judged(sum, d, id, r, 4, k.judge, k.store).value, id, k.close)
  {
    hide Shape, VerdictsBased, HasIntent, HasReport, Sound, DigestOf, Finalized, Judged, Awaits, LocalCheck.Proven;
    WaitingProven(sum, workers, d, files, id, r);
  }

  lemma RecoveredWaiting(sum: Receipt -> string, workers: map<Id, Worker>, d: Data, files: map<Id, File>, id: Id, r: Receipt,
                         k: Clock)
    requires Recoverable(sum, workers, d, files, id, r) && d.ops[Op(id)].state == Verifying && id in d.tasks
    ensures Recovered(sum, d, files, id, k).Ok? <==> OnTime(sum, d, id, r, k)
    ensures Recovered(sum, d, files, id, k).Ok? ==> Finishes(sum, Recovered(sum, d, files, id, k).value, files, id, r)
  {
    hide Shape, VerdictsBased, HasIntent, HasReport, Sound, DigestOf, Finalized, Judged, Finishes, Acceptable, VerdictEnvelope,
         Recovered;
    WaitingSteps(sum, workers, d, files, id, r, k);
    JudgedExactly(sum, workers, d, id, r, k.judge, k.store);
    StillOpen(sum, workers, d, id);
    if Judged(sum, d, id, r, 4, k.judge, k.store).Ok? {
      var d1 := Judged(sum, d, id, r, 4, k.judge, k.store).value;
      JudgedConcludes(sum, workers, d, files, id, r, k.judge, k.store);
      FinalizedExactly(sum, workers, d1, id, k.close);
      if Finalized(d1, id, k.close).Ok? {
        ConcludedFinal(sum, workers, d1, files, id, r, k.close);
      }
    }
  }

  /** The verdict of a waiting operation does not touch its open task. */
  lemma StillOpen(sum: Receipt -> string, workers: map<Id, Worker>, d: Data, id: Id)
    requires Shape(sum, workers, d) && Op(id) in d.ops && d.ops[Op(id)].state == Verifying
    ensures id in d.tasks && !Terminal(d.tasks[id].state)
  {
    hide Inv, Local, VerdictsClosed, Described;
    WaitingFacts(sum, workers, d, id);
  }

  /** From every state a run can reach after a check completed its receipt file,
      whatever crashed since, an undisturbed recovery on time reaches the final state
      of that receipt; recovering again changes nothing and reports the same. */
  lemma RecoveryFinishes(sum: Receipt -> string, steps: seq<LocalCheck.Step>, w: World, id: Id, k: Clock)
    requires Reached(sum, steps, w) && id in w.saved
    ensures Op(id) in w.sys.d.ops && id in w.sys.d.tasks && id in w.files && w.files[id].Whole?
    ensures var r := w.files[id].receipt;
            && (Recovered(sum, w.sys.d, w.files, id, k).Ok? <==> OnTime(sum, w.sys.d, id, r, k))
            && (Recovered(sum, w.sys.d, w.files, id, k).Ok? ==>
                  Finishes(sum, Recovered(sum, w.sys.d, w.files, id, k).value, w.files, id, r))
  {
    hide WorldInv, Reached, Recovered, OnTime, Finishes, Shape, VerdictsBased, Sound, HasIntent, HasReport;
    ReachedInv(sum, steps, w);
    SavedRecoverable(sum, w, id);
    RecoveredExactly(sum, w.workers, w.sys.d, w.files, id, w.files[id].receipt, k);
  }

  // ---- any store ------------------------------------------------------------

  /** On any store, sound or damaged, a status is given exactly when task and operation
      are stored and, once there is a verdict, the receipt on file is good and the
      controller's observation of that operation carries its digest. */
  lemma StatusExactly(sum: Receipt -> string, d: Data, files: map<Id, File>, id: Id, now: Time)
    ensures Status(sum, d, files, id, now).Ok? <==>
            && id in d.tasks && Op(id) in d.ops
            && (d.ops[Op(id)].state in {Succeeded, Failed} ==>
                  && id in files && files[id].Whole? && GoodReceipt(id, files[id].receipt, now)
                  && Observed(id) in d.evidence && d.evidence[Observed(id)].operationId == Op(id)
                  && d.evidence[Observed(id)].source == Runner.CONTROLLER
                  && d.evidence[Observed(id)].digest == DigestOf(sum, files[id].receipt))
    ensures Status(sum, d, files, id, now).Ok? ==>
              var r := Status(sum, d, files, id, now).value;
              && r.task == d.tasks[id].state && r.operation == d.ops[Op(id)].state
              && r.receipt == if r.operation in {Succeeded, Failed} then Some(files[id].receipt) else None
  {
    hide GoodReceipt, DigestOf;
  }

  /** On any store, recovery brings a waiting operation on only with a good receipt of
      the attempt that holds its lease, the controller's intent for that configuration,
      and the worker's own report of that receipt. */
  lemma RecoveryNeedsProof(sum: Receipt -> string, d: Data, files: map<Id, File>, id: Id, k: Clock)
    requires Recovered(sum, d, files, id, k).Ok? && Op(id) in d.ops && d.ops[Op(id)].state !in {Succeeded, Failed}
    ensures id in files && files[id].Whole? && GoodReceipt(id, files[id].receipt, k.load)
    ensures var r := files[id].receipt; var op := d.ops[Op(id)];
            && op.state == Verifying && op.active == Att(id) && op.descriptor.verificationPolicy == VERIFY_POLICY
            && Att(id) in d.attempts && d.attempts[Att(id)].owner == WORKER && d.attempts[Att(id)].leaseId == Lease(id)
            && d.attempts[Att(id)].generation == 1
            && (exists e :: e in d.evidence && d.evidence[e].operationId == Op(id) && d.evidence[e].source == Runner.CONTROLLER
                            && d.evidence[e].digest == "sha256:" + r.config)
            && (exists e :: e in d.evidence && d.evidence[e].operationId == Op(id) && d.evidence[e].kind == WorkerReport
                            && d.evidence[e].attemptId == Att(id) && d.evidence[e].source == WORKER
                            && d.evidence[e].digest == DigestOf(sum, r))
  {
    hide Judged, Finalized, DigestOf, ValidDigest;
    var r := files[id].receipt;
    var i :| i in d.evidence && d.evidence[i].operationId == Op(id) && IsIntent(d.evidence[i], id, r);
    var e :| e in d.evidence && d.evidence[e].operationId == Op(id) && IsReport(d.evidence[e], r, DigestOf(sum, r));
  }

  // ---- the steps of an undisturbed recovery ---------------------------------

  /** One more step in front of a run. */
  lemma Prepend(sum: Receipt -> string, w: World, step: LocalCheck.Step, rest: seq<LocalCheck.Step>)
    requires LocalCheck.Enabled(sum, w, step) && Runnable(sum, LocalCheck.Act(sum, w, step), rest)
    ensures Runnable(sum, w, [step] + rest)
    ensures LocalCheck.Run(sum, w, [step] + rest) == LocalCheck.Run(sum, LocalCheck.Act(sum, w, step), rest)
  {
    hide LocalCheck.Enabled, LocalCheck.Act;
    assert ([step] + rest)[1..] == rest;
  }

  lemma NoStep(sum: Receipt -> string, w: World)
    ensures Runnable(sum, w, []) && LocalCheck.Run(sum, w, []) == w
  {
  }

  lemma FinalizeWrites(d: Data, id: Id, revision: nat, at: Time)
    requires FinalizeTask(d, id, revision, at).Ok?
    ensures Write(d, DoFinalizeTask(id, revision, at), Runner.Acknowledged) == (FinalizeTask(d, id, revision, at).value, true)
  {
    hide FinalizeTask;
  }

  /** A step that call `c` takes to recover, with its commit acknowledged. */
  predicate Recovers(step: LocalCheck.Step, c: nat) {
    match step
    case Load(x, _) => x == c
    case Read(x) => x == c
    case Compare(x) => x == c
    case Judge(x, _, _, ack) => x == c && ack == Runner.Acknowledged
    case Close(x) => x == c
    case Finalize(x, _, ack) => x == c && ack == Runner.Acknowledged
    case _ => false
  }

  /** Call `c` closes the task of its check, and the store ends up finalized. */
  lemma CloseRuns(sum: Receipt -> string, w: World, c: nat, at: Time) returns (steps: seq<LocalCheck.Step>)
    requires At(w, c, Closing) && w.calls[c].id in w.sys.d.tasks && Finalized(w.sys.d, w.calls[c].id, at).Ok?
    ensures Runnable(sum, w, steps) && forall s :: s in steps ==> Recovers(s, c)
    ensures LocalCheck.Run(sum, w, steps).sys.d == Finalized(w.sys.d, w.calls[c].id, at).value
  {
    hide Runnable, LocalCheck.Run, Write, FinalizeTask;
    var id := w.calls[c].id;
    var w1 := Goes(w, c, Closes(w, c));
    if Terminal(w.sys.d.tasks[id].state) {
      NoStep(sum, w1);
      Prepend(sum, w, Close(c), []);
      steps := [Close(c)] + [];
    } else {
      var rev := w.sys.d.tasks[id].revision;
      FinalizeWrites(w.sys.d, id, rev, at);
      var last := LocalCheck.Finalize(c, at, Runner.Acknowledged);
      NoStep(sum, Writes(w1, c, DoFinalizeTask(id, rev, at), Runner.Acknowledged, Ended));
      Prepend(sum, w1, last, []);
      Prepend(sum, w, Close(c), [last] + []);
      steps := [Close(c)] + ([last] + []);
    }
  }

  /** Call `c`, with a receipt and an operation that has its verdict or waits for it,
      goes through the rest of a recovery. */
  lemma ReadRuns(sum: Receipt -> string, w: World, c: nat, k: Clock) returns (steps: seq<LocalCheck.Step>)
    requires c in w.calls && w.calls[c].stage.Reading? && Op(w.calls[c].id) in w.sys.d.ops
    requires w.sys.d.ops[Op(w.calls[c].id)].state in {Succeeded, Failed} && Finalized(w.sys.d, w.calls[c].id, k.close).Ok?
    ensures Runnable(sum, w, steps) && forall s :: s in steps ==> Recovers(s, c)
    ensures LocalCheck.Run(sum, w, steps).sys.d == Finalized(w.sys.d, w.calls[c].id, k.close).value
  {
    hide Runnable, LocalCheck.Run, FinalizeTask;
    var w1 := Goes(w, c, Closing);
    steps := CloseRuns(sum, w1, c, k.close);
    Prepend(sum, w, Read(c), steps);
    steps := [Read(c)] + steps;
  }

  lemma JudgeRuns(sum: Receipt -> string, w: World, c: nat, k: Clock) returns (steps: seq<LocalCheck.Step>)
    requires c in w.calls && w.calls[c].stage.Judging?
    requires var s := w.calls[c].stage;
             && Judged(sum, w.sys.d, w.calls[c].id, s.receipt, s.revision, k.judge, k.store).Ok?
             && Finalized(Judged(sum, w.sys.d, w.calls[c].id, s.receipt, s.revision, k.judge, k.store).value, w.calls[c].id, k.close).Ok?
    ensures Runnable(sum, w, steps) && forall s :: s in steps ==> Recovers(s, c)
    ensures var s := w.calls[c].stage;
            LocalCheck.Run(sum, w, steps).sys.d ==
            Finalized(Judged(sum, w.sys.d, w.calls[c].id, s.receipt, s.revision, k.judge, k.store).value, w.calls[c].id, k.close).value
  {
    hide Runnable, LocalCheck.Run, FinalizeTask, History.ProcessMessage, VerdictEnvelope, VerdictDecisions, DigestOf;
    var s := w.calls[c].stage;
    var d' := Judged(sum, w.sys.d, w.calls[c].id, s.receipt, s.revision, k.judge, k.store).value;
    var w1 := Goes(w.(sys := w.sys.(d := d')), c, Closing);
    steps := CloseRuns(sum, w1, c, k.close);
    var judge := Judge(c, k.judge, k.store, Runner.Acknowledged);
    Prepend(sum, w, judge, steps);
    steps := [judge] + steps;
  }

  lemma CompareRuns(sum: Receipt -> string, w: World, c: nat, k: Clock) returns (steps: seq<LocalCheck.Step>)
    requires c in w.calls && w.calls[c].stage.Reading? && Op(w.calls[c].id) in w.sys.d.ops
    requires var s, op := w.calls[c].stage, w.sys.d.ops[Op(w.calls[c].id)];
             && Awaits(op, w.calls[c].id, s.receipt) && LocalCheck.Proven(sum, w.sys.d, w.calls[c].id, s.receipt)
             && Judged(sum, w.sys.d, w.calls[c].id, s.receipt, op.revision, k.judge, k.store).Ok?
             && Finalized(Judged(sum, w.sys.d, w.calls[c].id, s.receipt, op.revision, k.judge, k.store).value, w.calls[c].id, k.close).Ok?
    ensures Runnable(sum, w, steps) && forall s :: s in steps ==> Recovers(s, c)
    ensures var s, op := w.calls[c].stage, w.sys.d.ops[Op(w.calls[c].id)];
            LocalCheck.Run(sum, w, steps).sys.d ==
            Finalized(Judged(sum, w.sys.d, w.calls[c].id, s.receipt, op.revision, k.judge, k.store).value, w.calls[c].id, k.close).value
  {
    hide Runnable, LocalCheck.Run, Finalized, Judged, LocalCheck.Proven;
    var s, op := w.calls[c].stage, w.sys.d.ops[Op(w.calls[c].id)];
    var w1 := Goes(w, c, Comparing(s.receipt, op.revision));
    var w2 := Goes(w1, c, Judging(s.receipt, op.revision));
    steps := JudgeRuns(sum, w2, c, k);
    Prepend(sum, w1, Compare(c), steps);
    steps := [Compare(c)] + steps;
    Prepend(sum, w, Read(c), steps);
    steps := [Read(c)] + steps;
  }

  /** The first two steps: the call arrives and loads the receipt. */
  lemma LoadRuns(sum: Receipt -> string, w: World, c: nat, id: Id, now: Time, steps: seq<LocalCheck.Step>)
    requires c !in w.calls && ValidId(id) && LoadReceipt(w.files, id, now).Ok?
    requires var w2 := w.(calls := w.calls[c := LocalCheck.Call(id, "", "", Reading(LoadReceipt(w.files, id, now).value))]);
             Runnable(sum, w2, steps)
    ensures var w2 := w.(calls := w.calls[c := LocalCheck.Call(id, "", "", Reading(LoadReceipt(w.files, id, now).value))]);
            var all := [LocalCheck.Recover(c, id)] + ([Load(c, now)] + steps);
            Runnable(sum, w, all) && LocalCheck.Run(sum, w, all) == LocalCheck.Run(sum, w2, steps)
  {
    hide Runnable, LocalCheck.Run, LoadReceipt, ValidId;
    var w1 := w.(calls := w.calls[c := LocalCheck.Call(id, "", "", Loading)]);
    var w2 := w.(calls := w.calls[c := LocalCheck.Call(id, "", "", Reading(LoadReceipt(w.files, id, now).value))]);
    assert w2 == Goes(w1, c, Reading(LoadReceipt(w.files, id, now).value));
    Prepend(sum, w1, Load(c, now), steps);
    Prepend(sum, w, LocalCheck.Recover(c, id), [Load(c, now)] + steps);
  }

  /** What `Recovered` says is what a call of `Recover` does in the system when nothing
      disturbs it and every commit is acknowledged. */
  lemma RecoveryRuns(sum: Receipt -> string, w: World, c: nat, id: Id, k: Clock) returns (steps: seq<LocalCheck.Step>)
    requires c !in w.calls && ValidId(id) && Recovered(sum, w.sys.d, w.files, id, k).Ok?
    ensures Runnable(sum, w, steps) && forall s :: s in steps ==> s == LocalCheck.Recover(c, id) || Recovers(s, c)
    ensures LocalCheck.Run(sum, w, steps).sys.d == Recovered(sum, w.sys.d, w.files, id, k).value
  {
    hide Runnable, LocalCheck.Run, Finalized, Judged, LocalCheck.Proven, ValidId, LoadReceipt, Awaits;
    var r := LoadReceipt(w.files, id, k.load).value;
    var w2 := w.(calls := w.calls[c := LocalCheck.Call(id, "", "", Reading(r))]);
    var rest;
    if w.sys.d.ops[Op(id)].state in {Succeeded, Failed} {
      rest := ReadRuns(sum, w2, c, k);
    } else {
      rest := CompareRuns(sum, w2, c, k);
    }
    LoadRuns(sum, w, c, id, k.load, rest);
    steps := [LocalCheck.Recover(c, id)] + ([Load(c, k.load)] + rest);
  }
}
