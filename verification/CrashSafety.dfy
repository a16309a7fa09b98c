/** What holds of local checks under any interleaving of calls and crashes: the
    command runs at most once, success rests on its own receipt, and recovery
    finishes the same way from every crash point after the receipt. */
module CrashSafety {
  import opened Basics
  import opened Records
  import opened Storage
  import opened Decisions
  import opened Invariant
  import opened Preservation
  import opened LocalCheck
  import opened LocalStore
  import History
  import Runner

  // ---- calls and the runner -------------------------------------------------

  predicate Requested(q: Runner.Request, id: Id) {
    && q.messageId == "offer_" + id && q.operationId == Op(id) && q.attemptId == Att(id) && q.leaseId == Lease(id)
    && q.retryOf == ""
  }

  predicate JobOf(j: Runner.Job, id: Id) {
    Requested(j.request, id) && Described(j.descriptor, id) && j.worker == WORKER
  }

  predicate PhaseOk(p: Runner.Phase, id: Id) {
    && (p.Called? ==> Requested(p.request, id) && p.worker == WORKER)
    && (p.Checking? ==> Requested(p.request, id) && p.worker == WORKER && Described(p.seen.descriptor, id))
    && (p.Offering? ==> Requested(p.request, id) && p.worker == WORKER && Described(p.descriptor, id))
    && (Runner.HasJob(p) ==> JobOf(p.job, id))
  }

  predicate Early(s: Stage) {
    s.Fresh? || s.Creating? || s.Describing? || s.Intending? || s.Arming? || s.Offering?
  }

  predicate Intended(s: Stage) {
    s.Arming? || s.Offering? || s.InExecution?
  }

  predicate IntentStored(evidence: map<Id, Evidence>, id: Id, config: string) {
    && Intent(id) in evidence && evidence[Intent(id)].operationId == Op(id)
    && evidence[Intent(id)].source == Runner.CONTROLLER && evidence[Intent(id)].digest == "sha256:" + config
    && evidence[Intent(id)].id == Intent(id)
  }

  /** Every runner call belongs to a check that has begun to execute. */
  ghost predicate Linked(sys: Runner.System, calls: map<nat, Call>) {
    && (forall c :: Runner.In(sys, c) ==> c in calls && PhaseOk(sys.calls[c], calls[c].id) && !Early(calls[c].stage))
    && (forall c :: c in calls && calls[c].stage.InExecution? ==> Runner.In(sys, c))
  }

  predicate CallConfigured(evidence: map<Id, Evidence>, call: Call) {
    && (Early(call.stage) || call.stage.InExecution? ==> ValidDigest(call.config))
    && (Intended(call.stage) ==> IntentStored(evidence, call.id, call.config))
  }

  ghost predicate Configured(evidence: map<Id, Evidence>, calls: map<nat, Call>) {
    forall c :: c in calls ==> CallConfigured(evidence, calls[c])
  }

  // ---- workers and commands -------------------------------------------------

  predicate WorkerOk(started: seq<Id>, evidence: map<Id, Evidence>, id: Id, k: Worker) {
    && Att(id) in started && IntentStored(evidence, id, k.config) && ValidDigest(k.config) && k.generation == 1
    && (k.command.Exited? ==> Sound(id, k.command.receipt) && k.command.receipt.config == k.config)
  }

  ghost predicate WorkersOk(started: seq<Id>, evidence: map<Id, Evidence>, workers: map<Id, Worker>) {
    forall id :: id in workers ==> WorkerOk(started, evidence, id, workers[id])
  }

  ghost predicate LaunchesOk(launched: seq<Id>, workers: map<Id, Worker>) {
    && (forall i, j :: 0 <= i < j < |launched| ==> launched[i] != launched[j])
    && (forall id :: id in launched <==> id in workers && !workers[id].command.Waiting?)
  }

  predicate Exits(workers: map<Id, Worker>, id: Id) {
    id in workers && workers[id].command.Exited?
  }

  // ---- reported checks ------------------------------------------------------

  /** The attempt is reported, and no call can withdraw it any more. */
  ghost predicate Settled(sys: Runner.System, id: Id) {
    && Awaiting(sys.d.ops, id) && Att(id) in sys.d.attempts
    && forall c :: Runner.Working(sys, c) ==> Runner.AttemptOf(sys, c) != Att(id)
  }

  ghost predicate Finished(sum: Receipt -> string, sys: Runner.System, workers: map<Id, Worker>, id: Id) {
    && Exits(workers, id) && Settled(sys, id)
    && HasReport(sys.d.evidence, id, workers[id].command.receipt, DigestOf(sum, workers[id].command.receipt))
  }

  predicate Told(p: Runner.Phase) {
    p == Runner.Returned(Runner.ReportedBack(true))
  }

  ghost predicate RunnerFinished(sum: Receipt -> string, sys: Runner.System, calls: map<nat, Call>, workers: map<Id, Worker>) {
    forall c :: Runner.In(sys, c) && c in calls ==>
      && (sys.calls[c].Reporting? ==> Exits(workers, calls[c].id))
      && (Told(sys.calls[c]) ==> Finished(sum, sys, workers, calls[c].id))
  }

  ghost predicate SavesFinished(sum: Receipt -> string, sys: Runner.System, calls: map<nat, Call>, workers: map<Id, Worker>) {
    forall c :: c in calls && calls[c].stage.Saving? ==>
      Finished(sum, sys, workers, calls[c].id) && calls[c].stage.receipt == workers[calls[c].id].command.receipt
  }

  ghost predicate SavedFinished(sum: Receipt -> string, sys: Runner.System, workers: map<Id, Worker>, files: map<Id, File>,
                                saved: set<Id>)
  {
    forall id :: id in saved ==>
      Finished(sum, sys, workers, id) && id in files && files[id] == Whole(workers[id].command.receipt)
  }

  // ---- recoveries and verdicts ----------------------------------------------

  predicate OnFile(files: map<Id, File>, id: Id, r: Receipt) {
    id in files && files[id] == Whole(r) && Sound(id, r)
  }

  predicate CallReads(sum: Receipt -> string, evidence: map<Id, Evidence>, files: map<Id, File>, call: Call) {
    && (call.stage.Reading? || call.stage.Comparing? || call.stage.Judging? ==> OnFile(files, call.id, call.stage.receipt))
    && (call.stage.Judging? ==> HasReport(evidence, call.id, call.stage.receipt, DigestOf(sum, call.stage.receipt)))
  }

  ghost predicate ReadsOk(sum: Receipt -> string, evidence: map<Id, Evidence>, files: map<Id, File>, calls: map<nat, Call>) {
    forall c :: c in calls ==> CallReads(sum, evidence, files, calls[c])
  }

  /** A verification says what the receipt on file says, and that receipt is the one
      the worker reported. */
  predicate Based(sum: Receipt -> string, evidence: map<Id, Evidence>, files: map<Id, File>, id: Id, v: Verification) {
    && v.operationId == Op(id) && id in files && files[id].Whole? && Sound(id, files[id].receipt)
    && v.verdict == VerdictOf(files[id].receipt)
    && HasReport(evidence, id, files[id].receipt, DigestOf(sum, files[id].receipt))
    && Matched(evidence, id, DigestOf(sum, files[id].receipt))
  }

  ghost predicate VerdictsBased(sum: Receipt -> string, d: Data, files: map<Id, File>) {
    forall k :: k in d.verifications ==>
      HasPrefix(k, "verification_") && Based(sum, d.evidence, files, k[13..], d.verifications[k])
  }

  ghost predicate WorldInv(sum: Receipt -> string, w: World) {
    && Runner.SystemInv(w.sys) && Shape(sum, w.workers, w.sys.d)
    && Linked(w.sys, w.calls) && Configured(w.sys.d.evidence, w.calls)
    && WorkersOk(w.sys.started, w.sys.d.evidence, w.workers) && LaunchesOk(w.launched, w.workers)
    && RunnerFinished(sum, w.sys, w.calls, w.workers) && SavesFinished(sum, w.sys, w.calls, w.workers)
    && SavedFinished(sum, w.sys, w.workers, w.files, w.saved)
    && ReadsOk(sum, w.sys.d.evidence, w.files, w.calls) && VerdictsBased(sum, w.sys.d, w.files)
  }

  // ---- a call moves on ------------------------------------------------------

  /** What the next stage of a call needs. */
  ghost predicate StageFits(sum: Receipt -> string, w: World, c: nat, call: Call) {
    && (Early(call.stage) ==> !Runner.In(w.sys, c)) && (call.stage.InExecution? ==> Runner.In(w.sys, c))
    && (c in w.calls ==> call.id == w.calls[c].id)
    && CallConfigured(w.sys.d.evidence, call) && CallReads(sum, w.sys.d.evidence, w.files, call)
    && (call.stage.Saving? ==>
          Finished(sum, w.sys, w.workers, call.id) && call.stage.receipt == w.workers[call.id].command.receipt)
  }

  lemma StageMoves(sum: Receipt -> string, w: World, c: nat, call: Call)
    requires WorldInv(sum, w) && StageFits(sum, w, c, call)
    ensures WorldInv(sum, w.(calls := w.calls[c := call]))
  {
    hide Runner.SystemInv, Shape, WorkersOk, LaunchesOk, SavedFinished, VerdictsBased, Finished, CallReads, CallConfigured,
         PhaseOk;
  }

  // ---- the data grows -------------------------------------------------------

  lemma EvidenceKept(d: Data, d': Data)
    requires Keeps(d, d')
    ensures Grows(d.evidence, d'.evidence) && forall a :: a in d.attempts ==> a in d'.attempts
  {
    hide Inv, OperationsEvolve, AttemptsAge, ActivesAge, OutcomesStay, ClosedTasksStay;
  }

  lemma ReportKept(e: map<Id, Evidence>, e': map<Id, Evidence>)
    requires Grows(e, e')
    ensures forall id, r, digest :: HasReport(e, id, r, digest) ==> HasReport(e', id, r, digest)
    ensures forall id, config :: IntentStored(e, id, config) ==> IntentStored(e', id, config)
  {
    forall id, r, digest | HasReport(e, id, r, digest)
      ensures HasReport(e', id, r, digest)
    {
      var k :| k in e && e[k].operationId == Op(id) && IsReport(e[k], r, digest);
      assert k in e' && e'[k] == e[k];
    }
  }

  /** The store moves by decisions that leave settled checks reported. */
  ghost predicate DataMoves(sum: Receipt -> string, w: World, d': Data) {
    && Keeps(w.sys.d, d') && Shape(sum, w.workers, d') && VerdictsBased(sum, d', w.files)
    && forall id :: Settled(w.sys, id) ==> Awaiting(d'.ops, id)
  }

  lemma FinishedStays(sum: Receipt -> string, w: World, d': Data, id: Id)
    requires DataMoves(sum, w, d') && Finished(sum, w.sys, w.workers, id)
    ensures Finished(sum, w.sys.(d := d'), w.workers, id)
  {
    hide Keeps, Shape, VerdictsBased, HasReport, DigestOf, Awaiting;
    EvidenceKept(w.sys.d, d');
    ReportKept(w.sys.d.evidence, d'.evidence);
    assert forall c :: Runner.Working(w.sys.(d := d'), c) ==>
             Runner.Working(w.sys, c) && Runner.AttemptOf(w.sys.(d := d'), c) == Runner.AttemptOf(w.sys, c);
  }

  lemma StoreMoves(sum: Receipt -> string, w: World, d': Data)
    requires WorldInv(sum, w) && DataMoves(sum, w, d')
    ensures WorldInv(sum, w.(sys := w.sys.(d := d')))
  {
    hide Runner.SystemInv, Keeps, Shape, VerdictsBased, LaunchesOk, HasReport, DigestOf, Awaiting, Settled, PhaseOk, Finished,
         IntentStored, Sound;
    var s' := w.sys.(d := d');
    Runner.DataMoves(w.sys, s');
    EvidenceKept(w.sys.d, d');
    ReportKept(w.sys.d.evidence, d'.evidence);
    forall id | Finished(sum, w.sys, w.workers, id)
      ensures Finished(sum, s', w.workers, id)
    {
      FinishedStays(sum, w, d', id);
    }
    LinkedAnyData(w.sys, s', w.calls);
  }

  lemma LinkedAnyData(sys: Runner.System, sys': Runner.System, calls: map<nat, Call>)
    requires Linked(sys, calls) && sys'.calls == sys.calls
    ensures Linked(sys', calls)
    ensures forall c :: Runner.In(sys', c) <==> Runner.In(sys, c)
  {
    hide PhaseOk;
  }

  lemma VerdictsKept(sum: Receipt -> string, d: Data, d': Data, files: map<Id, File>)
    requires VerdictsBased(sum, d, files) && Grows(d.evidence, d'.evidence) && d'.verifications == d.verifications
    ensures VerdictsBased(sum, d', files)
  {
    hide HasReport, Sound, DigestOf, VerdictOf;
    ReportKept(d.evidence, d'.evidence);
  }

  lemma RoutineMoves(sum: Receipt -> string, w: World, d': Data)
    requires WorldInv(sum, w) && Routinely(sum, w.workers, w.sys.d, d')
    requires forall id :: Settled(w.sys, id) ==> Awaiting(d'.ops, id)
    ensures DataMoves(sum, w, d')
  {
    hide Runner.SystemInv, Keeps, Shape, VerdictsBased, LaunchesOk, Awaiting, Settled, Linked, Configured, WorkersOk,
         RunnerFinished, SavesFinished, SavedFinished, ReadsOk;
    EvidenceKept(w.sys.d, d');
    VerdictsKept(sum, w.sys.d, d', w.files);
  }

  lemma SettledAwaits(sys: Runner.System)
    ensures forall id :: Settled(sys, id) ==> Awaiting(sys.d.ops, id)
  {
  }

  // ---- plain writes ---------------------------------------------------------

  lemma CommitStep(sum: Receipt -> string, w: World, c: nat, decision: Decision, ack: Runner.Ack, next: Stage)
    requires WorldInv(sum, w) && c in w.calls && Routine(sum, w.workers, decision) && !decision.DoInvalidateAttempt?
    requires Write(w.sys.d, decision, ack).1 ==>
               StageFits(sum, w.(sys := w.sys.(d := Write(w.sys.d, decision, ack).0)), c, w.calls[c].(stage := next))
    ensures WorldInv(sum, Writes(w, c, decision, ack, next))
  {
    hide WorldInv, StageFits, Routine, Write, Awaiting, Settled, DataMoves;
    var d' := Write(w.sys.d, decision, ack).0;
    WriteMoves(sum, w, decision, ack);
    StoreMoves(sum, w, d');
    var w1 := w.(sys := w.sys.(d := d'));
    EndFits(sum, w1, c);
    StageMoves(sum, w1, c, w.calls[c].(stage := if Write(w.sys.d, decision, ack).1 then next else Ended));
  }

  lemma WriteMoves(sum: Receipt -> string, w: World, decision: Decision, ack: Runner.Ack)
    requires WorldInv(sum, w) && Routine(sum, w.workers, decision) && !decision.DoInvalidateAttempt?
    ensures DataMoves(sum, w, Write(w.sys.d, decision, ack).0)
    ensures Keeps(w.sys.d, Write(w.sys.d, decision, ack).0)
  {
    hide Shape, Routine, Write, Awaiting, Settled, Runner.SystemInv, Linked, Configured, WorkersOk, LaunchesOk, VerdictsBased,
         RunnerFinished, SavesFinished, SavedFinished, ReadsOk, Keeps;
    SettledAwaits(w.sys);
    RoutineWrite(sum, w.workers, w.sys.d, decision, ack);
    RoutineMoves(sum, w, Write(w.sys.d, decision, ack).0);
  }

  lemma EndFits(sum: Receipt -> string, w: World, c: nat)
    requires c in w.calls
    ensures StageFits(sum, w, c, w.calls[c].(stage := Ended))
  {
    hide Finished, IntentStored, OnFile, HasReport;
  }

  lemma Unlinked(sum: Receipt -> string, w: World, c: nat)
    requires WorldInv(sum, w) && c in w.calls && Early(w.calls[c].stage)
    ensures !Runner.In(w.sys, c) && ValidDigest(w.calls[c].config)
    ensures Intended(w.calls[c].stage) ==> IntentStored(w.sys.d.evidence, w.calls[c].id, w.calls[c].config)
  {
    hide Runner.SystemInv, Shape, WorkersOk, LaunchesOk, VerdictsBased, RunnerFinished, SavesFinished, SavedFinished, ReadsOk,
         PhaseOk, IntentStored, ValidDigest;
    assert CallConfigured(w.sys.d.evidence, w.calls[c]);
  }

  lemma EarlyFits(sum: Receipt -> string, w: World, c: nat, call: Call)
    requires c in w.calls && call.id == w.calls[c].id && Early(call.stage) && !Runner.In(w.sys, c) && ValidDigest(call.config)
    requires Intended(call.stage) ==> IntentStored(w.sys.d.evidence, call.id, call.config)
    ensures StageFits(sum, w, c, call)
  {
    hide Finished, OnFile, HasReport, ValidDigest, IntentStored;
  }

  lemma CreateStep(sum: Receipt -> string, w: World, c: nat, at: Time, ack: Runner.Ack)
    requires WorldInv(sum, w) && At(w, c, Creating)
    ensures WorldInv(sum, Writes(w, c, DoCreateTask(w.calls[c].id, at), ack, Describing))
  {
    hide WorldInv, StageFits, Write, Decide;
    Unlinked(sum, w, c);
    var d' := Write(w.sys.d, DoCreateTask(w.calls[c].id, at), ack).0;
    EarlyFits(sum, w.(sys := w.sys.(d := d')), c, w.calls[c].(stage := Describing));
    CommitStep(sum, w, c, DoCreateTask(w.calls[c].id, at), ack, Describing);
  }

  lemma DescribeStep(sum: Receipt -> string, w: World, c: nat, at: Time, ack: Runner.Ack)
    requires WorldInv(sum, w) && At(w, c, Describing)
    ensures WorldInv(sum, Writes(w, c, DoCreateOperation(DescriptorOf(w.calls[c].id, w.calls[c].workspace), at), ack, Intending))
  {
    hide WorldInv, StageFits, Write, Decide;
    Unlinked(sum, w, c);
    var decision := DoCreateOperation(DescriptorOf(w.calls[c].id, w.calls[c].workspace), at);
    var d' := Write(w.sys.d, decision, ack).0;
    EarlyFits(sum, w.(sys := w.sys.(d := d')), c, w.calls[c].(stage := Intending));
    CommitStep(sum, w, c, decision, ack, Intending);
  }

  lemma IntendStep(sum: Receipt -> string, w: World, c: nat, at: Time, ack: Runner.Ack)
    requires WorldInv(sum, w) && At(w, c, Intending)
    ensures WorldInv(sum, Writes(w, c, DoRegisterEvidence(IntentRecord(w.calls[c].id, w.calls[c].config, at)), ack, Arming))
  {
    hide WorldInv, StageFits, Write, ValidEvidence;
    Unlinked(sum, w, c);
    var decision := DoRegisterEvidence(IntentRecord(w.calls[c].id, w.calls[c].config, at));
    var (d', told) := Write(w.sys.d, decision, ack);
    if told {
      IntentWritten(w.sys.d, w.calls[c].id, w.calls[c].config, at, ack);
      EarlyFits(sum, w.(sys := w.sys.(d := d')), c, w.calls[c].(stage := Arming));
    }
    assert Intent(w.calls[c].id)[0] == 'i';
    CommitStep(sum, w, c, decision, ack, Arming);
  }

  lemma IntentWritten(d: Data, id: Id, config: string, at: Time, ack: Runner.Ack)
    requires Write(d, DoRegisterEvidence(IntentRecord(id, config, at)), ack).1
    ensures IntentStored(Write(d, DoRegisterEvidence(IntentRecord(id, config, at)), ack).0.evidence, id, config)
  {
    hide ValidEvidence;
  }

  lemma ArmStep(sum: Receipt -> string, w: World, c: nat, at: Time, ack: Runner.Ack)
    requires WorldInv(sum, w) && At(w, c, Arming)
    ensures WorldInv(sum, Writes(w, c, DoMarkReady(Op(w.calls[c].id), 1, at), ack, Offering))
  {
    hide WorldInv, StageFits, Write, Decide, DataMoves, Keeps;
    Unlinked(sum, w, c);
    var decision := DoMarkReady(Op(w.calls[c].id), 1, at);
    WriteMoves(sum, w, decision, ack);
    var d' := Write(w.sys.d, decision, ack).0;
    EvidenceKept(w.sys.d, d');
    EarlyFits(sum, w.(sys := w.sys.(d := d')), c, w.calls[c].(stage := Offering));
    CommitStep(sum, w, c, decision, ack, Offering);
  }

  lemma FinalizeStep(sum: Receipt -> string, w: World, c: nat, at: Time, ack: Runner.Ack)
    requires WorldInv(sum, w) && c in w.calls && w.calls[c].stage.Finalizing?
    ensures WorldInv(sum, Writes(w, c, DoFinalizeTask(w.calls[c].id, w.calls[c].stage.revision, at), ack, Ended))
  {
    hide WorldInv, StageFits, Write, Decide;
    var decision := DoFinalizeTask(w.calls[c].id, w.calls[c].stage.revision, at);
    EndFits(sum, w.(sys := w.sys.(d := Write(w.sys.d, decision, ack).0)), c);
    CommitStep(sum, w, c, decision, ack, Ended);
  }

  // ---- the verdict ----------------------------------------------------------

  lemma JudgeStep(sum: Receipt -> string, w: World, c: nat, at: Time, now: Time, ack: Runner.Ack)
    requires WorldInv(sum, w) && c in w.calls && w.calls[c].stage.Judging?
    ensures WorldInv(sum, Judges(sum, w, c, at, now, ack))
  {
    hide WorldInv, StageFits, DataMoves, Runner.Deliver, VerdictEnvelope, VerdictDecisions;
    var s := w.calls[c].stage;
    var digest := DigestOf(sum, s.receipt);
    var (d', learned) := Runner.Deliver(w.sys.d, now, VerdictEnvelope(w.calls[c].id, s.receipt, digest),
                                        VerdictDecisions(w.calls[c].id, s.receipt, digest, s.revision, at), ack);
    JudgeMoves(sum, w, c, at, now, ack);
    StoreMoves(sum, w, d');
    var w1 := w.(sys := w.sys.(d := d'));
    EndFits(sum, w1, c);
    PlainFits(sum, w1, c, Closing);
    StageMoves(sum, w1, c, w.calls[c].(stage := if learned.Some? then Closing else Ended));
  }

  lemma PlainFits(sum: Receipt -> string, w: World, c: nat, stage: Stage)
    requires c in w.calls && (stage.Closing? || stage.Finalizing? || stage.Ended? || stage.Loading?)
    ensures StageFits(sum, w, c, w.calls[c].(stage := stage))
  {
    hide Finished, IntentStored, OnFile, HasReport;
  }

  lemma JudgeMoves(sum: Receipt -> string, w: World, c: nat, at: Time, now: Time, ack: Runner.Ack)
    requires WorldInv(sum, w) && c in w.calls && w.calls[c].stage.Judging?
    ensures var s := w.calls[c].stage;
            var digest := DigestOf(sum, s.receipt);
            DataMoves(sum, w, Runner.Deliver(w.sys.d, now, VerdictEnvelope(w.calls[c].id, s.receipt, digest),
                                             VerdictDecisions(w.calls[c].id, s.receipt, digest, s.revision, at), ack).0)
  {
    hide Shape, Awaiting, Settled, Runner.SystemInv, Linked, Configured, WorkersOk, LaunchesOk, VerdictsBased, OnFile, HasReport,
         RunnerFinished, SavesFinished, SavedFinished, Keeps, VerdictEnvelope, VerdictDecisions, VerificationOf, DigestOf,
         History.ProcessMessage;
    var id, r, revision := w.calls[c].id, w.calls[c].stage.receipt, w.calls[c].stage.revision;
    var digest := DigestOf(sum, r);
    assert CallReads(sum, w.sys.d.evidence, w.files, w.calls[c]);
    SettledAwaits(w.sys);
    RoutinelyStill(sum, w.workers, w.sys.d);
    if History.ProcessMessage(w.sys.d, now, VerdictEnvelope(id, r, digest), VerdictDecisions(id, r, digest, revision, at)).Ok? {
      var d' := History.ProcessMessage(w.sys.d, now, VerdictEnvelope(id, r, digest),
                                       VerdictDecisions(id, r, digest, revision, at)).value.0;
      VerdictCommit(sum, w.workers, w.sys.d, now, id, r, digest, revision, at);
      EvidenceKept(w.sys.d, d');
      VerdictIsBased(sum, w.sys.d, d', w.files, id, r, at);
    }
  }

  lemma VerdictIsBased(sum: Receipt -> string, d: Data, d': Data, files: map<Id, File>, id: Id, r: Receipt, at: Time)
    requires VerdictsBased(sum, d, files) && Grows(d.evidence, d'.evidence)
    requires OnFile(files, id, r) && HasReport(d.evidence, id, r, DigestOf(sum, r))
    requires d'.verifications == d.verifications
             || (&& d'.verifications == d.verifications[Judgement(id) := VerificationOf(id, r, at)]
                 && Matched(d'.evidence, id, DigestOf(sum, r)))
    ensures VerdictsBased(sum, d', files)
  {
    hide HasReport, Sound, DigestOf, VerdictOf, SummaryOf;
    ReportKept(d.evidence, d'.evidence);
    assert Judgement(id)[13..] == id;
  }

  // ---- reading --------------------------------------------------------------

  lemma LoadStep(sum: Receipt -> string, w: World, c: nat, now: Time)
    requires WorldInv(sum, w) && At(w, c, Loading)
    ensures WorldInv(sum, Goes(w, c, Loads(w, c, now)))
  {
    hide WorldInv, StageFits, Sound;
    EndFits(sum, w, c);
    var r := LoadReceipt(w.files, w.calls[c].id, now);
    if r.Ok? {
      ReadFits(sum, w, c, Reading(r.value));
      StageMoves(sum, w, c, w.calls[c].(stage := Reading(r.value)));
    } else {
      StageMoves(sum, w, c, w.calls[c].(stage := Ended));
    }
  }

  lemma ReadFits(sum: Receipt -> string, w: World, c: nat, stage: Stage)
    requires c in w.calls && (stage.Reading? || stage.Comparing? || stage.Judging?)
    requires OnFile(w.files, w.calls[c].id, stage.receipt)
    requires stage.Judging? ==> HasReport(w.sys.d.evidence, w.calls[c].id, stage.receipt, DigestOf(sum, stage.receipt))
    ensures StageFits(sum, w, c, w.calls[c].(stage := stage))
  {
    hide Finished, IntentStored, OnFile, HasReport;
  }

  lemma StageReceipt(sum: Receipt -> string, w: World, c: nat)
    requires WorldInv(sum, w) && c in w.calls && (w.calls[c].stage.Reading? || w.calls[c].stage.Comparing?)
    ensures OnFile(w.files, w.calls[c].id, w.calls[c].stage.receipt)
  {
    hide Shape, Runner.SystemInv, Linked, Configured, WorkersOk, LaunchesOk, VerdictsBased, OnFile, HasReport,
         RunnerFinished, SavesFinished, SavedFinished;
    assert CallReads(sum, w.sys.d.evidence, w.files, w.calls[c]);
  }

  lemma ReadStep(sum: Receipt -> string, w: World, c: nat)
    requires WorldInv(sum, w) && c in w.calls && w.calls[c].stage.Reading?
    ensures WorldInv(sum, Goes(w, c, Reads(w, c)))
  {
    hide WorldInv, StageFits, OnFile;
    StageReceipt(sum, w, c);
    EndFits(sum, w, c);
    PlainFits(sum, w, c, Closing);
    var next := Reads(w, c);
    if next.Comparing? {
      ReadFits(sum, w, c, next);
    }
    StageMoves(sum, w, c, w.calls[c].(stage := next));
  }

  lemma CompareStep(sum: Receipt -> string, w: World, c: nat)
    requires WorldInv(sum, w) && c in w.calls && w.calls[c].stage.Comparing?
    ensures WorldInv(sum, Goes(w, c, Compares(sum, w, c)))
  {
    hide WorldInv, StageFits, OnFile, HasReport, HasIntent, OwnsLease;
    StageReceipt(sum, w, c);
    EndFits(sum, w, c);
    var s := w.calls[c].stage;
    if LocalCheck.Proven(sum, w.sys.d, w.calls[c].id, s.receipt) {
      ReadFits(sum, w, c, Judging(s.receipt, s.revision));
      StageMoves(sum, w, c, w.calls[c].(stage := Judging(s.receipt, s.revision)));
    } else {
      StageMoves(sum, w, c, w.calls[c].(stage := Ended));
    }
  }

  lemma CloseStep(sum: Receipt -> string, w: World, c: nat)
    requires WorldInv(sum, w) && At(w, c, Closing)
    ensures WorldInv(sum, Goes(w, c, Closes(w, c)))
  {
    hide WorldInv, StageFits;
    var next := Closes(w, c);
    PlainFits(sum, w, c, next);
    StageMoves(sum, w, c, w.calls[c].(stage := next));
  }

  lemma LookUpStep(sum: Receipt -> string, w: World, c: nat)
    requires WorldInv(sum, w) && At(w, c, Fresh)
    ensures WorldInv(sum, Goes(w, c, LooksUp(w, c)))
  {
    hide WorldInv, StageFits;
    Unlinked(sum, w, c);
    EndFits(sum, w, c);
    EarlyFits(sum, w, c, w.calls[c].(stage := Creating));
    StageMoves(sum, w, c, w.calls[c].(stage := LooksUp(w, c)));
  }

  lemma AdoptStep(sum: Receipt -> string, w: World, c: nat)
    requires WorldInv(sum, w) && c in w.calls && Runner.In(w.sys, c)
    ensures WorldInv(sum, Goes(w, c, Adopts(w, c)))
  {
    hide WorldInv, StageFits, Finished;
    EndFits(sum, w, c);
    var next := Adopts(w, c);
    if next.Saving? {
      ToldFinished(sum, w, c);
      SaveFits(sum, w, c, next);
    }
    StageMoves(sum, w, c, w.calls[c].(stage := next));
  }

  lemma ToldFinished(sum: Receipt -> string, w: World, c: nat)
    requires WorldInv(sum, w) && c in w.calls && Runner.In(w.sys, c) && Told(w.sys.calls[c])
    ensures Finished(sum, w.sys, w.workers, w.calls[c].id)
  {
    hide Shape, Runner.SystemInv, Linked, Configured, WorkersOk, LaunchesOk, VerdictsBased, Finished, SavesFinished, SavedFinished,
         ReadsOk;
  }

  lemma SaveFits(sum: Receipt -> string, w: World, c: nat, stage: Stage)
    requires c in w.calls && stage.Saving?
    requires Finished(sum, w.sys, w.workers, w.calls[c].id)
    requires stage.receipt == w.workers[w.calls[c].id].command.receipt
    ensures StageFits(sum, w, c, w.calls[c].(stage := stage))
  {
    hide IntentStored, OnFile, HasReport, Settled;
  }

  lemma BeginStep(sum: Receipt -> string, w: World, c: nat, call: Call)
    requires WorldInv(sum, w) && c !in w.calls
    requires (call.stage.Fresh? && ValidDigest(call.config)) || call.stage.Loading?
    ensures WorldInv(sum, w.(calls := w.calls[c := call]))
  {
    hide WorldInv;
    NotRunning(sum, w, c);
    NewFits(sum, w, c, call);
    StageMoves(sum, w, c, call);
  }

  lemma NewFits(sum: Receipt -> string, w: World, c: nat, call: Call)
    requires c !in w.calls && !Runner.In(w.sys, c)
    requires (call.stage.Fresh? && ValidDigest(call.config)) || call.stage.Loading?
    ensures StageFits(sum, w, c, call)
  {
    hide ValidDigest, IntentStored, OnFile, HasReport, Finished;
  }

  lemma NotRunning(sum: Receipt -> string, w: World, c: nat)
    requires WorldInv(sum, w) && c !in w.calls
    ensures !Runner.In(w.sys, c)
  {
    hide Shape, Runner.SystemInv, Configured, WorkersOk, LaunchesOk, VerdictsBased, RunnerFinished, SavesFinished, SavedFinished,
         ReadsOk, PhaseOk;
  }

  // ---- files ----------------------------------------------------------------

  /** A file appears where there was none. */
  lemma FileAppears(sum: Receipt -> string, w: World, id: Id, file: File, saved: set<Id>)
    requires WorldInv(sum, w) && id !in w.files
    requires saved == w.saved || (saved == w.saved + {id} && Finished(sum, w.sys, w.workers, id)
                                  && file == Whole(w.workers[id].command.receipt))
    ensures WorldInv(sum, w.(files := w.files[id := file], saved := saved))
  {
    hide Shape, Runner.SystemInv, Linked, Configured, WorkersOk, LaunchesOk, Finished, RunnerFinished, SavesFinished,
         HasReport, VerdictOf, DigestOf, Sound;
  }

  lemma SaveStep(sum: Receipt -> string, w: World, c: nat, outcome: SaveOutcome)
    requires WorldInv(sum, w) && c in w.calls && w.calls[c].stage.Saving?
    ensures WorldInv(sum, Saved(w, c, outcome))
  {
    hide WorldInv, StageFits, Finished;
    var id, r := w.calls[c].id, w.calls[c].stage.receipt;
    var w' := Saved(w, c, outcome);
    SavingFinished(sum, w, c);
    if outcome == Refused || id in w.files {
      EndFits(sum, w, c);
      StageMoves(sum, w, c, w.calls[c].(stage := Ended));
    } else {
      var w1 := w.(files := w'.files, saved := w'.saved);
      FileAppears(sum, w, id, w'.files[id], w'.saved);
      EndFits(sum, w1, c);
      PlainFits(sum, w1, c, Loading);
      StageMoves(sum, w1, c, w'.calls[c]);
    }
  }

  lemma SavingFinished(sum: Receipt -> string, w: World, c: nat)
    requires WorldInv(sum, w) && c in w.calls && w.calls[c].stage.Saving?
    ensures Finished(sum, w.sys, w.workers, w.calls[c].id)
    ensures w.calls[c].stage.receipt == w.workers[w.calls[c].id].command.receipt
  {
    hide Shape, Runner.SystemInv, Linked, Configured, WorkersOk, LaunchesOk, VerdictsBased, Settled, HasReport, RunnerFinished,
         SavedFinished, ReadsOk;
  }

  // ---- commands -------------------------------------------------------------

  lemma HonestStill(sum: Receipt -> string, workers: map<Id, Worker>, id: Id, k: Worker, d: Data)
    requires Shape(sum, workers, d) && !Exits(workers, id)
    ensures Shape(sum, workers[id := k], d)
  {
    hide Inv, VerdictsClosed, LocalOps, LocalAttempts, LocalTasks, DigestOf;
    forall e | e in d.evidence
      ensures Honest(sum, workers[id := k], d.evidence[e])
    {
      assert Honest(sum, workers, d.evidence[e]);
    }
  }

  lemma FinishedElsewhere(sum: Receipt -> string, sys: Runner.System, workers: map<Id, Worker>, id: Id, k: Worker)
    requires !Exits(workers, id)
    ensures forall x :: Finished(sum, sys, workers, x) ==>
              Finished(sum, sys, workers[id := k], x) && workers[id := k][x] == workers[x]
    ensures forall x :: Exits(workers, x) ==> Exits(workers[id := k], x)
  {
    hide Settled, HasReport, DigestOf;
  }

  /** A command that had not produced its receipt moves on. */
  lemma WorkerMoves(sum: Receipt -> string, w: World, id: Id, k: Worker, launched: seq<Id>)
    requires WorldInv(sum, w) && !Exits(w.workers, id)
    requires WorkerOk(w.sys.started, w.sys.d.evidence, id, k) && LaunchesOk(launched, w.workers[id := k])
    ensures WorldInv(sum, w.(workers := w.workers[id := k], launched := launched))
  {
    hide Shape, Runner.SystemInv, Linked, Configured, LaunchesOk, Finished, VerdictsBased, ReadsOk, WorkerOk;
    HonestStill(sum, w.workers, id, k, w.sys.d);
    FinishedElsewhere(sum, w.sys, w.workers, id, k);
  }

  lemma LaunchStep(sum: Receipt -> string, w: World, id: Id)
    requires WorldInv(sum, w) && id in w.workers && w.workers[id].command.Waiting?
    ensures WorldInv(sum, Commands(w, id, Launched).(launched := w.launched + [id]))
  {
    hide WorldInv, LaunchesOk, WorkerOk;
    WorkerFacts(sum, w, id);
    LaunchesOnce(w.launched, w.workers, id);
    SameWorker(w.sys.started, w.sys.d.evidence, id, w.workers[id], Launched);
    WorkerMoves(sum, w, id, w.workers[id].(command := Launched), w.launched + [id]);
  }

  lemma WorkerFacts(sum: Receipt -> string, w: World, id: Id)
    requires WorldInv(sum, w) && id in w.workers
    ensures WorkerOk(w.sys.started, w.sys.d.evidence, id, w.workers[id]) && LaunchesOk(w.launched, w.workers)
  {
    hide Shape, Runner.SystemInv, Linked, Configured, LaunchesOk, VerdictsBased, ReadsOk, WorkerOk, RunnerFinished,
         SavesFinished, SavedFinished;
  }

  lemma LaunchesOnce(launched: seq<Id>, workers: map<Id, Worker>, id: Id)
    requires LaunchesOk(launched, workers) && id in workers && workers[id].command.Waiting?
    ensures LaunchesOk(launched + [id], workers[id := workers[id].(command := Launched)])
  {
    assert id !in launched;
  }

  lemma SameWorker(started: seq<Id>, evidence: map<Id, Evidence>, id: Id, k: Worker, command: Command)
    requires WorkerOk(started, evidence, id, k)
    requires command.Exited? ==> Sound(id, command.receipt) && command.receipt.config == k.config
    ensures WorkerOk(started, evidence, id, k.(command := command))
  {
    hide Sound, IntentStored;
  }

  lemma ExitStep(sum: Receipt -> string, w: World, id: Id, exit: nat, bytes: nat, hash: string, same: bool, finished: Time)
    requires WorldInv(sum, w) && id in w.workers && w.workers[id].command.Launched?
    requires bytes <= 64 * 1024 && ValidDigest(hash) && finished != ZERO_TIME
    ensures WorldInv(sum, Commands(w, id, Exited(Receipted(w, id, exit, bytes, hash, same, finished))))
  {
    hide WorldInv, LaunchesOk, IntentStored, ValidDigest;
    WorkerFacts(sum, w, id);
    var r := Receipted(w, id, exit, bytes, hash, same, finished);
    SameWorker(w.sys.started, w.sys.d.evidence, id, w.workers[id], Exited(r));
    SameLaunches(w.launched, w.workers, id, w.workers[id].(command := Exited(r)));
    WorkerMoves(sum, w, id, w.workers[id].(command := Exited(r)), w.launched);
  }

  lemma SameLaunches(launched: seq<Id>, workers: map<Id, Worker>, id: Id, k: Worker)
    requires LaunchesOk(launched, workers) && id in workers && !workers[id].command.Waiting? && !k.command.Waiting?
    ensures LaunchesOk(launched, workers[id := k])
  {
  }
}
