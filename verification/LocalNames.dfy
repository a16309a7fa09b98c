/** The identifiers of local checks: every record and message bears the name of its
    task, so a task that is unknown has left no name behind. */
module LocalNames {
  import opened Basics
  import opened Records
  import opened Storage
  import opened Decisions
  import opened Invariant
  import opened Preservation
  import opened LocalCheck
  import opened LocalStore
  import opened CrashSafety
  import opened Driving
  import Delivering
  import History
  import Runner
  import LocalGuarantees

  // ---- names ----------------------------------------------------------------

  /** A name up to its first slash. */
  function Stem(s: string): string {
    if s == "" || s[0] == '/' then "" else [s[0]] + Stem(s[1..])
  }

  lemma {:induction false} StemStops(a: string, rest: string)
    requires '/' !in a
    ensures Stem(a + "/" + rest) == a && Stem(a) == a
    decreases |a|
  {
    if a == "" {
      assert (a + "/" + rest)[0] == '/';
    } else {
      StemStops(a[1..], rest);
      assert (a + "/" + rest)[1..] == a[1..] + "/" + rest;
      assert a == [a[0]] + a[1..];
    }
  }

  function Offer(t: Id): Id { "offer_" + t }

  /** The name `k` was made for task `t`. */
  predicate Bears(k: string, t: Id) {
    Stem(k) in {Intent(t), Observed(t), Verified(t), Att(t), Offer(t)}
  }

  lemma BearsOne(k: string, a: Id, b: Id)
    requires Bears(k, a) && Bears(k, b)
    ensures a == b
  {
    hide Stem;
    Prefixes(a);
    Prefixes(b);
  }

  /** The first two characters of a stem tell its kind, and the rest its task. */
  lemma Prefixes(t: Id)
    ensures Intent(t)[..2] == "in" && Observed(t)[..2] == "ob" && Verified(t)[..2] == "ve" && Att(t)[..2] == "at" && Offer(t)[..2] == "of"
    ensures Intent(t)[7..] == t && Observed(t)[9..] == t && Verified(t)[9..] == t && Att(t)[4..] == t && Offer(t)[6..] == t
  {
  }

  lemma NamesOf(t: Id)
    requires ValidId(t)
    ensures forall rest :: Bears(Att(t) + "/" + rest, t) && Bears(Offer(t) + "/" + rest, t)
    ensures Bears(Intent(t), t) && Bears(Observed(t), t) && Bears(Verified(t), t) && Bears(Offer(t), t)
  {
    hide Stem;
    StemStops(Intent(t), "");
    StemStops(Observed(t), "");
    StemStops(Verified(t), "");
    forall rest
      ensures Bears(Att(t) + "/" + rest, t) && Bears(Offer(t) + "/" + rest, t)
    {
      StemStops(Att(t), rest);
      StemStops(Offer(t), rest);
    }
    StemStops(Offer(t), "");
  }

  // ---- the store ------------------------------------------------------------

  ghost predicate Named(d: Data) {
    && (forall t :: t in d.tasks ==> ValidId(t))
    && (forall k :: k in d.evidence ==> Bears(k, d.evidence[k].taskId))
    && (forall k :: k in d.messages ==> d.messages[k].taskId in d.tasks && Bears(k, d.messages[k].taskId))
  }

  lemma EvidenceTask(d: Data, k: Id)
    requires Inv(d) && k in d.evidence
    ensures d.evidence[k].operationId in d.ops && d.evidence[k].taskId in d.tasks
    ensures d.ops[d.evidence[k].operationId].descriptor.taskId == d.evidence[k].taskId
  {
    hide TasksOk, WorkOk, GraphInv, VerificationsOk, RevocationsOk, ProofsOk, ReservationsSound, ReservationsComplete, MessagesOk,
         ValidEvidence, ValidDescriptor;
    assert EvidenceRecordOk(d.ops, d.attempts, k, d.evidence[k]);
    assert OperationOk(d.tasks, d.evidence[k].operationId, d.ops[d.evidence[k].operationId]);
  }

  /** Nothing bears the name of an unknown task. */
  lemma UnknownIsFresh(d: Data, id: Id)
    requires Inv(d) && Named(d) && id !in d.tasks
    ensures forall k :: Bears(k, id) ==> k !in d.evidence && k !in d.messages
  {
    hide Inv, Bears;
    forall k | Bears(k, id)
      ensures k !in d.evidence && k !in d.messages
    {
      if k in d.evidence {
        EvidenceTask(d, k);
        BearsOne(k, d.evidence[k].taskId, id);
      }
      if k in d.messages {
        BearsOne(k, d.messages[k].taskId, id);
      }
    }
  }

  /** A decision that names what it writes after its task. */
  predicate Fitting(d: Data, c: Decision) {
    && (c.DoCreateTask? ==> ValidId(c.task))
    && (c.DoRegisterMessage? ==> c.env.taskId in d.tasks && Bears(c.env.messageId, c.env.taskId))
    && (c.DoRegisterEvidence? || c.DoRecordWorkerReport? || c.DoInvalidateAttempt? ==> Bears(c.record.id, c.record.taskId))
  }

  lemma StillNamed(d: Data, d': Data, c: Decision)
    requires Named(d) && Keeps(d, d') && Adds(d, d', c) && Fitting(d, c) && (c.DoFinalizeTask? ==> c.task in d.tasks)
    requires c.DoRegisterMessage? ==>
               d'.messages == d.messages
               || (c.env.messageId in d'.messages && d'.messages[c.env.messageId].taskId == c.env.taskId)
    ensures Named(d')
  {
    hide Inv, OpsAfter, Bears, ValidId, OperationsEvolve, AttemptsEvolve, AttemptsAge, ActivesAge, OutcomesStay;
    assert d.tasks.Keys <= d'.tasks.Keys;
    forall k | k in d'.messages
      ensures d'.messages[k].taskId in d'.tasks && Bears(k, d'.messages[k].taskId)
    {
      if k in d.messages {
        assert d'.messages[k] == d.messages[k];
      } else {
        assert k in d'.messages.Keys && k == c.env.messageId;
      }
    }
  }

  lemma MessageTask(d: Data, now: Time, env: Envelope)
    requires RegisterMessage(d, now, env).Ok?
    ensures var d' := RegisterMessage(d, now, env).value.0;
            d'.messages == d.messages || (env.messageId in d'.messages && d'.messages[env.messageId].taskId == env.taskId)
  {
    hide ValidEnvelope, Acceptable;
  }

  lemma NamesStep(sum: Receipt -> string, workers: map<Id, Worker>, d: Data, now: Time, c: Decision)
    requires Inv(d) && Local(sum, workers, d) && (Honestly(sum, workers, c) || Concludes(c)) && Decide(d, now, c).Ok?
    requires Named(d) && Fitting(d, c)
    ensures var d' := Decide(d, now, c).value; Inv(d') && Local(sum, workers, d') && Named(d') && d.tasks.Keys <= d'.tasks.Keys
  {
    hide Inv, Local, Keeps, Decide, OpsAfter, Honestly, Concludes, Named, Fitting;
    HonestStep(sum, workers, d, now, c);
    if c.DoRegisterMessage? {
      DecidesMessage(d, now, c);
      MessageTask(d, now, c.env);
    }
    Finalizes(d, now, c);
    StillNamed(d, Decide(d, now, c).value, c);
  }

  lemma Finalizes(d: Data, now: Time, c: Decision)
    requires Decide(d, now, c).Ok?
    ensures c.DoFinalizeTask? ==> c.task in d.tasks
  {
    hide HasPending;
  }

  lemma DecidesMessage(d: Data, now: Time, c: Decision)
    requires c.DoRegisterMessage? && Decide(d, now, c).Ok?
    ensures RegisterMessage(d, now, c.env).Ok? && Decide(d, now, c).value == RegisterMessage(d, now, c.env).value.0
  {
    hide RegisterMessage;
  }

  ghost predicate AllFitting(sum: Receipt -> string, workers: map<Id, Worker>, cs: seq<Decision>) {
    forall c :: c in cs ==>
      && (Honestly(sum, workers, c) || Concludes(c)) && !c.DoRegisterMessage? && !c.DoCreateTask?
      && (c.DoRegisterEvidence? || c.DoRecordWorkerReport? || c.DoInvalidateAttempt? ==> Bears(c.record.id, c.record.taskId))
  }

  lemma {:induction false} NamesSteps(sum: Receipt -> string, workers: map<Id, Worker>, d: Data, now: Time, cs: seq<Decision>)
    requires Inv(d) && Local(sum, workers, d) && Named(d) && AllFitting(sum, workers, cs) && DecideAll(d, now, cs).Ok?
    ensures Named(DecideAll(d, now, cs).value)
    decreases |cs|
  {
    hide Inv, Local, Decide, Named, Honestly, Concludes, Bears;
    if cs != [] {
      assert Fitting(d, cs[0]) && cs[0] in cs;
      NamesStep(sum, workers, d, now, cs[0]);
      NamesSteps(sum, workers, Decide(d, now, cs[0]).value, now, cs[1..]);
    }
  }

  lemma DeliveryNamed(sum: Receipt -> string, workers: map<Id, Worker>, d: Data, now: Time, env: Envelope, cs: seq<Decision>,
                      ack: Runner.Ack)
    requires Inv(d) && Local(sum, workers, d) && Named(d) && AllFitting(sum, workers, cs)
    requires env.taskId in d.tasks && Bears(env.messageId, env.taskId)
    ensures Named(Runner.Deliver(d, now, env, cs, ack).0)
  {
    hide Inv, Local, Named, RegisterMessage, DecideAll, AllFitting, Bears;
    if History.ProcessMessage(d, now, env, cs).Ok? {
      var (d1, duplicate) := RegisterMessage(d, now, env).value;
      var c := DoRegisterMessage(env);
      RegistersMessage(d, now, env);
      NamesStep(sum, workers, d, now, c);
      if !duplicate {
        NamesSteps(sum, workers, d1, now, cs);
      }
    }
  }

  lemma WriteNamed(sum: Receipt -> string, workers: map<Id, Worker>, d: Data, c: Decision, ack: Runner.Ack)
    requires Inv(d) && Local(sum, workers, d) && Named(d) && Honestly(sum, workers, c) && Fitting(d, c)
    ensures Named(Write(d, c, ack).0)
  {
    hide Inv, Local, Named, Decide, Honestly, Fitting;
    if Decide(d, 0, c).Ok? {
      NamesStep(sum, workers, d, 0, c);
    }
  }

  // ---- the runner's records -------------------------------------------------

  lemma RunnerBears(j: Runner.Job, id: Id)
    requires JobOf(j, id) && ValidId(id)
    ensures Bears(j.request.messageId, id) && Bears(j.request.messageId + "/rejected", id)
    ensures Bears(j.request.attemptId + "/accepted", id) && Bears(Runner.ResultId(j), id)
    ensures Bears(j.request.attemptId + "/lost", id) && j.descriptor.taskId == id
    ensures forall beats :: Bears(Runner.BeatId(j, beats), id)
  {
    hide Bears, ValidId, Runner.Decimal;
    NamesOf(id);
    Slashed(Att(id));
    Slashed(Offer(id));
    forall beats
      ensures Bears(Runner.BeatId(j, beats), id)
    {
      assert Runner.BeatId(j, beats) == Att(id) + "/" + ("heartbeat/" + Runner.Decimal(beats));
    }
  }

  lemma Slashed(a: string)
    ensures a + "/accepted" == a + "/" + "accepted" && a + "/result" == a + "/" + "result"
    ensures a + "/lost" == a + "/" + "lost" && a + "/rejected" == a + "/" + "rejected"
  {
  }

  lemma OfferFitting(sum: Receipt -> string, workers: map<Id, Worker>, j: Runner.Job, id: Id, denied: bool, at: Time)
    requires JobOf(j, id) && ValidId(id)
    ensures AllFitting(sum, workers, Runner.OfferDecisions(j, denied, at))
  {
    hide Bears, ValidId, Honestly, Unmarked;
    OfferRoutine(sum, workers, j, id, denied, at);
    RunnerBears(j, id);
  }

  lemma BeatFitting(sum: Receipt -> string, workers: map<Id, Worker>, j: Runner.Job, id: Id, beats: nat, at: Time)
    requires JobOf(j, id) && ValidId(id)
    ensures AllFitting(sum, workers, Runner.BeatDecisions(j, beats, at))
  {
    hide Bears, ValidId, Honestly, Unmarked, Runner.Decimal;
    BeatRoutine(sum, workers, j, id, beats, at);
    RunnerBears(j, id);
  }

  lemma ResultFitting(sum: Receipt -> string, workers: map<Id, Worker>, j: Runner.Job, id: Id, at: Time, digest: string)
    requires JobOf(j, id) && ValidId(id) && Exits(workers, id) && digest == DigestOf(sum, workers[id].command.receipt)
    ensures AllFitting(sum, workers, Runner.ResultDecisions(j, at, digest))
  {
    hide Bears, ValidId, Honestly, Unmarked, DigestOf;
    ResultRoutine(sum, workers, j, id, at, digest);
    RunnerBears(j, id);
  }

  // ---- the world ------------------------------------------------------------

  ghost predicate NamedWorld(w: World) {
    Named(w.sys.d) && forall c :: c in w.calls ==> ValidId(w.calls[c].id)
  }

  lemma OperationTask(sum: Receipt -> string, workers: map<Id, Worker>, d: Data, k: Id, id: Id)
    requires Shape(sum, workers, d) && k in d.evidence && d.evidence[k].operationId == Op(id)
    ensures id in d.tasks
  {
    hide Inv, VerdictsClosed, LocalOps, LocalAttempts, LocalTasks, HonestEvidence, Described;
    EvidenceTask(d, k);
    OpDescribed(d.ops, id);
    assert d.ops[Op(id)].descriptor.taskId == id by {
      LocalGuarantees.TaskOfDescribed(d.ops[Op(id)].descriptor, id);
    }
  }

  lemma DrivenTask(sum: Receipt -> string, w: World, c: nat)
    requires WorldInv(sum, w) && At(w, c, InExecution)
    ensures w.calls[c].id in w.sys.d.tasks
  {
    hide Shape, Runner.SystemInv, Linked, WorkersOk, LaunchesOk, VerdictsBased, RunnerFinished, SavesFinished, SavedFinished,
         ReadsOk;
    assert CallConfigured(w.sys.d.evidence, w.calls[c]);
    OperationTask(sum, w.workers, w.sys.d, Intent(w.calls[c].id), w.calls[c].id);
  }

  lemma JudgedTask(sum: Receipt -> string, w: World, c: nat)
    requires WorldInv(sum, w) && c in w.calls && w.calls[c].stage.Judging?
    ensures w.calls[c].id in w.sys.d.tasks
  {
    hide Shape, Runner.SystemInv, Linked, Configured, WorkersOk, LaunchesOk, VerdictsBased, RunnerFinished, SavesFinished,
         SavedFinished, IsReport;
    assert CallReads(sum, w.sys.d.evidence, w.files, w.calls[c]);
    var r := w.calls[c].stage.receipt;
    var k :| k in w.sys.d.evidence && w.sys.d.evidence[k].operationId == Op(w.calls[c].id)
             && IsReport(w.sys.d.evidence[k], r, DigestOf(sum, r));
    OperationTask(sum, w.workers, w.sys.d, k, w.calls[c].id);
  }

  lemma LocalShape(sum: Receipt -> string, w: World)
    requires WorldInv(sum, w)
    ensures Inv(w.sys.d) && Local(sum, w.workers, w.sys.d) && Shape(sum, w.workers, w.sys.d)
  {
    hide WorldInv, Inv, Local, VerdictsClosed, Runner.SystemInv;
    WorldShape(sum, w);
  }

  lemma WrittenNamed(sum: Receipt -> string, w: World, c: nat, decision: Decision, ack: Runner.Ack, next: Stage)
    requires WorldInv(sum, w) && NamedWorld(w) && c in w.calls && Honestly(sum, w.workers, decision)
    requires Fitting(w.sys.d, decision)
    ensures NamedWorld(Writes(w, c, decision, ack, next))
  {
    hide WorldInv, Inv, Local, Named, Write, Honestly, Fitting, ValidId, Shape;
    LocalShape(sum, w);
    WriteNamed(sum, w.workers, w.sys.d, decision, ack);
  }

  lemma LossNamed(sum: Receipt -> string, w: World, c: nat, now: Time, late: bool, why: string, ack: Runner.Ack)
    requires WorldInv(sum, w) && NamedWorld(w) && c in w.calls && Runner.In(w.sys, c) && w.sys.calls[c].Withdrawing?
    ensures Named(Runner.AfterWithdraw(w.sys, c, now, late, why, ack).d)
  {
    hide WorldInv, Inv, Local, Named, InvalidateAttempt, Honestly, Unmarked, Bears, ValidId, Shape, JobOf, Described, Settled;
    LocalShape(sum, w);
    CallJob(sum, w, c);
    var j := w.sys.calls[c].job;
    var loss := if late then LeaseExpired else OwnershipLost;
    RunnerBears(j, w.calls[c].id);
    LossSpares(sum, w, c, w.sys.calls[c].revision, loss, now, why);
    var decision := Loss(j, w.sys.calls[c].revision, loss, now, why);
    if InvalidateAttempt(w.sys.d, j.descriptor.id, w.sys.calls[c].revision, j.request.attemptId, loss,
                         Runner.LossRecord(j, now, why), now).Ok? {
      NamesStep(sum, w.workers, w.sys.d, now, decision);
    }
  }

  lemma DriveNamed(sum: Receipt -> string, w: World, c: nat, step: Runner.Step)
    requires WorldInv(sum, w) && NamedWorld(w) && At(w, c, InExecution) && Guarded(sum, w, c, step)
    ensures Named(Runner.Act(w.sys, step).d)
  {
    hide WorldInv, Inv, Local, Named, Shape, Runner.Deliver, Runner.AfterWithdraw, AllFitting, Bears, ValidId, Described, DigestOf,
         Runner.RetryDenied, Runner.BeatId, Runner.OfferDecisions, Runner.BeatDecisions, Runner.ResultDecisions;
    CallJob(sum, w, c);
    LocalShape(sum, w);
    DrivenTask(sum, w, c);
    var id := w.calls[c].id;
    var p := w.sys.calls[c];
    match step
    case Offer(_, now, at, body, ack) =>
      var j := Runner.Job(p.request, p.descriptor, p.worker, 0);
      RunnerBears(j, id);
      OfferFitting(sum, w.workers, j, id, p.denied, at);
      DeliveryNamed(sum, w.workers, w.sys.d, now, Runner.OfferEnvelope(j, body), Runner.OfferDecisions(j, p.denied, at), ack);
    case Gate(_, now, at, refused, ack) =>
      RunnerBears(p.job, id);
      BeatFitting(sum, w.workers, p.job, id, 0, at);
      DeliveryNamed(sum, w.workers, w.sys.d, now, Delivering.BeatEnvelope(p.job, 0, at), Runner.BeatDecisions(p.job, 0, at), ack);
    case Beat(_, now, at, ack) =>
      RunnerBears(p.job, id);
      BeatFitting(sum, w.workers, p.job, id, p.beats, at);
      DeliveryNamed(sum, w.workers, w.sys.d, now, Delivering.BeatEnvelope(p.job, p.beats, at),
                    Runner.BeatDecisions(p.job, p.beats, at), ack);
    case Report(_, now, at, digest, body, refused, ack) =>
      RunnerBears(p.job, id);
      ResultFitting(sum, w.workers, p.job, id, at, digest);
      DeliveryNamed(sum, w.workers, w.sys.d, now, Delivering.ReportEnvelope(p.job, at, body),
                    Runner.ResultDecisions(p.job, at, digest), ack);
    case Withdraw(_, now, late, why, ack) => LossNamed(sum, w, c, now, late, why, ack);
    case _ =>
  }

  lemma JudgeNamed(sum: Receipt -> string, w: World, c: nat, at: Time, now: Time, ack: Runner.Ack)
    requires WorldInv(sum, w) && NamedWorld(w) && c in w.calls && w.calls[c].stage.Judging?
    ensures NamedWorld(Judges(sum, w, c, at, now, ack))
  {
    hide WorldInv, Inv, Local, Named, Shape, Runner.Deliver, Bears, ValidId, VerdictOf, SummaryOf, DigestOf;
    LocalShape(sum, w);
    JudgedTask(sum, w, c);
    var id, r := w.calls[c].id, w.calls[c].stage.receipt;
    NamesOf(id);
    TwoVerdicts(r);
    var digest := DigestOf(sum, r);
    DeliveryNamed(sum, w.workers, w.sys.d, now, VerdictEnvelope(id, r, digest),
                  VerdictDecisions(id, r, digest, w.calls[c].stage.revision, at), ack);
  }

  /** The steps that write nothing to the store. */
  predicate Quiet(step: LocalCheck.Step) {
    !(step.Create? || step.Describe? || step.Intend? || step.Arm? || step.Drive? || step.Judge? || step.Finalize?)
  }

  /** The store and the tasks of the calls stay, but for a new call. */
  ghost predicate Stays(w: World, w': World) {
    && w'.sys.d == w.sys.d
    && forall c :: c in w'.calls ==> if c in w.calls then w'.calls[c].id == w.calls[c].id else ValidId(w'.calls[c].id)
  }

  lemma GoesStays(w: World, c: nat, stage: Stage)
    requires c in w.calls
    ensures Stays(w, Goes(w, c, stage))
  {
    hide ValidId;
  }

  lemma ArrivesStays(w: World, c: nat, call: LocalCheck.Call)
    requires c !in w.calls && ValidId(call.id)
    ensures Stays(w, w.(calls := w.calls[c := call]))
  {
    hide ValidId;
  }

  lemma CommandStays(w: World, id: Id, command: Command)
    requires id in w.workers
    ensures Stays(w, Commands(w, id, command))
    ensures Stays(w, Commands(w, id, command).(launched := w.launched + [id]))
  {
    hide ValidId;
  }

  lemma ExecuteStays(w: World, c: nat, q: Runner.Request)
    requires c in w.calls && !Runner.In(w.sys, c)
    ensures Runner.Enabled(w.sys, Runner.Call(c, q, WORKER))
    ensures Stays(w, Goes(w.(sys := Runner.Act(w.sys, Runner.Call(c, q, WORKER))), c, InExecution))
  {
    hide ValidId;
    Arrives(w.sys, c, q);
  }

  lemma SavedStays(w: World, c: nat, outcome: SaveOutcome)
    requires c in w.calls && w.calls[c].stage.Saving?
    ensures Stays(w, Saved(w, c, outcome))
  {
    hide ValidId;
  }

  lemma QuietStays(sum: Receipt -> string, w: World, step: LocalCheck.Step)
    requires LocalCheck.Enabled(sum, w, step) && Quiet(step)
    ensures Stays(w, LocalCheck.Act(sum, w, step))
  {
    hide Runner.Act, Runner.Enabled, ValidId, ValidDigest, DigestOf, Loads, Reads, Compares, Adopts, Closes, LooksUp, Receipted, RequestFor, Saved,
         Stays, Goes, Commands;
    match step
    case Check(c, id, config, workspace) => ArrivesStays(w, c, LocalCheck.Call(id, config, workspace, Fresh));
    case LookUp(c) => GoesStays(w, c, LooksUp(w, c));
    case Execute(c, issuedAt, deadline) => ExecuteStays(w, c, RequestFor(w.calls[c].id, 2, issuedAt, deadline));
    case Launch(id) => CommandStays(w, id, Launched);
    case Exit(id, exit, bytes, hash, same, finished) => CommandStays(w, id, Exited(Receipted(w, id, exit, bytes, hash, same, finished)));
    case Adopt(c) => GoesStays(w, c, Adopts(w, c));
    case Save(c, outcome) => SavedStays(w, c, outcome);
    case Plant(_, _) => PlantStays(w, LocalCheck.Act(sum, w, step));
    case Recover(c, id) => ArrivesStays(w, c, LocalCheck.Call(id, "", "", Loading));
    case Load(c, now) => GoesStays(w, c, Loads(w, c, now));
    case Read(c) => GoesStays(w, c, Reads(w, c));
    case Compare(c) => GoesStays(w, c, Compares(sum, w, c));
    case Close(c) => GoesStays(w, c, Closes(w, c));
  }

  lemma PlantStays(w: World, w': World)
    requires w'.sys == w.sys && w'.calls == w.calls
    ensures Stays(w, w')
  {
  }

  /** Every step names what it writes after its task. */
  lemma StepNames(sum: Receipt -> string, w: World, step: LocalCheck.Step)
    requires WorldInv(sum, w) && NamedWorld(w) && LocalCheck.Enabled(sum, w, step)
    ensures NamedWorld(LocalCheck.Act(sum, w, step))
  {
    hide WorldInv, Named, Writes, Judges, ValidId, DescriptorOf, IntentRecord, Drives, LocalCheck.Act, DigestOf;
    if Quiet(step) {
      QuietStays(sum, w, step);
    } else {
      WritingNames(sum, w, step);
    }
  }

  lemma WritingNames(sum: Receipt -> string, w: World, step: LocalCheck.Step)
    requires WorldInv(sum, w) && NamedWorld(w) && LocalCheck.Enabled(sum, w, step) && !Quiet(step)
    ensures NamedWorld(LocalCheck.Act(sum, w, step))
  {
    hide WorldInv, NamedWorld, Writes, Judges, DescriptorOf, IntentRecord, Drives, DigestOf, Runner.Act, Runner.Enabled;
    match step
    case Create(c, at, ack) => CreateNamed(sum, w, c, at, ack);
    case Describe(c, at, ack) => DescribeNamed(sum, w, c, at, ack);
    case Intend(c, at, ack) => IntendNamed(sum, w, c, at, ack);
    case Arm(c, at, ack) => WrittenNamed(sum, w, c, DoMarkReady(Op(w.calls[c].id), 1, at), ack, LocalCheck.Offering);
    case Drive(c, s) =>
      DriveNamed(sum, w, c, s);
      DrivesData(w, c, s);
    case Judge(c, at, now, ack) => JudgeNamed(sum, w, c, at, now, ack);
    case Finalize(c, at, ack) => WrittenNamed(sum, w, c, DoFinalizeTask(w.calls[c].id, w.calls[c].stage.revision, at), ack, Ended);
  }

  lemma CreateNamed(sum: Receipt -> string, w: World, c: nat, at: Time, ack: Runner.Ack)
    requires WorldInv(sum, w) && NamedWorld(w) && At(w, c, Creating)
    ensures NamedWorld(Writes(w, c, DoCreateTask(w.calls[c].id, at), ack, Describing))
  {
    hide WorldInv, Named, ValidId, Writes;
    WrittenNamed(sum, w, c, DoCreateTask(w.calls[c].id, at), ack, Describing);
  }

  lemma Arrives(sys: Runner.System, c: nat, q: Runner.Request)
    requires !Runner.In(sys, c)
    ensures Runner.Enabled(sys, Runner.Call(c, q, WORKER)) && Runner.Act(sys, Runner.Call(c, q, WORKER)).d == sys.d
  {
  }

  lemma DrivesData(w: World, c: nat, step: Runner.Step)
    requires c in w.calls && Runner.Enabled(w.sys, step)
    ensures Named(Runner.Act(w.sys, step).d) && NamedWorld(w) ==> NamedWorld(Drives(w, c, step))
  {
    hide Runner.Act, Runner.Enabled, Named, ValidId;
  }

  lemma DescribeNamed(sum: Receipt -> string, w: World, c: nat, at: Time, ack: Runner.Ack)
    requires WorldInv(sum, w) && NamedWorld(w) && At(w, c, Describing)
    ensures NamedWorld(Writes(w, c, DoCreateOperation(DescriptorOf(w.calls[c].id, w.calls[c].workspace), at), ack, Intending))
  {
    hide WorldInv, NamedWorld, Described;
    DescribedBy(w.calls[c].id, w.calls[c].workspace);
    WrittenNamed(sum, w, c, DoCreateOperation(DescriptorOf(w.calls[c].id, w.calls[c].workspace), at), ack, Intending);
  }

  lemma IntendNamed(sum: Receipt -> string, w: World, c: nat, at: Time, ack: Runner.Ack)
    requires WorldInv(sum, w) && NamedWorld(w) && At(w, c, Intending)
    ensures NamedWorld(Writes(w, c, DoRegisterEvidence(IntentRecord(w.calls[c].id, w.calls[c].config, at)), ack, Arming))
  {
    hide WorldInv, Named, ValidId, Bears;
    NamesOf(w.calls[c].id);
    WrittenNamed(sum, w, c, DoRegisterEvidence(IntentRecord(w.calls[c].id, w.calls[c].config, at)), ack, Arming);
  }

  lemma DescribedBy(id: Id, workspace: string)
    ensures Described(DescriptorOf(id, workspace), id)
  {
  }

  lemma {:induction false} RunNames(sum: Receipt -> string, w: World, steps: seq<LocalCheck.Step>)
    requires WorldInv(sum, w) && NamedWorld(w) && Runnable(sum, w, steps)
    ensures NamedWorld(LocalCheck.Run(sum, w, steps))
    decreases |steps|
  {
    hide WorldInv, NamedWorld, LocalCheck.Act, LocalCheck.Enabled;
    if steps != [] {
      StepNames(sum, w, steps[0]);
      LocalGuarantees.StepKeeps(sum, w, steps[0]);
      RunNames(sum, LocalCheck.Act(sum, w, steps[0]), steps[1..]);
    }
  }

  /** In every reachable world, every record bears the name of its task. */
  lemma ReachedNames(sum: Receipt -> string, steps: seq<LocalCheck.Step>, w: World)
    requires LocalGuarantees.Reached(sum, steps, w)
    ensures NamedWorld(w)
  {
    hide WorldInv, Runnable, LocalCheck.Run;
    LocalGuarantees.StartInv(sum);
    RunNames(sum, START, steps);
  }
}
