/** The local check: one command run for one task, as durable steps on the store
    and a create-once receipt file, with a crash possible between any two of them. */
module LocalCheck {
  import opened Basics
  import opened Records
  import opened Storage
  import opened Decisions
  import History
  import Runner

  // ---- names ----------------------------------------------------------------

  const WORKER := "local-check-executor"
  const VERIFY_POLICY := "local-process-exit/v1"

  function Op(id: Id): Id { "op_" + id }
  function Att(id: Id): Id { "att_" + id }
  function Lease(id: Id): Id { "lease_" + id }
  function Intent(id: Id): Id { "intent_" + id }
  function Observed(id: Id): Id { "observed_" + id }
  function Verified(id: Id): Id { "verified_" + id }
  function Judgement(id: Id): Id { "verification_" + id }
  function TargetRef(id: Id): string { "local-check/" + id }

  /** `idPattern`. */
  predicate ValidId(id: Id) {
    && 1 <= |id| <= 64 && IsAlnum(id[0])
    && forall i :: 0 <= i < |id| ==> IsAlnum(id[i]) || id[i] in {'_', '-'}
  }

  predicate IsAlnum(c: char) {
    'a' <= c <= 'z' || 'A' <= c <= 'Z' || '0' <= c <= '9'
  }

  /** Sixty-four hexadecimal digits. */
  predicate ValidDigest(s: string) {
    |s| == 64 && forall i :: 0 <= i < 64 ==> '0' <= s[i] <= '9' || 'a' <= s[i] <= 'f' || 'A' <= s[i] <= 'F'
  }

  // ---- receipts -------------------------------------------------------------

  datatype Receipt = Receipt(
    version: nat, task: Id, operation: Id, attempt: Id, lease: Id, generation: nat, config: string,
    exit: int, outputBytes: int, outputHash: string, inputsMatch: bool, finished: Time)

  /** A receipt file is created once; a crash may leave it torn. */
  datatype File = Torn | Whole(receipt: Receipt)

  /** What a receipt must say to be about task `id` at all. */
  predicate Sound(id: Id, r: Receipt) {
    && r.version == 1 && r.task == id && r.operation == Op(id) && r.attempt == Att(id) && r.lease == Lease(id)
    && r.generation == 1 && ValidDigest(r.config) && ValidDigest(r.outputHash)
    && 0 <= r.outputBytes <= 64 * 1024 && r.exit >= 0 && r.finished != ZERO_TIME
  }

  predicate GoodReceipt(id: Id, r: Receipt, now: Time) {
    Sound(id, r) && r.finished <= now + SECOND
  }

  function LoadReceipt(files: map<Id, File>, id: Id, now: Time): Result<Receipt> {
    if id in files && files[id].Whole? && GoodReceipt(id, files[id].receipt, now) then Ok(files[id].receipt) else Err(NoReceipt)
  }

  predicate Clean(r: Receipt) {
    r.exit == 0 && r.inputsMatch
  }

  function VerdictOf(r: Receipt): Verdict {
    if Clean(r) then Satisfied else NotSatisfiedTerminal
  }

  function SummaryOf(r: Receipt): string {
    if Clean(r) then "selected command exited zero; selected source bytes matched"
    else "selected command failed or selected source bytes changed"
  }

  // ---- what a check writes --------------------------------------------------

  function DescriptorOf(id: Id, workspace: string): Descriptor {
    Descriptor(Op(id), id, "project.check", TargetRef(id), Mutation, ["local-workspace/" + workspace], IdempotencyUnknown,
               VERIFY_POLICY, "operator-local-check/v1")
  }

  function IntentRecord(id: Id, config: string, at: Time): Evidence {
    Evidence(Intent(id), id, Op(id), "", PolicyDecision, Runner.CONTROLLER, at, TargetRef(id), "operator-selected local check",
             "", "sha256:" + config)
  }

  function RequestFor(id: Id, revision: nat, issuedAt: Time, deadline: Time): Runner.Request {
    Runner.Request("offer_" + id, Op(id), Att(id), Lease(id), "", "corr_" + id, revision, issuedAt, deadline)
  }

  function VerdictEnvelope(id: Id, r: Receipt, digest: string): Envelope {
    Envelope(PROTOCOL_VERSION, Verified(id), Observation, "verification.completed", id, Op(id), r.attempt, "corr_" + id, "",
             Runner.CONTROLLER, "verifier", r.finished, None, None, Payload(digest, true), Payload("", true))
  }

  function ObservedRecord(id: Id, r: Receipt, digest: string, at: Time): Evidence {
    Evidence(Observed(id), id, Op(id), r.attempt, ProcessObservation, Runner.CONTROLLER, at, TargetRef(id), SummaryOf(r),
             "receipts/" + id + ".json", digest)
  }

  function VerificationOf(id: Id, r: Receipt, at: Time): Verification {
    Verification(Judgement(id), Op(id), r.attempt, VERIFY_POLICY, [Observed(id)], VerdictOf(r), false, SummaryOf(r), at,
                 Runner.CONTROLLER)
  }

  function VerdictDecisions(id: Id, r: Receipt, digest: string, revision: nat, at: Time): seq<Decision> {
    [DoRegisterEvidence(ObservedRecord(id, r, digest, at)), DoApplyVerification(Op(id), revision, VerificationOf(id, r, at), at)]
  }

  // ---- reading the proof ----------------------------------------------------

  /** `sum` is the hex SHA-256 of a receipt's JSON encoding. */
  function DigestOf(sum: Receipt -> string, r: Receipt): string {
    "sha256:" + sum(r)
  }

  predicate IsIntent(e: Evidence, id: Id, r: Receipt) {
    e.id == Intent(id) && e.source == Runner.CONTROLLER && e.digest == "sha256:" + r.config
  }

  predicate IsReport(e: Evidence, r: Receipt, digest: string) {
    e.kind == WorkerReport && e.attemptId == r.attempt && e.source == WORKER && e.digest == digest
  }

  predicate HasIntent(evidence: map<Id, Evidence>, id: Id, r: Receipt) {
    exists k :: k in evidence && evidence[k].operationId == Op(id) && IsIntent(evidence[k], id, r)
  }

  predicate HasReport(evidence: map<Id, Evidence>, id: Id, r: Receipt, digest: string) {
    exists k :: k in evidence && evidence[k].operationId == Op(id) && IsReport(evidence[k], r, digest)
  }

  predicate OwnsLease(attempts: map<Id, Attempt>, r: Receipt) {
    && r.attempt in attempts
    && attempts[r.attempt].owner == WORKER && attempts[r.attempt].leaseId == r.lease
    && attempts[r.attempt].generation == r.generation
  }

  predicate Awaits(op: Operation, id: Id, r: Receipt) {
    && op.state == Verifying && op.descriptor.targetRef == TargetRef(id)
    && op.descriptor.verificationPolicy == VERIFY_POLICY && op.active == r.attempt
  }

  predicate Proven(sum: Receipt -> string, d: Data, id: Id, r: Receipt) {
    OwnsLease(d.attempts, r) && HasIntent(d.evidence, id, r) && HasReport(d.evidence, id, r, DigestOf(sum, r))
  }

  /** The evidence loop of `verify`. */
  method FindProof(evs: seq<Evidence>, id: Id, r: Receipt, digest: string) returns (foundIntent: bool, foundReport: bool)
    ensures foundIntent <==> exists i :: 0 <= i < |evs| && IsIntent(evs[i], id, r)
    ensures foundReport <==> exists i :: 0 <= i < |evs| && IsReport(evs[i], r, digest)
  {
    foundIntent, foundReport := false, false;
    for i := 0 to |evs|
      invariant foundIntent <==> exists j :: 0 <= j < i && IsIntent(evs[j], id, r)
      invariant foundReport <==> exists j :: 0 <= j < i && IsReport(evs[j], r, digest)
    {
      var e := evs[i];
      if e.id == Intent(id) && e.source == Runner.CONTROLLER && e.digest == "sha256:" + r.config {
        foundIntent := true;
      }
      if e.kind == WorkerReport && e.attemptId == r.attempt && e.source == WORKER && e.digest == digest {
        foundReport := true;
      }
    }
  }

  // ---- an undisturbed recovery ----------------------------------------------

  /** The clock readings of one recovery, in the order it takes them. */
  datatype Clock = Clock(load: Time, judge: Time, store: Time, close: Time)

  function Finalized(d: Data, id: Id, at: Time): Result<Data> {
    var task :- Get(d.tasks, id);
    if Terminal(task.state) then Ok(d) else FinalizeTask(d, id, task.revision, at)
  }

  function Judged(sum: Receipt -> string, d: Data, id: Id, r: Receipt, revision: nat, judge: Time, store: Time): Result<Data> {
    var digest := DigestOf(sum, r);
    var (d', _) :- History.ProcessMessage(d, store, VerdictEnvelope(id, r, digest), VerdictDecisions(id, r, digest, revision, judge));
    Ok(d')
  }

  /** `Recover`, without its final `status`. */
  function Recovered(sum: Receipt -> string, d: Data, files: map<Id, File>, id: Id, k: Clock): Result<Data> {
    var r :- LoadReceipt(files, id, k.load);
    var op :- Get(d.ops, Op(id));
    if op.state in {Succeeded, Failed} then Finalized(d, id, k.close)
    else if !Awaits(op, id, r) || !Proven(sum, d, id, r) then Err(NoReceipt)
    else
      var d' :- Judged(sum, d, id, r, op.revision, k.judge, k.store);
      Finalized(d', id, k.close)
  }

  datatype Report = Report(task: TaskState, operation: OperationState, receipt: Option<Receipt>)

  predicate Matched(evidence: map<Id, Evidence>, id: Id, digest: string) {
    && Observed(id) in evidence && evidence[Observed(id)].operationId == Op(id)
    && evidence[Observed(id)].source == Runner.CONTROLLER && evidence[Observed(id)].digest == digest
  }

  /** `status`: a verdict is reported only with the receipt it was based on. */
  function Status(sum: Receipt -> string, d: Data, files: map<Id, File>, id: Id, now: Time): Result<Report> {
    var task :- Get(d.tasks, id);
    var op :- Get(d.ops, Op(id));
    if op.state in {Succeeded, Failed} then
      var r :- LoadReceipt(files, id, now);
      if !Matched(d.evidence, id, DigestOf(sum, r)) then Err(NoReceipt) else Ok(Report(task.state, op.state, Some(r)))
    else Ok(Report(task.state, op.state, None))
  }

  // ---- the system -----------------------------------------------------------

  datatype Command = Waiting | Launched | Exited(receipt: Receipt)

  /** The worker goroutine of a check: it lives on when its call has gone. */
  datatype Worker = Worker(config: string, generation: nat, command: Command)

  datatype Stage =
    | Fresh | Creating | Describing | Intending | Arming | Offering | InExecution | Saving(receipt: Receipt)
    | Loading | Reading(receipt: Receipt) | Comparing(receipt: Receipt, revision: nat)
    | Judging(receipt: Receipt, revision: nat) | Closing | Finalizing(revision: nat) | Ended

  /** A call of `Check` or of `Recover`; one that crashes takes no further step. */
  datatype Call = Call(id: Id, config: string, workspace: string, stage: Stage)

  /** `launched` lists the command starts, `saved` the tasks whose check completed
      its receipt file. */
  datatype World = World(
    sys: Runner.System, calls: map<nat, Call>, workers: map<Id, Worker>, files: map<Id, File>,
    launched: seq<Id>, saved: set<Id>)

  const START := World(Runner.IDLE, map[], map[], map[], [], {})

  datatype SaveOutcome = Refused | TornWrite | Unsynced | Synced

  datatype Step =
    | Check(c: nat, id: Id, config: string, workspace: string)
    | LookUp(c: nat)
    | Create(c: nat, at: Time, ack: Runner.Ack)
    | Describe(c: nat, at: Time, ack: Runner.Ack)
    | Intend(c: nat, at: Time, ack: Runner.Ack)
    | Arm(c: nat, at: Time, ack: Runner.Ack)
    | Execute(c: nat, issuedAt: Time, deadline: Time)
    | Drive(c: nat, step: Runner.Step)
    | Launch(id: Id)
    | Exit(id: Id, exit: nat, outputBytes: nat, outputHash: string, inputsMatch: bool, finished: Time)
    | Adopt(c: nat)
    | Save(c: nat, outcome: SaveOutcome)
    | Plant(id: Id, file: File)
    | Recover(c: nat, id: Id)
    | Load(c: nat, now: Time)
    | Read(c: nat)
    | Compare(c: nat)
    | Judge(c: nat, at: Time, now: Time, ack: Runner.Ack)
    | Close(c: nat)
    | Finalize(c: nat, at: Time, ack: Runner.Ack)

  function Write(d: Data, c: Decision, ack: Runner.Ack): (Data, bool) {
    match Decide(d, 0, c)
    case Err(_) => (d, false)
    case Ok(d') =>
      match ack
      case Acknowledged => (d', true)
      case LostAck => (d', false)
      case Aborted => (d, false)
  }

  predicate At(w: World, c: nat, stage: Stage) {
    c in w.calls && w.calls[c].stage == stage
  }

  /** Steps of the runner that `Execute` takes for call `c`. */
  predicate OfCall(step: Runner.Step, c: nat) {
    !step.Call? && !step.Elsewhere? && step.c == c
  }

  predicate HasExited(w: World, id: Id) {
    id in w.workers && w.workers[id].command.Exited?
  }

  predicate Enabled(sum: Receipt -> string, w: World, step: Step) {
    match step
    case Check(c, id, config, _) => c !in w.calls && ValidId(id) && ValidDigest(config)
    case LookUp(c) => At(w, c, Fresh)
    case Create(c, _, _) => At(w, c, Creating)
    case Describe(c, _, _) => At(w, c, Describing)
    case Intend(c, _, _) => At(w, c, Intending)
    case Arm(c, _, _) => At(w, c, Arming)
    case Execute(c, _, _) => At(w, c, Offering) && !Runner.In(w.sys, c)
    case Drive(c, step) =>
      && At(w, c, InExecution) && OfCall(step, c) && Runner.Enabled(w.sys, step)
      && (step.Finish? && !step.failed ==> HasExited(w, w.calls[c].id))
      && (step.Report? ==>
            && HasExited(w, w.calls[c].id)
            && step.digest == DigestOf(sum, w.workers[w.calls[c].id].command.receipt))
    case Launch(id) => id in w.workers && w.workers[id].command.Waiting?
    case Exit(id, _, bytes, hash, _, finished) =>
      id in w.workers && w.workers[id].command.Launched? && bytes <= 64 * 1024 && ValidDigest(hash) && finished != ZERO_TIME
    case Adopt(c) => At(w, c, InExecution) && Runner.In(w.sys, c) && w.sys.calls[c].Returned?
    case Save(c, _) => c in w.calls && w.calls[c].stage.Saving?
    case Plant(id, _) => id !in w.files
    case Recover(c, id) => c !in w.calls && ValidId(id)
    case Load(c, _) => At(w, c, Loading)
    case Read(c) => c in w.calls && w.calls[c].stage.Reading?
    case Compare(c) => c in w.calls && w.calls[c].stage.Comparing?
    case Judge(c, _, _, _) => c in w.calls && w.calls[c].stage.Judging?
    case Close(c) => At(w, c, Closing)
    case Finalize(c, _, _) => c in w.calls && w.calls[c].stage.Finalizing?
  }

  function Goes(w: World, c: nat, stage: Stage): World
    requires c in w.calls
  {
    w.(calls := w.calls[c := w.calls[c].(stage := stage)])
  }

  /** A write transaction of call `c`, which goes on only when it was acknowledged. */
  function Writes(w: World, c: nat, decision: Decision, ack: Runner.Ack, next: Stage): World
    requires c in w.calls
  {
    var (d', told) := Write(w.sys.d, decision, ack);
    Goes(w.(sys := w.sys.(d := d')), c, if told then next else Ended)
  }

  ghost function Drives(w: World, c: nat, step: Runner.Step): World
    requires c in w.calls && Runner.Enabled(w.sys, step)
  {
    var w' := w.(sys := Runner.Act(w.sys, step));
    if step.Start? && Runner.In(w.sys, step.c) && w.sys.calls[step.c].Gated? then
      w'.(workers := w.workers[w.calls[c].id := Worker(w.calls[c].config, w.sys.calls[step.c].job.generation, Waiting)])
    else w'
  }

  function Receipted(w: World, id: Id, exit: nat, bytes: nat, hash: string, same: bool, finished: Time): Receipt
    requires id in w.workers
  {
    Receipt(1, id, Op(id), Att(id), Lease(id), w.workers[id].generation, w.workers[id].config, exit, bytes, hash, same, finished)
  }

  function Commands(w: World, id: Id, command: Command): World
    requires id in w.workers
  {
    w.(workers := w.workers[id := w.workers[id].(command := command)])
  }

  function Saved(w: World, c: nat, outcome: SaveOutcome): World
    requires c in w.calls && w.calls[c].stage.Saving?
  {
    var id, r := w.calls[c].id, w.calls[c].stage.receipt;
    if outcome == Refused || id in w.files then Goes(w, c, Ended)
    else if outcome == TornWrite then Goes(w.(files := w.files[id := Torn]), c, Ended)
    else
      Goes(w.(files := w.files[id := Whole(r)], saved := w.saved + {id}), c, if outcome == Synced then Loading else Ended)
  }

  function LooksUp(w: World, c: nat): Stage
    requires c in w.calls
  {
    if w.calls[c].id in w.sys.d.tasks then Ended else Creating
  }

  function Adopts(w: World, c: nat): Stage
    requires c in w.calls && Runner.In(w.sys, c)
  {
    var id := w.calls[c].id;
    if w.sys.calls[c] == Runner.Returned(Runner.ReportedBack(true)) && HasExited(w, id)
    then Saving(w.workers[id].command.receipt) else Ended
  }

  function Loads(w: World, c: nat, now: Time): Stage
    requires c in w.calls
  {
    var r := LoadReceipt(w.files, w.calls[c].id, now);
    if r.Ok? then Reading(r.value) else Ended
  }

  function Compares(sum: Receipt -> string, w: World, c: nat): Stage
    requires c in w.calls && w.calls[c].stage.Comparing?
  {
    var s := w.calls[c].stage;
    if Proven(sum, w.sys.d, w.calls[c].id, s.receipt) then Judging(s.receipt, s.revision) else Ended
  }

  function Closes(w: World, c: nat): Stage
    requires c in w.calls
  {
    var id := w.calls[c].id;
    if id in w.sys.d.tasks && !Terminal(w.sys.d.tasks[id].state) then Finalizing(w.sys.d.tasks[id].revision) else Ended
  }

  function Reads(w: World, c: nat): Stage
    requires c in w.calls && w.calls[c].stage.Reading?
  {
    var id, r := w.calls[c].id, w.calls[c].stage.receipt;
    if Op(id) !in w.sys.d.ops then Ended
    else
      var op := w.sys.d.ops[Op(id)];
      if op.state in {Succeeded, Failed} then Closing
      else if Awaits(op, id, r) then Comparing(r, op.revision)
      else Ended
  }

  function Judges(sum: Receipt -> string, w: World, c: nat, at: Time, now: Time, ack: Runner.Ack): World
    requires c in w.calls && w.calls[c].stage.Judging?
  {
    var id, r := w.calls[c].id, w.calls[c].stage.receipt;
    var digest := DigestOf(sum, r);
    var (d', learned) := Runner.Deliver(w.sys.d, now, VerdictEnvelope(id, r, digest),
                                        VerdictDecisions(id, r, digest, w.calls[c].stage.revision, at), ack);
    Goes(w.(sys := w.sys.(d := d')), c, if learned.Some? then Closing else Ended)
  }

  ghost function Act(sum: Receipt -> string, w: World, step: Step): World
    requires Enabled(sum, w, step)
  {
    match step
    case Check(c, id, config, workspace) => w.(calls := w.calls[c := Call(id, config, workspace, Fresh)])
    case LookUp(c) => Goes(w, c, LooksUp(w, c))
    case Create(c, at, ack) => Writes(w, c, DoCreateTask(w.calls[c].id, at), ack, Describing)
    case Describe(c, at, ack) =>
      Writes(w, c, DoCreateOperation(DescriptorOf(w.calls[c].id, w.calls[c].workspace), at), ack, Intending)
    case Intend(c, at, ack) =>
      Writes(w, c, DoRegisterEvidence(IntentRecord(w.calls[c].id, w.calls[c].config, at)), ack, Arming)
    case Arm(c, at, ack) => Writes(w, c, DoMarkReady(Op(w.calls[c].id), 1, at), ack, Offering)
    case Execute(c, issuedAt, deadline) =>
      Goes(w.(sys := Runner.Act(w.sys, Runner.Call(c, RequestFor(w.calls[c].id, 2, issuedAt, deadline), WORKER))), c, InExecution)
    case Drive(c, step) => Drives(w, c, step)
    case Launch(id) => Commands(w, id, Launched).(launched := w.launched + [id])
    case Exit(id, exit, bytes, hash, same, finished) =>
      Commands(w, id, Exited(Receipted(w, id, exit, bytes, hash, same, finished)))
    case Adopt(c) => Goes(w, c, Adopts(w, c))
    case Save(c, outcome) => Saved(w, c, outcome)
    case Plant(id, file) => w.(files := w.files[id := file])
    case Recover(c, id) => w.(calls := w.calls[c := Call(id, "", "", Loading)])
    case Load(c, now) => Goes(w, c, Loads(w, c, now))
    case Read(c) => Goes(w, c, Reads(w, c))
    case Compare(c) => Goes(w, c, Compares(sum, w, c))
    case Judge(c, at, now, ack) => Judges(sum, w, c, at, now, ack)
    case Close(c) => Goes(w, c, Closes(w, c))
    case Finalize(c, at, ack) => Writes(w, c, DoFinalizeTask(w.calls[c].id, w.calls[c].stage.revision, at), ack, Ended)
  }

  ghost predicate Runnable(sum: Receipt -> string, w: World, steps: seq<Step>)
    decreases |steps|
  {
    steps == [] || (Enabled(sum, w, steps[0]) && Runnable(sum, Act(sum, w, steps[0]), steps[1..]))
  }

  ghost function Run(sum: Receipt -> string, w: World, steps: seq<Step>): World
    requires Runnable(sum, w, steps)
    decreases |steps|
  {
    if steps == [] then w else Run(sum, Act(sum, w, steps[0]), steps[1..])
  }
}
