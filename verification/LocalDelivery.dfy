/** A local check that nothing disturbs delivers: it runs its command, keeps the
    receipt, and closes its task with the verdict of that receipt. */
module LocalDelivery {
  import opened Basics
  import opened Records
  import opened Storage
  import opened Decisions
  import opened Invariant
  import opened Preservation
  import opened Dispatching
  import opened LocalCheck
  import opened LocalStore
  import opened CrashSafety
  import opened Driving
  import opened LocalGuarantees
  import opened LocalNames
  import Delivering
  import Exactness
  import Guarantees
  import History
  import Runner

  // ---- clocks and command ---------------------------------------------------

  /** What a commit reads: the store's clock and the caller's. */
  datatype Moment = Moment(now: Time, at: Time)

  /** The clock readings of one check, in the order it takes them, the bodies of its
      messages, and what its command does. */
  datatype Schedule = Schedule(
    create: Time, describe: Time, intend: Time, arm: Time, issued: Time, deadline: Time,
    offer: Moment, terms: Payload, gate: Moment,
    exit: nat, bytes: nat, hash: string, inputsMatch: bool, finished: Time,
    report: Moment, body: Payload, recovery: Clock)

  function ReceiptOf(id: Id, config: string, k: Schedule): Receipt {
    Receipt(1, id, Op(id), Att(id), Lease(id), 1, config, k.exit, k.bytes, k.hash, k.inputsMatch, k.finished)
  }

  /** Every clock is set, every message is inside the replay window when it arrives,
      the report before its deadline, and the receipt is loaded after it was made. */
  predicate Timely(d: Data, k: Schedule) {
    && k.create != ZERO_TIME && k.describe != ZERO_TIME && k.intend != ZERO_TIME && k.arm != ZERO_TIME
    && k.issued != ZERO_TIME && k.offer.at != ZERO_TIME && k.terms.permitted && Delivering.InWindow(d, k.offer.now, k.issued)
    && k.gate.at != ZERO_TIME && Delivering.InWindow(d, k.gate.now, k.gate.at)
    && k.report.at != ZERO_TIME && k.body.permitted && Delivering.InWindow(d, k.report.now, k.report.at)
    && k.report.now != ZERO_TIME && k.deadline != ZERO_TIME && k.report.now < k.deadline
    && k.bytes <= 64 * 1024 && ValidDigest(k.hash) && k.finished != ZERO_TIME
    && k.finished <= k.recovery.load + SECOND && k.recovery.judge != ZERO_TIME
    && Delivering.InWindow(d, k.recovery.store, k.finished) && k.recovery.close != ZERO_TIME
  }

  function Scope(workspace: string): string { "local-workspace/" + workspace }

  // ---- what an unknown task has left ----------------------------------------

  /** The names that a run of the check will take in the store. */
  predicate RunNamesFree(d: Data, id: Id) {
    && "offer_" + id !in d.messages && Att(id) + "/heartbeat/0" !in d.messages && Att(id) + "/result" !in d.messages
    && Att(id) + "/accepted" !in d.evidence && Att(id) + "/heartbeat/0" !in d.evidence && Att(id) + "/result" !in d.evidence
  }

  ghost predicate Unused(d: Data, id: Id) {
    && id !in d.tasks && Op(id) !in d.ops && Att(id) !in d.attempts && !LeaseTaken(d.attempts, Lease(id))
    && Intent(id) !in d.evidence && RunNamesFree(d, id)
  }

  lemma OperationsHaveTasks(sum: Receipt -> string, workers: map<Id, Worker>, d: Data, id: Id)
    requires Shape(sum, workers, d) && Op(id) in d.ops
    ensures id in d.tasks
  {
    hide Inv, Local, VerdictsClosed;
    TaskStored(sum, workers, d, id);
  }

  /** An unknown task of a local store has left nothing. */
  lemma UnknownIsUnused(sum: Receipt -> string, workers: map<Id, Worker>, d: Data, id: Id)
    requires Shape(sum, workers, d) && Named(d) && ValidId(id) && id !in d.tasks
    ensures Unused(d, id)
  {
    hide Shape, Named, Bears, ValidId;
    ShapeInv(sum, workers, d);
    UnknownIsFresh(d, id);
    FreshNames(id);
    if Op(id) in d.ops {
      OperationsHaveTasks(sum, workers, d, id);
    }
    NoAttempt(sum, workers, d, id);
  }

  lemma FreshNames(id: Id)
    requires ValidId(id)
    ensures Bears("offer_" + id, id) && Bears(Att(id) + "/heartbeat/0", id) && Bears(Att(id) + "/result", id)
    ensures Bears(Att(id) + "/accepted", id) && Bears(Intent(id), id)
  {
    hide Bears, ValidId;
    NamesOf(id);
    Slashed(Att(id));
    assert Att(id) + "/heartbeat/0" == Att(id) + "/" + "heartbeat/0";
    assert Offer(id) == "offer_" + id;
  }

  lemma NoAttempt(sum: Receipt -> string, workers: map<Id, Worker>, d: Data, id: Id)
    requires Shape(sum, workers, d) && Op(id) !in d.ops
    ensures Att(id) !in d.attempts && !LeaseTaken(d.attempts, Lease(id))
  {
    hide Inv, VerdictsClosed, LocalTasks, HonestEvidence, Described, Staged;
    forall k | k in d.attempts
      ensures k != Att(id) && d.attempts[k].leaseId != Lease(id)
    {
      assert LocalAttempt(d.ops, k, d.attempts[k]);
      var t := d.ops[d.attempts[k].operationId].descriptor.taskId;
      assert LocalOp(d.attempts[k].operationId, d.ops[d.attempts[k].operationId]);
      AttsDiffer(t, id);
      assert Lease(t)[6..] == t && Lease(id)[6..] == id;
    }
  }

  // ---- preparing ------------------------------------------------------------

  /** The operation is ready for its first attempt, and nothing stands in its way. */
  ghost predicate Armed(d: Data, id: Id, workspace: string) {
    && Op(id) in d.ops && d.ops[Op(id)].descriptor == DescriptorOf(id, workspace) && d.ops[Op(id)].state == Ready
    && d.ops[Op(id)].revision == 2 && d.ops[Op(id)].generation == 0
    && Att(id) !in d.attempts && !LeaseTaken(d.attempts, Lease(id)) && Scope(workspace) !in d.reservations
    && RunNamesFree(d, id)
  }

  lemma DescriptorValid(id: Id, workspace: string)
    requires id != ""
    ensures ValidDescriptor(DescriptorOf(id, workspace))
  {
    hide Blank, Trim;
    NotBlank("project.check");
    NotBlank(TargetRef(id));
    NotBlank(VERIFY_POLICY);
    NotBlank("operator-local-check/v1");
    NotBlank(Scope(workspace));
    assert DistinctScopes([Scope(workspace)]);
  }

  lemma DecisionInv(d: Data, c: Decision)
    requires Inv(d) && Decide(d, 0, c).Ok?
    ensures Inv(Decide(d, 0, c).value)
  {
    hide Inv, Decide, Keeps;
    DecisionKeeps(d, 0, c);
    KeepsInv(d, Decide(d, 0, c).value);
  }

  lemma IntentRecorded(d: Data, id: Id, config: string, at: Time)
    requires Inv(d) && id != "" && at != ZERO_TIME && Intent(id) !in d.evidence
    requires Op(id) in d.ops && d.ops[Op(id)].descriptor.taskId == id && id in d.tasks && !Terminal(d.tasks[id].state)
    ensures var e := IntentRecord(id, config, at);
            RegisterEvidence(d, e) == Ok(d.(evidence := d.evidence[Intent(id) := e]))
  {
    hide Inv, Blank;
    Exactness.EvidenceExactly(d, IntentRecord(id, config, at));
    NotBlank(TargetRef(id));
  }

  /** The four writes before the offer, one after the other. */
  lemma PrepareData(d: Data, id: Id, config: string, workspace: string, k: Schedule)
    returns (d1: Data, d2: Data, d3: Data, d4: Data)
    requires Inv(d) && id != "" && Unused(d, id) && Scope(workspace) !in d.reservations
    requires k.create != ZERO_TIME && k.describe != ZERO_TIME && k.intend != ZERO_TIME && k.arm != ZERO_TIME
    ensures Decide(d, 0, DoCreateTask(id, k.create)) == Ok(d1)
    ensures Decide(d1, 0, DoCreateOperation(DescriptorOf(id, workspace), k.describe)) == Ok(d2)
    ensures Decide(d2, 0, DoRegisterEvidence(IntentRecord(id, config, k.intend))) == Ok(d3)
    ensures Decide(d3, 0, DoMarkReady(Op(id), 1, k.arm)) == Ok(d4)
    ensures Armed(d4, id, workspace) && d4.messageFloor == d.messageFloor
  {
    hide Inv, CreateTask, CreateOperation, RegisterEvidence, MarkReady, ValidDescriptor, LeaseTaken;
    DescriptorValid(id, workspace);
    Exactness.TaskCreatedExactly(d, id, k.create);
    d1 := CreateTask(d, id, k.create).value;
    DecisionInv(d, DoCreateTask(id, k.create));
    Exactness.OperationCreatedExactly(d1, DescriptorOf(id, workspace), k.describe);
    d2 := CreateOperation(d1, DescriptorOf(id, workspace), k.describe).value;
    DecisionInv(d1, DoCreateOperation(DescriptorOf(id, workspace), k.describe));
    IntentRecorded(d2, id, config, k.intend);
    d3 := RegisterEvidence(d2, IntentRecord(id, config, k.intend)).value;
    DecisionInv(d2, DoRegisterEvidence(IntentRecord(id, config, k.intend)));
    Exactness.ReadyExactly(d3, Op(id), 1, k.arm);
    d4 := MarkReady(d3, Op(id), 1, k.arm).value;
    assert Intent(id)[0] == 'i' && forall s: string :: (Att(id) + s)[0] == 'a';
  }

  // ---- runs of one call -----------------------------------------------------

  /** A step of the runner that is not refused, with its commit acknowledged. */
  predicate Agreed(step: Runner.Step) {
    match step
    case Check(_, refused) => !refused
    case Offer(_, _, _, _, ack) => ack == Runner.Acknowledged
    case Gate(_, _, _, refused, ack) => !refused && ack == Runner.Acknowledged
    case Start(_) => true
    case ReadOperation(_) => true
    case Finish(_, failed) => !failed
    case Report(_, _, _, _, _, refused, ack) => !refused && ack == Runner.Acknowledged
    case _ => false
  }

  /** A step of call `c` or of the command of task `id`, with its commit acknowledged. */
  predicate Undisturbed(step: LocalCheck.Step, c: nat, id: Id) {
    match step
    case Check(x, _, _, _) => x == c
    case LookUp(x) => x == c
    case Create(x, _, ack) => x == c && ack == Runner.Acknowledged
    case Describe(x, _, ack) => x == c && ack == Runner.Acknowledged
    case Intend(x, _, ack) => x == c && ack == Runner.Acknowledged
    case Arm(x, _, ack) => x == c && ack == Runner.Acknowledged
    case Execute(x, _, _) => x == c
    case Drive(x, s) => x == c && OfCall(s, c) && Agreed(s)
    case Launch(t) => t == id
    case Exit(t, _, _, _, _, _) => t == id
    case Adopt(x) => x == c
    case Save(x, outcome) => x == c && outcome == Synced
    case Plant(_, _) => false
    case Recover(_, _) => false
    case Load(x, _) => x == c
    case Read(x) => x == c
    case Compare(x) => x == c
    case Judge(x, _, _, ack) => x == c && ack == Runner.Acknowledged
    case Close(x) => x == c
    case Finalize(x, _, ack) => x == c && ack == Runner.Acknowledged
  }

  ghost predicate AllUndisturbed(steps: seq<LocalCheck.Step>, c: nat, id: Id) {
    forall s :: s in steps ==> Undisturbed(s, c, id)
  }

  /** Undisturbed steps of the call lead from one world to the other. */
  ghost predicate Leads(sum: Receipt -> string, c: nat, id: Id, w: World, w': World) {
    exists steps :: Runs(sum, c, id, w, steps, w')
  }

  ghost predicate Runs(sum: Receipt -> string, c: nat, id: Id, w: World, steps: seq<LocalCheck.Step>, w': World) {
    AllUndisturbed(steps, c, id) && Runnable(sum, w, steps) && LocalCheck.Run(sum, w, steps) == w'
  }

  lemma {:induction false} Append(sum: Receipt -> string, w: World, a: seq<LocalCheck.Step>, b: seq<LocalCheck.Step>)
    requires Runnable(sum, w, a) && Runnable(sum, LocalCheck.Run(sum, w, a), b)
    ensures Runnable(sum, w, a + b) && LocalCheck.Run(sum, w, a + b) == LocalCheck.Run(sum, LocalCheck.Run(sum, w, a), b)
    decreases |a|
  {
    hide LocalCheck.Enabled, LocalCheck.Act;
    if a == [] {
      assert [] + b == b;
    } else {
      Append(sum, LocalCheck.Act(sum, w, a[0]), a[1..], b);
      assert (a + b)[1..] == a[1..] + b;
    }
  }

  lemma LeadsOn(sum: Receipt -> string, c: nat, id: Id, w: World, w1: World, w2: World)
    requires Leads(sum, c, id, w, w1) && Leads(sum, c, id, w1, w2)
    ensures Leads(sum, c, id, w, w2)
  {
    hide Runnable, LocalCheck.Run, Undisturbed;
    var a :| Runs(sum, c, id, w, a, w1);
    var b :| Runs(sum, c, id, w1, b, w2);
    Append(sum, w, a, b);
    assert Runs(sum, c, id, w, a + b, w2);
  }

  /** One step more, and the invariant still holds. */
  lemma Steps(sum: Receipt -> string, c: nat, id: Id, w: World, step: LocalCheck.Step)
    requires WorldInv(sum, w) && LocalCheck.Enabled(sum, w, step) && Undisturbed(step, c, id)
    ensures Leads(sum, c, id, w, LocalCheck.Act(sum, w, step)) && WorldInv(sum, LocalCheck.Act(sum, w, step))
  {
    hide WorldInv, LocalCheck.Enabled, LocalCheck.Act, Undisturbed;
    StepKeeps(sum, w, step);
    NoStep(sum, LocalCheck.Act(sum, w, step));
    Prepend(sum, w, step, []);
    assert Runs(sum, c, id, w, [step] + [], LocalCheck.Act(sum, w, step));
  }

  /** An acknowledged write that goes through. */
  lemma Commits(sum: Receipt -> string, w: World, c: nat, decision: Decision, next: Stage, d': Data)
    requires c in w.calls && Decide(w.sys.d, 0, decision) == Ok(d')
    ensures Writes(w, c, decision, Runner.Acknowledged, next) == Goes(w.(sys := w.sys.(d := d')), c, next)
  {
    hide Decide;
  }

  function With(w: World, d: Data, c: nat, call: LocalCheck.Call): World {
    w.(sys := w.sys.(d := d), calls := w.calls[c := call])
  }

  lemma Again(w: World, d: Data, c: nat, call: LocalCheck.Call)
    ensures forall d', call' :: With(With(w, d, c, call), d', c, call') == With(w, d', c, call')
  {
    forall d', call'
      ensures With(With(w, d, c, call), d', c, call') == With(w, d', c, call')
    {
      assert w.calls[c := call][c := call'] == w.calls[c := call'];
    }
  }

  lemma Begins(sum: Receipt -> string, w: World, c: nat, id: Id, config: string, workspace: string)
    requires WorldInv(sum, w) && c !in w.calls && ValidId(id) && ValidDigest(config) && id !in w.sys.d.tasks
    ensures var w' := With(w, w.sys.d, c, LocalCheck.Call(id, config, workspace, Creating));
            Leads(sum, c, id, w, w') && WorldInv(sum, w')
  {
    hide WorldInv, Leads, ValidId, ValidDigest;
    var w1 := With(w, w.sys.d, c, LocalCheck.Call(id, config, workspace, Fresh));
    Steps(sum, c, id, w, Check(c, id, config, workspace));
    assert LocalCheck.Act(sum, w, Check(c, id, config, workspace)) == w1;
    Steps(sum, c, id, w1, LookUp(c));
    Again(w, w.sys.d, c, w1.calls[c]);
    assert Goes(w1, c, Creating) == With(w1, w.sys.d, c, LocalCheck.Call(id, config, workspace, Creating));
    LeadsOn(sum, c, id, w, w1, Goes(w1, c, Creating));
  }

  lemma Creates(sum: Receipt -> string, w: World, c: nat, at: Time, d': Data)
    requires WorldInv(sum, w) && At(w, c, Creating) && Decide(w.sys.d, 0, DoCreateTask(w.calls[c].id, at)) == Ok(d')
    ensures var w' := With(w, d', c, w.calls[c].(stage := Describing)); Leads(sum, c, w.calls[c].id, w, w') && WorldInv(sum, w')
  {
    hide WorldInv, Leads, Decide, Writes;
    Commits(sum, w, c, DoCreateTask(w.calls[c].id, at), Describing, d');
    Steps(sum, c, w.calls[c].id, w, Create(c, at, Runner.Acknowledged));
  }

  lemma Describes(sum: Receipt -> string, w: World, c: nat, at: Time, d': Data)
    requires WorldInv(sum, w) && At(w, c, Describing)
    requires Decide(w.sys.d, 0, DoCreateOperation(DescriptorOf(w.calls[c].id, w.calls[c].workspace), at)) == Ok(d')
    ensures var w' := With(w, d', c, w.calls[c].(stage := Intending)); Leads(sum, c, w.calls[c].id, w, w') && WorldInv(sum, w')
  {
    hide WorldInv, Leads, Decide, Writes, DescriptorOf;
    Commits(sum, w, c, DoCreateOperation(DescriptorOf(w.calls[c].id, w.calls[c].workspace), at), Intending, d');
    Steps(sum, c, w.calls[c].id, w, Describe(c, at, Runner.Acknowledged));
  }

  lemma Intends(sum: Receipt -> string, w: World, c: nat, at: Time, d': Data)
    requires WorldInv(sum, w) && At(w, c, Intending)
    requires Decide(w.sys.d, 0, DoRegisterEvidence(IntentRecord(w.calls[c].id, w.calls[c].config, at))) == Ok(d')
    ensures var w' := With(w, d', c, w.calls[c].(stage := Arming)); Leads(sum, c, w.calls[c].id, w, w') && WorldInv(sum, w')
  {
    hide WorldInv, Leads, Decide, Writes, IntentRecord;
    Commits(sum, w, c, DoRegisterEvidence(IntentRecord(w.calls[c].id, w.calls[c].config, at)), Arming, d');
    Steps(sum, c, w.calls[c].id, w, Intend(c, at, Runner.Acknowledged));
  }

  lemma Arms(sum: Receipt -> string, w: World, c: nat, at: Time, d': Data)
    requires WorldInv(sum, w) && At(w, c, Arming) && Decide(w.sys.d, 0, DoMarkReady(Op(w.calls[c].id), 1, at)) == Ok(d')
    ensures var w' := With(w, d', c, w.calls[c].(stage := LocalCheck.Offering));
            Leads(sum, c, w.calls[c].id, w, w') && WorldInv(sum, w')
  {
    hide WorldInv, Leads, Decide, Writes;
    Commits(sum, w, c, DoMarkReady(Op(w.calls[c].id), 1, at), LocalCheck.Offering, d');
    Steps(sum, c, w.calls[c].id, w, Arm(c, at, Runner.Acknowledged));
  }

  lemma WorldData(sum: Receipt -> string, w: World)
    requires WorldInv(sum, w)
    ensures Inv(w.sys.d) && Runner.SystemInv(w.sys) && Shape(sum, w.workers, w.sys.d)
  {
    hide WorldInv, Inv, Shape, Runner.SystemInv;
    WorldShape(sum, w);
    ShapeInv(sum, w.workers, w.sys.d);
  }

  /** From a world that knows nothing of the task, its call gets ready to make its
      offer. */
  lemma Prepares(sum: Receipt -> string, w: World, c: nat, id: Id, config: string, workspace: string, k: Schedule)
    returns (w': World)
    requires WorldInv(sum, w) && c !in w.calls && ValidId(id) && ValidDigest(config)
    requires Unused(w.sys.d, id) && Scope(workspace) !in w.sys.d.reservations && Timely(w.sys.d, k)
    ensures Leads(sum, c, id, w, w') && WorldInv(sum, w')
    ensures w' == With(w, w'.sys.d, c, LocalCheck.Call(id, config, workspace, LocalCheck.Offering))
    ensures Armed(w'.sys.d, id, workspace) && w'.sys.d.messageFloor == w.sys.d.messageFloor
  {
    hide WorldInv, Leads, Inv, Armed, Decide, ValidDigest, Shape, Runner.SystemInv, RunNamesFree, IntentRecord, DescriptorOf, LeaseTaken;
    WorldData(sum, w);
    var d1, d2, d3, d4 := PrepareData(w.sys.d, id, config, workspace, k);
    var w0 := With(w, w.sys.d, c, LocalCheck.Call(id, config, workspace, Creating));
    var w1 := With(w, d1, c, LocalCheck.Call(id, config, workspace, Describing));
    var w2 := With(w, d2, c, LocalCheck.Call(id, config, workspace, Intending));
    var w3 := With(w, d3, c, LocalCheck.Call(id, config, workspace, Arming));
    w' := With(w, d4, c, LocalCheck.Call(id, config, workspace, LocalCheck.Offering));
    Begins(sum, w, c, id, config, workspace);
    Again(w, w.sys.d, c, w0.calls[c]);
    Again(w, d1, c, w1.calls[c]);
    Again(w, d2, c, w2.calls[c]);
    Again(w, d3, c, w3.calls[c]);
    Creates(sum, w0, c, k.create, d1);
    Describes(sum, w1, c, k.describe, d2);
    Intends(sum, w2, c, k.intend, d3);
    Arms(sum, w3, c, k.arm, d4);
    LeadsOn(sum, c, id, w, w0, w1);
    LeadsOn(sum, c, id, w, w1, w2);
    LeadsOn(sum, c, id, w, w2, w3);
    LeadsOn(sum, c, id, w, w3, w');
  }

  // ---- the attempt ----------------------------------------------------------

  function JobFor(id: Id, workspace: string, k: Schedule, generation: nat): Runner.Job {
    Runner.Job(RequestFor(id, 2, k.issued, k.deadline), DescriptorOf(id, workspace), WORKER, generation)
  }

  lemma NobodyHolds(d: Data, s: string)
    requires Inv(d) && s !in d.reservations
    ensures forall other :: !Guarantees.HeldBy(d, s, other)
  {
    hide Inv;
    Guarantees.ReservationsExact(d, s);
  }

  lemma OfferFitsArmed(d: Data, id: Id, workspace: string, k: Schedule)
    requires Inv(d) && Armed(d, id, workspace) && Timely(d, k)
    ensures Delivering.Addressed(d, JobFor(id, workspace, k, 0))
    ensures Delivering.OfferFits(d, k.offer.now, JobFor(id, workspace, k, 0), k.terms, k.offer.at)
  {
    hide Inv, LeaseTaken, Delivering.InWindow, ValidDigest, Guarantees.HeldBy;
    NobodyHolds(d, Scope(workspace));
    assert DescriptorOf(id, workspace).conflictScope == [Scope(workspace)];
  }

  /** The attempt is running, and the names of its heartbeat and result are free. */
  ghost predicate Underway(d: Data, j: Runner.Job) {
    && Delivering.Addressed(d, j) && Guarantees.HasAuthority(d, Runner.ClaimOf(j))
    && d.ops[j.request.operationId].state == Executing && d.ops[j.request.operationId].revision == 3
    && Runner.ResultId(j) !in d.messages && Runner.ResultId(j) !in d.evidence
  }

  predicate BeatFree(d: Data, j: Runner.Job) {
    Runner.BeatId(j, 0) !in d.messages && Runner.BeatId(j, 0) !in d.evidence
  }

  lemma OfferedUnderway(d: Data, d': Data, id: Id, workspace: string, k: Schedule)
    requires Inv(d') && Armed(d, id, workspace)
    requires Delivering.OfferLeft(d, d', k.offer.now, JobFor(id, workspace, k, 0), k.terms, k.offer.at)
    ensures Underway(d', JobFor(id, workspace, k, 1)) && BeatFree(d', JobFor(id, workspace, k, 1))
    ensures d'.messageFloor == d.messageFloor
  {
    hide Inv, LeaseTaken, Guarantees.HasAuthority, Runner.OfferEnvelope;
    var j := JobFor(id, workspace, k, 1);
    Guarantees.AuthorityExact(d', Runner.ClaimOf(j));
    BeatName(j, id);
    assert "offer_" + id != Att(id) + "/heartbeat/0" && "offer_" + id != Att(id) + "/result" by {
      assert ("offer_" + id)[0] == 'o' && (Att(id) + "/heartbeat/0")[0] == 'a' && (Att(id) + "/result")[0] == 'a';
    }
    EndsDiffer(Att(id));
  }

  lemma BeatName(j: Runner.Job, id: Id)
    requires j.request.attemptId == Att(id)
    ensures Runner.BeatId(j, 0) == Att(id) + "/heartbeat/0" && Runner.ResultId(j) == Att(id) + "/result"
  {
    assert Runner.Decimal(0) == "0";
  }

  lemma EndsDiffer(a: string)
    ensures a + "/accepted" != a + "/heartbeat/0" && a + "/accepted" != a + "/result" && a + "/heartbeat/0" != a + "/result"
  {
    assert (a + "/accepted")[|a| + 1] == 'a' && (a + "/heartbeat/0")[|a| + 1] == 'h' && (a + "/result")[|a| + 1] == 'r';
  }

  /** A heartbeat leaves the attempt running. */
  lemma BeatenUnderway(d: Data, d': Data, id: Id, j: Runner.Job, now: Time, at: Time)
    requires Inv(d) && Inv(d') && Underway(d, j) && j.request.attemptId == Att(id)
    requires d' == Delivering.WithMessage(d, now, Delivering.BeatEnvelope(j, 0, at)).(
               evidence := d.evidence[Runner.BeatId(j, 0) :=
                             Runner.RecordOf(j, Runner.BeatId(j, 0), WorkerReport, j.worker, at, "heartbeat")])
    ensures Underway(d', j) && d'.messageFloor == d.messageFloor
  {
    hide Inv, Guarantees.HasAuthority, MessageOf;
    Guarantees.AuthorityExact(d, Runner.ClaimOf(j));
    Guarantees.AuthorityExact(d', Runner.ClaimOf(j));
    BeatName(j, id);
    EndsDiffer(Att(id));
  }

  /** A step that only the runner sees. */
  lemma Drivings(sum: Receipt -> string, w: World, c: nat, step: Runner.Step, s': Runner.System)
    requires WorldInv(sum, w) && At(w, c, InExecution) && OfCall(step, c) && Agreed(step)
    requires !step.Start? && !step.Finish? && !step.Report? && Runner.Enabled(w.sys, step) && s' == Runner.Act(w.sys, step)
    ensures Leads(sum, c, w.calls[c].id, w, w.(sys := s')) && WorldInv(sum, w.(sys := s'))
  {
    hide WorldInv, Leads, Runner.Act, Runner.Enabled, DigestOf;
    assert LocalCheck.Act(sum, w, Drive(c, step)) == w.(sys := s');
    Steps(sum, c, w.calls[c].id, w, Drive(c, step));
  }

  /** The call of the check, in a phase of the runner. */
  function Phased(w: World, c: nat, d: Data, p: Runner.Phase): World {
    w.(sys := w.sys.(d := d, calls := w.sys.calls[c := p]))
  }

  lemma PhasedAgain(w: World, c: nat, d: Data, p: Runner.Phase)
    ensures forall d', p' :: Phased(Phased(w, c, d, p), c, d', p') == Phased(w, c, d', p')
  {
    forall d', p'
      ensures Phased(Phased(w, c, d, p), c, d', p') == Phased(w, c, d', p')
    {
      assert w.sys.calls[c := p][c := p'] == w.sys.calls[c := p'];
    }
  }

  /** The check hands its request to the runner. */
  lemma Executes(sum: Receipt -> string, w: World, c: nat, issued: Time, deadline: Time)
    requires WorldInv(sum, w) && At(w, c, LocalCheck.Offering)
    ensures var w1 := With(w, w.sys.d, c, w.calls[c].(stage := InExecution));
            var w' := Phased(w1, c, w.sys.d, Runner.Called(RequestFor(w.calls[c].id, 2, issued, deadline), WORKER));
            Leads(sum, c, w.calls[c].id, w, w') && WorldInv(sum, w')
  {
    hide WorldInv, Leads, RequestFor;
    Unlinked(sum, w, c);
    CalledActs(w.sys, c, RequestFor(w.calls[c].id, 2, issued, deadline));
    Steps(sum, c, w.calls[c].id, w, LocalCheck.Execute(c, issued, deadline));
  }

  lemma CalledActs(s: Runner.System, c: nat, q: Runner.Request)
    requires !Runner.In(s, c)
    ensures Runner.Enabled(s, Runner.Call(c, q, WORKER))
    ensures Runner.Act(s, Runner.Call(c, q, WORKER)) == s.(calls := s.calls[c := Runner.Called(q, WORKER)])
  {
  }

  /** Reading the operation and checking the request changes only the phase. */
  lemma Checks(sum: Receipt -> string, w: World, c: nat, q: Runner.Request)
    requires WorldInv(sum, w) && At(w, c, InExecution) && Runner.In(w.sys, c) && w.sys.calls[c] == Runner.Called(q, WORKER)
    requires q.operationId in w.sys.d.ops && w.sys.d.ops[q.operationId].generation == 0
    ensures var w' := Phased(w, c, w.sys.d, Runner.Offering(q, w.sys.d.ops[q.operationId].descriptor, WORKER, false));
            Leads(sum, c, w.calls[c].id, w, w') && WorldInv(sum, w')
  {
    hide WorldInv, Leads, Runner.Act, Delivering.NamesGeneration;
    var seen := w.sys.d.ops[q.operationId];
    var w1 := Phased(w, c, w.sys.d, Runner.Checking(q, WORKER, seen));
    Delivering.ReadActs(w.sys, c);
    Drivings(sum, w, c, Runner.ReadOperation(c), w1.sys);
    Delivering.CheckExactly(w1.sys, c, false);
    PhasedAgain(w, c, w.sys.d, w1.sys.calls[c]);
    var w2 := Phased(w, c, w.sys.d, Runner.Offering(q, seen.descriptor, WORKER, false));
    assert w1.sys.calls[c := w2.sys.calls[c]] == w2.sys.calls;
    Drivings(sum, w1, c, Runner.Check(c, false), w2.sys);
    LeadsOn(sum, c, w.calls[c].id, w, w1, w2);
  }

  lemma Offers(sum: Receipt -> string, w: World, c: nat, id: Id, workspace: string, k: Schedule) returns (w': World)
    requires WorldInv(sum, w) && At(w, c, InExecution) && w.calls[c].id == id && Runner.In(w.sys, c)
    requires w.sys.calls[c] == Runner.Offering(RequestFor(id, 2, k.issued, k.deadline), DescriptorOf(id, workspace), WORKER, false)
    requires Armed(w.sys.d, id, workspace) && Timely(w.sys.d, k)
    ensures Leads(sum, c, id, w, w') && WorldInv(sum, w')
    ensures var j := JobFor(id, workspace, k, 1);
            w' == Phased(w, c, w'.sys.d, Runner.Accepted(j)) && Underway(w'.sys.d, j) && BeatFree(w'.sys.d, j)
    ensures w'.sys.d.messageFloor == w.sys.d.messageFloor
  {
    hide WorldInv, Leads, Runner.Act, Runner.AfterOffer, Delivering.OfferFits, Delivering.OfferLeft, Timely, Underway, BeatFree,
         Runner.SystemInv, Shape, Inv, DescriptorOf, RequestFor;
    WorldData(sum, w);
    OfferFitsArmed(w.sys.d, id, workspace, k);
    Delivering.OfferActs(w.sys, c, k.offer.now, k.offer.at, k.terms);
    Delivering.OfferIs(w.sys, c, k.offer.now, k.offer.at, k.terms, Runner.Acknowledged);
    var s' := Runner.AfterOffer(w.sys, c, k.offer.now, k.offer.at, k.terms, Runner.Acknowledged);
    w' := w.(sys := s');
    Drivings(sum, w, c, Runner.Offer(c, k.offer.now, k.offer.at, k.terms, Runner.Acknowledged), s');
    WorldData(sum, w');
    assert s'.calls[c] == Runner.Accepted(JobFor(id, workspace, k, 1)) by { ArmedOperation(w.sys.d, id, workspace, k); }
    OfferedUnderway(w.sys.d, s'.d, id, workspace, k);
  }

  lemma ArmedOperation(d: Data, id: Id, workspace: string, k: Schedule)
    requires Armed(d, id, workspace)
    ensures JobFor(id, workspace, k, 0).request.operationId == Op(id) && d.ops[Op(id)].generation == 0
  {
  }

  lemma Gates(sum: Receipt -> string, w: World, c: nat, j: Runner.Job, now: Time, at: Time) returns (w': World)
    requires WorldInv(sum, w) && At(w, c, InExecution) && Runner.In(w.sys, c) && w.sys.calls[c] == Runner.Accepted(j)
    requires Underway(w.sys.d, j) && BeatFree(w.sys.d, j) && at != ZERO_TIME && Delivering.InWindow(w.sys.d, now, at)
    requires j.request.attemptId == Att(w.calls[c].id)
    ensures Leads(sum, c, w.calls[c].id, w, w') && WorldInv(sum, w')
    ensures w' == Phased(w, c, w'.sys.d, Runner.Gated(j)) && Underway(w'.sys.d, j)
    ensures w'.sys.d.messageFloor == w.sys.d.messageFloor
  {
    hide WorldInv, Leads, Runner.Act, Guarantees.HasAuthority, Runner.SystemInv, Shape, Inv, MessageOf, Runner.RecordOf,
         Runner.BeatId, Delivering.BeatEnvelope, Delivering.InWindow;
    WorldData(sum, w);
    Delivering.GateActs(w.sys, c, now, at);
    var s' := Runner.Act(w.sys, Runner.Gate(c, now, at, false, Runner.Acknowledged));
    w' := w.(sys := s');
    Drivings(sum, w, c, Runner.Gate(c, now, at, false, Runner.Acknowledged), s');
    WorldData(sum, w');
    BeatenUnderway(w.sys.d, s'.d, w.calls[c].id, j, now, at);
  }

  // ---- the command ----------------------------------------------------------

  /** The runner starts the worker of the check, with its command still to be run. */
  lemma Starts(sum: Receipt -> string, w: World, c: nat, j: Runner.Job) returns (w': World)
    requires WorldInv(sum, w) && At(w, c, InExecution) && Runner.In(w.sys, c) && w.sys.calls[c] == Runner.Gated(j)
    requires j.generation == 1
    ensures Leads(sum, c, w.calls[c].id, w, w') && WorldInv(sum, w')
    ensures w' == Phased(w, c, w.sys.d, Runner.Dispatched(j, 1)).(
                    sys := w'.sys, workers := w.workers[w.calls[c].id := Worker(w.calls[c].config, 1, Waiting)])
    ensures w'.sys == Phased(w, c, w.sys.d, Runner.Dispatched(j, 1)).sys.(started := w'.sys.started)
  {
    hide WorldInv, Leads;
    StartedActs(w.sys, c);
    w' := LocalCheck.Act(sum, w, Drive(c, Runner.Start(c)));
    Steps(sum, c, w.calls[c].id, w, Drive(c, Runner.Start(c)));
  }

  lemma StartedActs(s: Runner.System, c: nat)
    requires Runner.In(s, c) && s.calls[c].Gated?
    ensures Runner.Enabled(s, Runner.Start(c))
    ensures Runner.Act(s, Runner.Start(c)) ==
            Runner.System(s.d, s.calls[c := Runner.Dispatched(s.calls[c].job, 1)], s.started + [s.calls[c].job.request.attemptId])
  {
  }

  /** The command runs and leaves its receipt with the worker. */
  lemma Commanded(sum: Receipt -> string, w: World, c: nat, id: Id, config: string, k: Schedule) returns (w': World)
    requires WorldInv(sum, w) && id in w.workers && w.workers[id] == Worker(config, 1, Waiting)
    requires k.bytes <= 64 * 1024 && ValidDigest(k.hash) && k.finished != ZERO_TIME
    ensures Leads(sum, c, id, w, w') && WorldInv(sum, w')
    ensures w' == w.(workers := w.workers[id := Worker(config, 1, Exited(ReceiptOf(id, config, k)))], launched := w.launched + [id])
  {
    hide WorldInv, Leads, ValidDigest;
    var w1 := Commands(w, id, Launched).(launched := w.launched + [id]);
    Steps(sum, c, id, w, Launch(id));
    Steps(sum, c, id, w1, Exit(id, k.exit, k.bytes, k.hash, k.inputsMatch, k.finished));
    w' := w.(workers := w.workers[id := Worker(config, 1, Exited(ReceiptOf(id, config, k)))], launched := w.launched + [id]);
    assert Commands(w1, id, Exited(Receipted(w1, id, k.exit, k.bytes, k.hash, k.inputsMatch, k.finished))) == w' by {
      assert w1.workers[id := w'.workers[id]] == w'.workers;
    }
    LeadsOn(sum, c, id, w, w1, w');
  }

  /** The worker is done, and the call goes on to report. */
  lemma Finishing(sum: Receipt -> string, w: World, c: nat, j: Runner.Job)
    requires WorldInv(sum, w) && At(w, c, InExecution) && Runner.In(w.sys, c) && w.sys.calls[c] == Runner.Dispatched(j, 1)
    requires HasExited(w, w.calls[c].id)
    ensures var w' := Phased(w, c, w.sys.d, Runner.Reporting(j)); Leads(sum, c, w.calls[c].id, w, w') && WorldInv(sum, w')
  {
    hide WorldInv, Leads;
    FinishActs(w.sys, c);
    Steps(sum, c, w.calls[c].id, w, Drive(c, Runner.Finish(c, false)));
  }

  lemma FinishActs(s: Runner.System, c: nat)
    requires Runner.In(s, c) && s.calls[c].Dispatched?
    ensures Runner.Enabled(s, Runner.Finish(c, false))
    ensures Runner.Act(s, Runner.Finish(c, false)) == s.(calls := s.calls[c := Runner.Reporting(s.calls[c].job)])
  {
  }

  lemma UnderwayFits(d: Data, j: Runner.Job, k: Schedule)
    requires Underway(d, j) && Timely(d, k) && j.request.deadline == k.deadline
    ensures Delivering.ReportFits(d, k.report.now, j, k.report.at, k.body)
  {
    hide Guarantees.HasAuthority, Delivering.InWindow, ValidDigest;
  }

  /** The report is applied, and the check is told so. */
  lemma Reports(sum: Receipt -> string, w: World, c: nat, j: Runner.Job, k: Schedule) returns (w': World)
    requires WorldInv(sum, w) && At(w, c, InExecution) && Runner.In(w.sys, c) && w.sys.calls[c] == Runner.Reporting(j)
    requires HasExited(w, w.calls[c].id) && Underway(w.sys.d, j) && Timely(w.sys.d, k) && j.request.deadline == k.deadline
    ensures Leads(sum, c, w.calls[c].id, w, w') && WorldInv(sum, w')
    ensures w' == Phased(w, c, w'.sys.d, Runner.Returned(Runner.ReportedBack(true)))
    ensures j.request.operationId in w'.sys.d.ops && w'.sys.d.ops[j.request.operationId].state == Verifying
    ensures w'.sys.d.messageFloor == w.sys.d.messageFloor
  {
    hide WorldInv, Leads, Runner.AfterReport, Delivering.ReportFits, Timely, Underway, Runner.SystemInv, Shape, Inv, DigestOf,
         Runner.ResultRecord, Delivering.ReportEnvelope;
    WorldData(sum, w);
    UnderwayFits(w.sys.d, j, k);
    AddressedUnderway(w.sys.d, j);
    var digest := DigestOf(sum, w.workers[w.calls[c].id].command.receipt);
    Delivering.ReportActs(w.sys, c, k.report.now, k.report.at, digest, k.body);
    var s' := Runner.AfterReport(w.sys, c, k.report.now, k.report.at, digest, k.body, Runner.Acknowledged);
    var step := Runner.Report(c, k.report.now, k.report.at, digest, k.body, false, Runner.Acknowledged);
    ReportIs(w.sys, c, step, s');
    w' := w.(sys := s');
    assert LocalCheck.Act(sum, w, Drive(c, step)) == w' by { DriveIs(w, c, step); }
    Steps(sum, c, w.calls[c].id, w, Drive(c, step));
  }

  lemma AddressedUnderway(d: Data, j: Runner.Job)
    requires Underway(d, j)
    ensures Delivering.Addressed(d, j)
  {
    hide Guarantees.HasAuthority;
  }

  lemma ReportIs(s: Runner.System, c: nat, step: Runner.Step, s': Runner.System)
    requires Runner.In(s, c) && s.calls[c].Reporting? && step.Report? && step.c == c && !step.refused
    requires s' == Runner.AfterReport(s, c, step.now, step.at, step.digest, step.body, step.ack)
    ensures Runner.Enabled(s, step) && Runner.Act(s, step) == s'
  {
    hide Runner.AfterReport;
  }

  lemma DriveIs(w: World, c: nat, step: Runner.Step)
    requires c in w.calls && Runner.Enabled(w.sys, step) && !step.Start?
    ensures Drives(w, c, step) == w.(sys := Runner.Act(w.sys, step))
  {
    hide Runner.Act, Runner.Enabled;
  }

  // ---- the receipt and the verdict ------------------------------------------

  /** The call adopts the worker's receipt. */
  lemma Adopting(sum: Receipt -> string, w: World, c: nat, id: Id, r: Receipt)
    requires WorldInv(sum, w) && At(w, c, InExecution) && w.calls[c].id == id && Runner.In(w.sys, c)
    requires w.sys.calls[c] == Runner.Returned(Runner.ReportedBack(true))
    requires HasExited(w, id) && w.workers[id].command.receipt == r
    ensures var w' := Goes(w, c, Saving(r)); Leads(sum, c, id, w, w') && WorldInv(sum, w')
  {
    hide WorldInv, Leads;
    Steps(sum, c, id, w, Adopt(c));
  }

  /** It saves it to the file that was not there. */
  lemma Writing(sum: Receipt -> string, w: World, c: nat, id: Id, r: Receipt)
    requires WorldInv(sum, w) && At(w, c, Saving(r)) && w.calls[c].id == id && id !in w.files
    ensures var w' := Goes(w.(files := w.files[id := Whole(r)], saved := w.saved + {id}), c, Loading);
            Leads(sum, c, id, w, w') && WorldInv(sum, w')
  {
    hide WorldInv, Leads;
    Steps(sum, c, id, w, Save(c, Synced));
  }

  /** And loads it back. */
  lemma LoadsBack(sum: Receipt -> string, w: World, c: nat, id: Id, r: Receipt, load: Time)
    requires WorldInv(sum, w) && At(w, c, Loading) && w.calls[c].id == id && id in w.files && w.files[id] == Whole(r)
    requires GoodReceipt(id, r, load)
    ensures var w' := Goes(w, c, Reading(r)); Leads(sum, c, id, w, w') && WorldInv(sum, w')
  {
    hide WorldInv, Leads, GoodReceipt, Loads;
    Loaded(w, c, id, r, load);
    Steps(sum, c, id, w, Load(c, load));
  }

  lemma Saves(sum: Receipt -> string, w: World, c: nat, id: Id, r: Receipt, load: Time) returns (w': World)
    requires WorldInv(sum, w) && At(w, c, InExecution) && w.calls[c].id == id && Runner.In(w.sys, c)
    requires w.sys.calls[c] == Runner.Returned(Runner.ReportedBack(true))
    requires HasExited(w, id) && w.workers[id].command.receipt == r && id !in w.files && GoodReceipt(id, r, load)
    ensures Leads(sum, c, id, w, w') && WorldInv(sum, w')
    ensures w' == w.(calls := w.calls[c := w.calls[c].(stage := Reading(r))], files := w.files[id := Whole(r)],
                     saved := w.saved + {id})
  {
    hide WorldInv, Leads, GoodReceipt;
    var w1 := Goes(w, c, Saving(r));
    Adopting(sum, w, c, id, r);
    var w2 := Goes(w1.(files := w.files[id := Whole(r)], saved := w.saved + {id}), c, Loading);
    Writing(sum, w1, c, id, r);
    w' := Goes(w2, c, Reading(r));
    LoadsBack(sum, w2, c, id, r, load);
    LeadsOn(sum, c, id, w, w1, w2);
    LeadsOn(sum, c, id, w, w2, w');
    assert w'.calls == w.calls[c := w.calls[c].(stage := Reading(r))];
  }

  lemma Loaded(w: World, c: nat, id: Id, r: Receipt, load: Time)
    requires At(w, c, Loading) && w.calls[c].id == id && id in w.files && w.files[id] == Whole(r) && GoodReceipt(id, r, load)
    ensures Loads(w, c, load) == Reading(r)
  {
    hide GoodReceipt;
  }

  /** Recovering touches neither the files nor what was saved. */
  lemma {:induction false} FilesStay(sum: Receipt -> string, w: World, c: nat, steps: seq<LocalCheck.Step>)
    requires Runnable(sum, w, steps) && forall s :: s in steps ==> Recovers(s, c)
    ensures LocalCheck.Run(sum, w, steps).files == w.files && LocalCheck.Run(sum, w, steps).saved == w.saved
    ensures LocalCheck.Run(sum, w, steps).workers == w.workers && LocalCheck.Run(sum, w, steps).launched == w.launched
    decreases |steps|
  {
    hide Loads, Reads, Compares, Closes, Runner.Deliver, Write, DigestOf;
    if steps != [] {
      assert Recovers(steps[0], c);
      FilesStay(sum, LocalCheck.Act(sum, w, steps[0]), c, steps[1..]);
    }
  }

  lemma RecoveryIsUndisturbed(steps: seq<LocalCheck.Step>, c: nat, id: Id)
    requires forall s :: s in steps ==> Recovers(s, c)
    ensures AllUndisturbed(steps, c, id)
  {
  }

  /** With its receipt saved and its report applied, the call reaches the verdict. */
  lemma Concludes(sum: Receipt -> string, w: World, c: nat, id: Id, r: Receipt, k: Clock) returns (w': World)
    requires WorldInv(sum, w) && c in w.calls && w.calls[c].id == id && w.calls[c].stage == Reading(r)
    requires id in w.saved && id in w.files && w.files[id] == Whole(r)
    requires Op(id) in w.sys.d.ops && w.sys.d.ops[Op(id)].state == Verifying
    requires r.finished <= k.load + SECOND && k.judge != ZERO_TIME && k.close != ZERO_TIME
    requires Delivering.InWindow(w.sys.d, k.store, r.finished)
    ensures Leads(sum, c, id, w, w') && Final(sum, w'.sys.d, w'.files, id, r)
    ensures w'.files == w.files && w'.saved == w.saved && w'.workers == w.workers && w'.launched == w.launched
  {
    hide WorldInv, Leads, Shape, VerdictsBased, HasIntent, HasReport, Sound, DigestOf, Final, Recovered, Finalized, Judged, Awaits,
         LocalCheck.Proven, Runnable, LocalCheck.Run, Recovers, Recoverable;
    SavedRecoverable(sum, w, id);
    RecoverableTask(sum, w.workers, w.sys.d, w.files, id, r);
    InTime(sum, w.sys.d, id, r, k);
    RecoveredExactly(sum, w.workers, w.sys.d, w.files, id, r, k);
    WaitingSteps(sum, w.workers, w.sys.d, w.files, id, r, k);
    WaitingProven(sum, w.workers, w.sys.d, w.files, id, r);
    var steps := CompareRuns(sum, w, c, k);
    FilesStay(sum, w, c, steps);
    RecoveryIsUndisturbed(steps, c, id);
    w' := LocalCheck.Run(sum, w, steps);
    assert Runs(sum, c, id, w, steps, w');
    assert Leads(sum, c, id, w, w') by { Led(sum, c, id, w, steps, w'); }
  }

  lemma Led(sum: Receipt -> string, c: nat, id: Id, w: World, steps: seq<LocalCheck.Step>, w': World)
    requires Runs(sum, c, id, w, steps, w')
    ensures Leads(sum, c, id, w, w')
  {
    hide Runs;
  }

  lemma RecoverableTask(sum: Receipt -> string, workers: map<Id, Worker>, d: Data, files: map<Id, File>, id: Id, r: Receipt)
    requires Recoverable(sum, workers, d, files, id, r)
    ensures Op(id) in d.ops && id in d.tasks
  {
    hide Shape, VerdictsBased, HasIntent, HasReport, Sound;
    TaskStored(sum, workers, d, id);
  }

  lemma InTime(sum: Receipt -> string, d: Data, id: Id, r: Receipt, k: Clock)
    requires Op(id) in d.ops && id in d.tasks
    requires r.finished <= k.load + SECOND && k.judge != ZERO_TIME && k.close != ZERO_TIME
    requires Delivering.InWindow(d, k.store, r.finished)
    ensures OnTime(sum, d, id, r, k)
  {
    hide DigestOf;
  }

  lemma ReceiptGood(id: Id, config: string, k: Schedule)
    requires ValidDigest(config) && ValidDigest(k.hash) && k.bytes <= 64 * 1024 && k.finished != ZERO_TIME
    requires k.finished <= k.recovery.load + SECOND
    ensures GoodReceipt(id, ReceiptOf(id, config, k), k.recovery.load)
  {
    hide ValidDigest;
  }

  // ---- the whole check ------------------------------------------------------

  /** The check hands over its request, and the runner reads and checks it. */
  lemma Proposes(sum: Receipt -> string, w: World, c: nat, id: Id, config: string, workspace: string, k: Schedule)
    requires WorldInv(sum, w) && At(w, c, LocalCheck.Offering) && w.calls[c] == LocalCheck.Call(id, config, workspace, LocalCheck.Offering)
    requires Armed(w.sys.d, id, workspace)
    ensures var w' := Phased(With(w, w.sys.d, c, LocalCheck.Call(id, config, workspace, InExecution)), c, w.sys.d,
                             Runner.Offering(RequestFor(id, 2, k.issued, k.deadline), DescriptorOf(id, workspace), WORKER, false));
            Leads(sum, c, id, w, w') && WorldInv(sum, w')
  {
    hide WorldInv, Leads, Armed, DescriptorOf;
    var q := RequestFor(id, 2, k.issued, k.deadline);
    var w0 := With(w, w.sys.d, c, LocalCheck.Call(id, config, workspace, InExecution));
    var w1 := Phased(w0, c, w.sys.d, Runner.Called(q, WORKER));
    Executes(sum, w, c, k.issued, k.deadline);
    ArmedFacts(w.sys.d, id, workspace);
    PhasedAgain(w0, c, w.sys.d, w1.sys.calls[c]);
    Checks(sum, w1, c, q);
    LeadsOn(sum, c, id, w, w1, Phased(w0, c, w.sys.d, Runner.Offering(q, DescriptorOf(id, workspace), WORKER, false)));
  }

  /** The offer of the check is accepted and its gate passes. */
  lemma Dispatches(sum: Receipt -> string, w: World, c: nat, id: Id, config: string, workspace: string, k: Schedule)
    returns (w': World)
    requires WorldInv(sum, w) && At(w, c, LocalCheck.Offering) && w.calls[c] == LocalCheck.Call(id, config, workspace, LocalCheck.Offering)
    requires Armed(w.sys.d, id, workspace) && Timely(w.sys.d, k)
    ensures Leads(sum, c, id, w, w') && WorldInv(sum, w')
    ensures var j := JobFor(id, workspace, k, 1);
            w' == Phased(With(w, w'.sys.d, c, LocalCheck.Call(id, config, workspace, InExecution)), c, w'.sys.d, Runner.Gated(j))
            && Underway(w'.sys.d, j)
    ensures w'.sys.d.messageFloor == w.sys.d.messageFloor
  {
    hide WorldInv, Leads, Armed, Timely, Underway, BeatFree, Inv, DescriptorOf, Runner.BeatId;
    var j := JobFor(id, workspace, k, 1);
    var w0 := With(w, w.sys.d, c, LocalCheck.Call(id, config, workspace, InExecution));
    var offering := Runner.Offering(j.request, j.descriptor, WORKER, false);
    var w1 := Phased(w0, c, w.sys.d, offering);
    Proposes(sum, w, c, id, config, workspace, k);
    var w2 := Offers(sum, w1, c, id, workspace, k);
    PhasedAgain(w0, c, w.sys.d, offering);
    TimelyGate(w.sys.d, w2.sys.d, k);
    w' := Gates(sum, w2, c, j, k.gate.now, k.gate.at);
    PhasedAgain(w0, c, w2.sys.d, Runner.Accepted(j));
    LeadsOn(sum, c, id, w, w1, w2);
    LeadsOn(sum, c, id, w, w2, w');
  }

  lemma ArmedFacts(d: Data, id: Id, workspace: string)
    requires Armed(d, id, workspace)
    ensures Op(id) in d.ops && d.ops[Op(id)].generation == 0 && d.ops[Op(id)].descriptor == DescriptorOf(id, workspace)
  {
  }

  lemma TimelyGate(d: Data, d': Data, k: Schedule)
    requires Timely(d, k) && d'.messageFloor == d.messageFloor
    ensures k.gate.at != ZERO_TIME && Delivering.InWindow(d', k.gate.now, k.gate.at) && Timely(d', k)
  {
    hide ValidDigest;
  }

  /** The command runs, and its report is applied. */
  lemma Delivers(sum: Receipt -> string, w: World, c: nat, id: Id, config: string, j: Runner.Job, k: Schedule) returns (w': World)
    requires WorldInv(sum, w) && At(w, c, InExecution) && w.calls[c].id == id && w.calls[c].config == config
    requires Runner.In(w.sys, c) && w.sys.calls[c] == Runner.Gated(j) && j.generation == 1 && j.request.deadline == k.deadline
    requires Underway(w.sys.d, j) && Timely(w.sys.d, k)
    ensures Leads(sum, c, id, w, w') && WorldInv(sum, w')
    ensures At(w', c, InExecution) && w'.calls == w.calls && w'.files == w.files && w'.saved == w.saved
    ensures w'.launched == w.launched + [id] && w'.workers == w.workers[id := Worker(config, 1, Exited(ReceiptOf(id, config, k)))]
    ensures Runner.In(w'.sys, c) && w'.sys.calls[c] == Runner.Returned(Runner.ReportedBack(true))
    ensures j.request.operationId in w'.sys.d.ops && w'.sys.d.ops[j.request.operationId].state == Verifying
    ensures w'.sys.d.messageFloor == w.sys.d.messageFloor
  {
    hide WorldInv, Leads, Underway, Timely, ReceiptOf;
    TimelyCommand(w.sys.d, k);
    var w1 := Starts(sum, w, c, j);
    var w2 := Commanded(sum, w1, c, id, config, k);
    Finishing(sum, w2, c, j);
    var w3 := Phased(w2, c, w.sys.d, Runner.Reporting(j));
    w' := Reports(sum, w3, c, j, k);
    LeadsOn(sum, c, id, w, w1, w2);
    LeadsOn(sum, c, id, w, w2, w3);
    LeadsOn(sum, c, id, w, w3, w');
  }

  lemma TimelyCommand(d: Data, k: Schedule)
    requires Timely(d, k)
    ensures k.bytes <= 64 * 1024 && ValidDigest(k.hash) && k.finished != ZERO_TIME
    ensures k.finished <= k.recovery.load + SECOND && k.recovery.judge != ZERO_TIME && k.recovery.close != ZERO_TIME
    ensures Delivering.InWindow(d, k.recovery.store, k.finished)
  {
    hide ValidDigest;
  }

  /** From a world that knows nothing of the task up to the gate. */
  lemma Attempts(sum: Receipt -> string, w: World, c: nat, id: Id, config: string, workspace: string, k: Schedule)
    returns (w': World)
    requires WorldInv(sum, w) && c !in w.calls && ValidId(id) && ValidDigest(config)
    requires Unused(w.sys.d, id) && Scope(workspace) !in w.sys.d.reservations && Timely(w.sys.d, k)
    ensures Leads(sum, c, id, w, w') && WorldInv(sum, w')
    ensures c in w'.calls && w'.calls[c] == LocalCheck.Call(id, config, workspace, InExecution)
    ensures w'.files == w.files && w'.saved == w.saved && w'.launched == w.launched
    ensures Runner.In(w'.sys, c) && w'.sys.calls[c] == Runner.Gated(JobFor(id, workspace, k, 1))
    ensures Underway(w'.sys.d, JobFor(id, workspace, k, 1)) && Timely(w'.sys.d, k)
  {
    hide WorldInv, Leads, Timely, Armed, Underway, ValidId, ValidDigest, Unused, JobFor;
    var w1 := Prepares(sum, w, c, id, config, workspace, k);
    TimelyGate(w.sys.d, w1.sys.d, k);
    w' := Dispatches(sum, w1, c, id, config, workspace, k);
    TimelyGate(w1.sys.d, w'.sys.d, k);
    LeadsOn(sum, c, id, w, w1, w');
  }

  /** And on to the report that was applied. */
  lemma Works(sum: Receipt -> string, w: World, c: nat, id: Id, config: string, workspace: string, k: Schedule)
    returns (w': World)
    requires WorldInv(sum, w) && c !in w.calls && ValidId(id) && ValidDigest(config)
    requires Unused(w.sys.d, id) && Scope(workspace) !in w.sys.d.reservations && Timely(w.sys.d, k)
    ensures Leads(sum, c, id, w, w') && WorldInv(sum, w')
    ensures At(w', c, InExecution) && w'.calls[c].id == id && w'.files == w.files && w'.saved == w.saved
    ensures w'.launched == w.launched + [id] && HasExited(w', id) && w'.workers[id].command.receipt == ReceiptOf(id, config, k)
    ensures Runner.In(w'.sys, c) && w'.sys.calls[c] == Runner.Returned(Runner.ReportedBack(true))
    ensures Op(id) in w'.sys.d.ops && w'.sys.d.ops[Op(id)].state == Verifying && Timely(w'.sys.d, k)
  {
    hide WorldInv, Leads, Timely, Underway, ValidId, ValidDigest, Unused, ReceiptOf;
    var w1 := Attempts(sum, w, c, id, config, workspace, k);
    w' := Delivers(sum, w1, c, id, config, JobFor(id, workspace, k, 1), k);
    TimelyGate(w1.sys.d, w'.sys.d, k);
    LeadsOn(sum, c, id, w, w1, w');
  }

  lemma ReachedUnused(sum: Receipt -> string, before: seq<LocalCheck.Step>, w: World, id: Id)
    requires Reached(sum, before, w) && ValidId(id) && id !in w.sys.d.tasks
    ensures WorldInv(sum, w) && Unused(w.sys.d, id)
  {
    hide WorldInv, Reached, Shape, Named, ValidId, Unused, Inv, Runner.SystemInv;
    ReachedInv(sum, before, w);
    ReachedNames(sum, before, w);
    WorldData(sum, w);
    UnknownIsUnused(sum, w.workers, w.sys.d, id);
  }

  /** From every reachable world in which a task is unknown, its workspace free and no
      file in the way, a check that nothing disturbs runs its command, saves the
      receipt of that run, and ends with the operation and the task in the state which
      the receipt says. */
  lemma CheckDelivers(sum: Receipt -> string, before: seq<LocalCheck.Step>, w: World, c: nat, id: Id, config: string,
                      workspace: string, k: Schedule)
    returns (steps: seq<LocalCheck.Step>)
    requires Reached(sum, before, w) && c !in w.calls && ValidId(id) && ValidDigest(config)
    requires id !in w.sys.d.tasks && id !in w.files && Scope(workspace) !in w.sys.d.reservations && Timely(w.sys.d, k)
    ensures Runnable(sum, w, steps) && AllUndisturbed(steps, c, id)
    ensures var w' := LocalCheck.Run(sum, w, steps); var r := ReceiptOf(id, config, k);
            && w'.launched == w.launched + [id] && w'.saved == w.saved + {id} && w'.files == w.files[id := Whole(r)]
            && Final(sum, w'.sys.d, w'.files, id, r)
  {
    hide WorldInv, Leads, Final, Reached, Timely, ValidId, ValidDigest, Runnable, LocalCheck.Run, AllUndisturbed, Unused, ReceiptOf;
    ReachedUnused(sum, before, w, id);
    var r := ReceiptOf(id, config, k);
    var w1 := Works(sum, w, c, id, config, workspace, k);
    TimelyCommand(w1.sys.d, k);
    ReceiptGood(id, config, k);
    var w2 := Saves(sum, w1, c, id, r, k.recovery.load);
    ReceiptTime(id, config, k);
    var w3 := Concludes(sum, w2, c, id, r, k.recovery);
    LeadsOn(sum, c, id, w, w1, w2);
    LeadsOn(sum, c, id, w, w2, w3);
    steps := LedBy(sum, c, id, w, w3);
  }

  lemma ReceiptTime(id: Id, config: string, k: Schedule)
    ensures ReceiptOf(id, config, k).finished == k.finished
  {
  }

  lemma LedBy(sum: Receipt -> string, c: nat, id: Id, w: World, w': World) returns (steps: seq<LocalCheck.Step>)
    requires Leads(sum, c, id, w, w')
    ensures AllUndisturbed(steps, c, id) && Runnable(sum, w, steps) && LocalCheck.Run(sum, w, steps) == w'
  {
    hide Runnable, LocalCheck.Run, AllUndisturbed;
    steps :| Runs(sum, c, id, w, steps, w');
  }
}
