/** The dispatching runner as a step system: any number of Execute calls interleave
    with each other, with other decisions, and with commits whose acknowledgement
    is lost. */
module Runner {
  import opened Basics
  import opened Records
  import opened Storage
  import opened Decisions
  import opened Invariant
  import opened Preservation
  import opened Dispatching
  import opened Guarantees
  import History

  datatype Request = Request(
    messageId: Id, operationId: Id, attemptId: Id, leaseId: Id, retryOf: Id, correlationId: Id,
    revision: nat, issuedAt: Time, deadline: Time)

  datatype Job = Job(request: Request, descriptor: Descriptor, worker: Id, generation: nat)

  /** How a call ended without an error, other than by losing its attempt. */
  datatype Disposition = Rejected | Duplicate | ReportedBack(applied: bool)

  /** Where one Execute call is. `Withdrawn` is the outcome unknown; `failed` says
      that it comes with an error because the report had failed. */
  datatype Phase =
    | Called(request: Request, worker: Id)
    | Checking(request: Request, worker: Id, seen: Operation)
    | Offering(request: Request, descriptor: Descriptor, worker: Id, denied: bool)
    | Accepted(job: Job)
    | Gated(job: Job)
    | Dispatched(job: Job, beats: nat)
    | Reporting(job: Job)
    | Losing(job: Job, failed: bool)
    | Withdrawing(job: Job, revision: nat, failed: bool)
    | Returned(disposition: Disposition)
    | Withdrawn(job: Job, failed: bool)
    | Errored

  /** Whether a commit took effect, and whether its caller was told. */
  datatype Ack = Acknowledged | LostAck | Aborted

  /** `started` lists the attempts whose worker was started, in order. */
  datatype System = System(d: Data, calls: map<nat, Phase>, started: seq<Id>)

  datatype Step =
    | Call(c: nat, request: Request, worker: Id)
    | ReadOperation(c: nat)
    | Check(c: nat, refused: bool)
    | Offer(c: nat, now: Time, at: Time, body: Payload, ack: Ack)
    | Gate(c: nat, now: Time, at: Time, refused: bool, ack: Ack)
    | Start(c: nat)
    | Beat(c: nat, now: Time, at: Time, ack: Ack)
    | Finish(c: nat, failed: bool)
    | Report(c: nat, now: Time, at: Time, digest: string, body: Payload, refused: bool, ack: Ack)
    | Lose(c: nat)
    | ReadFails(c: nat)
    | Withdraw(c: nat, now: Time, late: bool, why: string, ack: Ack)
    | Elsewhere(event: History.Event)

  // ---- messages and records -------------------------------------------------

  const CONTROLLER := "controller"

  function Decimal(n: nat): string {
    var digit := ["0123456789"[n % 10]];
    if n < 10 then digit else Decimal(n / 10) + digit
  }

  function EventEnvelope(j: Job, id: Id, name: string, actor: Id, at: Time, body: Payload): Envelope {
    Envelope(PROTOCOL_VERSION, id, Event, name, j.descriptor.taskId, j.descriptor.id, j.request.attemptId,
             j.request.correlationId, j.request.messageId, actor, "worker", at, None,
             Some(LeaseRef(j.request.leaseId, j.generation)), body, Payload("", true))
  }

  function OfferEnvelope(j: Job, body: Payload): Envelope {
    EventEnvelope(j, j.request.messageId, "operation.offer", CONTROLLER, j.request.issuedAt, body).(
      messageType := Command, actorRole := "controller", deadlineAt := Some(j.request.deadline),
      lease := Some(LeaseRef(j.request.leaseId, 0)))
  }

  function BeatId(j: Job, beats: nat): Id {
    j.request.attemptId + "/heartbeat/" + Decimal(beats)
  }

  function ResultId(j: Job): Id {
    j.request.attemptId + "/result"
  }

  function RecordOf(j: Job, id: Id, kind: Kind, actor: Id, at: Time, summary: string): Evidence {
    Evidence(id, j.descriptor.taskId, j.descriptor.id, j.request.attemptId, kind, actor, at, j.descriptor.targetRef, summary, "", "")
  }

  function ClaimOf(j: Job): Claim {
    Claim(j.request.operationId, j.request.attemptId, j.request.leaseId, j.generation, j.worker)
  }

  /** What the offer's callback decides. */
  function OfferDecisions(j: Job, denied: bool, at: Time): seq<Decision> {
    if denied then
      [DoRegisterEvidence(RecordOf(j, j.request.messageId + "/rejected", PolicyDecision, CONTROLLER, at, "denied").(attemptId := ""))]
    else
      [DoStartAttempt(j.request.operationId, j.request.revision, j.request.attemptId, j.request.leaseId, j.worker, j.request.retryOf, at),
       DoRegisterEvidence(RecordOf(j, j.request.attemptId + "/accepted", PolicyDecision, CONTROLLER, at, "accepted"))]
  }

  function BeatDecisions(j: Job, beats: nat, at: Time): seq<Decision> {
    [DoCheckActive(ClaimOf(j)), DoRegisterEvidence(RecordOf(j, BeatId(j, beats), WorkerReport, j.worker, at, "heartbeat"))]
  }

  function ResultDecisions(j: Job, at: Time, digest: string): seq<Decision> {
    [DoRecordWorkerReport(ResultRecord(j, at, digest), j.request.leaseId, j.generation, j.request.deadline)]
  }

  function ResultRecord(j: Job, at: Time, digest: string): Evidence {
    RecordOf(j, ResultId(j), WorkerReport, j.worker, at, "result_reported").(digest := digest)
  }

  function LossRecord(j: Job, at: Time, why: string): Evidence {
    RecordOf(j, j.request.attemptId + "/lost", ProcessObservation, CONTROLLER, at, why)
  }

  // ---- commits --------------------------------------------------------------

  /** The stored data after a processed message, and what the caller learns: whether
      it was a duplicate, or an error. */
  function Deliver(d: Data, now: Time, env: Envelope, cs: seq<Decision>, ack: Ack): (Data, Option<bool>) {
    match History.ProcessMessage(d, now, env, cs)
    case Err(_) => (d, None)
    case Ok((d', duplicate)) =>
      match ack
      case Acknowledged => (d', Some(duplicate))
      case LostAck => (d', None)
      case Aborted => (d, None)
  }

  // ---- steps ----------------------------------------------------------------

  predicate In(s: System, c: nat) {
    c in s.calls
  }

  predicate Enabled(s: System, step: Step) {
    match step
    case Call(c, _, _) => !In(s, c)
    case ReadOperation(c) => In(s, c) && s.calls[c].Called?
    case Check(c, _) => In(s, c) && s.calls[c].Checking?
    case Offer(c, _, _, _, _) => In(s, c) && s.calls[c].Offering?
    case Gate(c, _, _, _, _) => In(s, c) && s.calls[c].Accepted?
    case Start(c) => In(s, c) && s.calls[c].Gated?
    case Beat(c, _, _, _) => In(s, c) && s.calls[c].Dispatched? && s.calls[c].beats < 32
    case Finish(c, _) => In(s, c) && s.calls[c].Dispatched?
    case Report(c, _, _, _, _, _, _) => In(s, c) && s.calls[c].Reporting?
    case Lose(c) => In(s, c) && s.calls[c].Losing?
    case ReadFails(c) => In(s, c) && (s.calls[c].Called? || s.calls[c].Checking? || s.calls[c].Losing?)
    case Withdraw(c, _, _, _, _) => In(s, c) && s.calls[c].Withdrawing?
    case Elsewhere(e) => !e.Gc?
  }

  /** The runner's own retry rule, checked outside the offer's transaction: a retry
      must name the attempt of the generation it saw. */
  function RetryDenied(d: Data, request: Request, seen: Operation): bool {
    seen.generation > 0 && seen.state == Ready &&
    (request.retryOf !in d.attempts
     || d.attempts[request.retryOf].operationId != request.operationId
     || d.attempts[request.retryOf].generation != seen.generation)
  }

  function AfterOffer(s: System, c: nat, now: Time, at: Time, body: Payload, ack: Ack): System
    requires In(s, c) && s.calls[c].Offering?
  {
    var p := s.calls[c];
    var j := Job(p.request, p.descriptor, p.worker, 0);
    var (d', learned) := Deliver(s.d, now, OfferEnvelope(j, body), OfferDecisions(j, p.denied, at), ack);
    var next :=
      match learned
      case None => Errored
      case Some(true) => Returned(Duplicate)
      case Some(false) =>
        if p.denied then Returned(Rejected)
        else if p.request.attemptId in d'.attempts then Accepted(j.(generation := d'.attempts[p.request.attemptId].generation))
        else Errored;
    s.(d := d', calls := s.calls[c := next])
  }

  function AfterReport(s: System, c: nat, now: Time, at: Time, digest: string, body: Payload, ack: Ack): System
    requires In(s, c) && s.calls[c].Reporting?
  {
    var j := s.calls[c].job;
    var env := EventEnvelope(j, ResultId(j), "operation.result_reported", j.worker, at, body);
    var (d', learned) := Deliver(s.d, now, env, ResultDecisions(j, at, digest), ack);
    var next :=
      match learned
      case None => Losing(j, true)
      case Some(true) => Returned(Duplicate)
      case Some(false) => Returned(ReportedBack(Applied(s.d, now, env, j, at, digest)));
    s.(d := d', calls := s.calls[c := next])
  }

  /** Whether the report's callback moved the operation on. */
  function Applied(d: Data, now: Time, env: Envelope, j: Job, at: Time, digest: string): bool {
    match RegisterMessage(d, now, env)
    case Err(_) => false
    case Ok((d1, _)) =>
      match RecordWorkerReport(d1, now, ResultRecord(j, at, digest), j.request.leaseId, j.generation, j.request.deadline)
      case Err(_) => false
      case Ok((_, applied)) => applied
  }

  function AfterWithdraw(s: System, c: nat, now: Time, late: bool, why: string, ack: Ack): System
    requires In(s, c) && s.calls[c].Withdrawing?
  {
    var j := s.calls[c].job;
    var loss := if late then LeaseExpired else OwnershipLost;
    match InvalidateAttempt(s.d, j.descriptor.id, s.calls[c].revision, j.request.attemptId, loss, LossRecord(j, now, why), now)
    case Err(_) => s.(calls := s.calls[c := Errored])
    case Ok(d') =>
      match ack
      case Acknowledged => s.(d := d', calls := s.calls[c := Withdrawn(j, s.calls[c].failed)])
      case LostAck => s.(d := d', calls := s.calls[c := Errored])
      case Aborted => s.(calls := s.calls[c := Errored])
  }

  function Heartbeat(s: System, c: nat, j: Job, beats: nat, now: Time, at: Time, ack: Ack): (Data, Option<bool>) {
    Deliver(s.d, now, EventEnvelope(j, BeatId(j, beats), "operation.progress", j.worker, at, Payload("", true)),
            BeatDecisions(j, beats, at), ack)
  }

  ghost function Act(s: System, step: Step): System
    requires Enabled(s, step)
  {
    match step
    case Call(c, request, worker) => s.(calls := s.calls[c := Called(request, worker)])
    case ReadOperation(c) =>
      var p := s.calls[c];
      s.(calls := s.calls[c := if p.request.operationId in s.d.ops
                               then Checking(p.request, p.worker, s.d.ops[p.request.operationId]) else Errored])
    case Check(c, refused) =>
      var p := s.calls[c];
      s.(calls := s.calls[c := Offering(p.request, p.seen.descriptor, p.worker, refused || RetryDenied(s.d, p.request, p.seen))])
    case Offer(c, now, at, body, ack) => AfterOffer(s, c, now, at, body, ack)
    case Gate(c, now, at, refused, ack) =>
      var j := s.calls[c].job;
      if refused then s.(calls := s.calls[c := Losing(j, false)])
      else
        var (d', learned) := Heartbeat(s, c, j, 0, now, at, ack);
        s.(d := d', calls := s.calls[c := if learned.Some? then Gated(j) else Losing(j, false)])
    case Start(c) =>
      var j := s.calls[c].job;
      s.(calls := s.calls[c := Dispatched(j, 1)], started := s.started + [j.request.attemptId])
    case Beat(c, now, at, ack) =>
      var p := s.calls[c];
      var (d', learned) := Heartbeat(s, c, p.job, p.beats, now, at, ack);
      s.(d := d', calls := s.calls[c := Dispatched(p.job, if learned.Some? then p.beats + 1 else p.beats)])
    case Finish(c, failed) =>
      var j := s.calls[c].job;
      s.(calls := s.calls[c := if failed then Losing(j, false) else Reporting(j)])
    case Report(c, now, at, digest, body, refused, ack) =>
      if refused then s.(calls := s.calls[c := Losing(s.calls[c].job, true)])
      else AfterReport(s, c, now, at, digest, body, ack)
    case Lose(c) =>
      var j := s.calls[c].job;
      s.(calls := s.calls[c :=
        if j.descriptor.id in s.d.ops && s.d.ops[j.descriptor.id].active == j.request.attemptId
        then Withdrawing(j, s.d.ops[j.descriptor.id].revision, s.calls[c].failed) else Errored])
    case ReadFails(c) => s.(calls := s.calls[c := Errored])
    case Withdraw(c, now, late, why, ack) => AfterWithdraw(s, c, now, late, why, ack)
    case Elsewhere(e) => s.(d := History.Step(s.d, e))
  }

  // ---- the data only ever moves by decisions --------------------------------

  lemma DeliverKeeps(d: Data, now: Time, env: Envelope, cs: seq<Decision>, ack: Ack)
    requires Inv(d)
    ensures Keeps(d, Deliver(d, now, env, cs, ack).0)
  {
    hide Inv, Keeps, History.ProcessMessage;
    KeepsReflexive(d);
    if History.ProcessMessage(d, now, env, cs).Ok? {
      History.ProcessKeeps(d, now, env, cs);
    }
  }

  lemma ElsewhereKeeps(d: Data, e: History.Event)
    requires Inv(d) && !e.Gc?
    ensures Keeps(d, History.Step(d, e))
  {
    hide Inv, Keeps, History.ProcessMessage, DecideAll;
    KeepsReflexive(d);
    if e.commits && History.Attempted(d, e).Ok? {
      match e
      case Write(now, cs, _) => DecisionsKeep(d, now, cs);
      case Process(now, env, cs, _) => History.ProcessKeeps(d, now, env, cs);
    }
  }

  /** Every step of the system keeps the store's invariant and all it remembers. */
  lemma ActKeeps(s: System, step: Step)
    requires Inv(s.d) && Enabled(s, step)
    ensures Keeps(s.d, Act(s, step).d)
  {
    hide Inv, Keeps, Deliver, History.Step, InvalidateAttempt, OfferEnvelope, OfferDecisions, BeatDecisions, ResultDecisions;
    KeepsReflexive(s.d);
    match step
    case Offer(c, now, at, body, ack) =>
      var p := s.calls[c];
      var j := Job(p.request, p.descriptor, p.worker, 0);
      DeliverKeeps(s.d, now, OfferEnvelope(j, body), OfferDecisions(j, p.denied, at), ack);
    case Gate(c, now, at, refused, ack) =>
      var j := s.calls[c].job;
      DeliverKeeps(s.d, now, EventEnvelope(j, BeatId(j, 0), "operation.progress", j.worker, at, Payload("", true)),
                   BeatDecisions(j, 0, at), ack);
    case Beat(c, now, at, ack) =>
      var p := s.calls[c];
      DeliverKeeps(s.d, now, EventEnvelope(p.job, BeatId(p.job, p.beats), "operation.progress", p.job.worker, at, Payload("", true)),
                   BeatDecisions(p.job, p.beats, at), ack);
    case Report(c, now, at, digest, body, refused, ack) =>
      var j := s.calls[c].job;
      DeliverKeeps(s.d, now, EventEnvelope(j, ResultId(j), "operation.result_reported", j.worker, at, body),
                   ResultDecisions(j, at, digest), ack);
    case Withdraw(c, now, late, why, ack) =>
      var j := s.calls[c].job;
      var loss := if late then LeaseExpired else OwnershipLost;
      if InvalidateAttempt(s.d, j.descriptor.id, s.calls[c].revision, j.request.attemptId, loss, LossRecord(j, now, why), now).Ok? {
        InvalidateAttemptKeeps(s.d, j.descriptor.id, s.calls[c].revision, j.request.attemptId, loss, LossRecord(j, now, why), now);
      }
    case Elsewhere(e) => ElsewhereKeeps(s.d, e);
    case _ =>
  }

  // ---- what the calls own ---------------------------------------------------

  predicate HasJob(p: Phase) {
    p.Accepted? || p.Gated? || p.Dispatched? || p.Reporting? || p.Losing? || p.Withdrawing? || p.Withdrawn?
  }

  /** The attempt of an accepted job is stored under the job's own identity. */
  predicate Owns(d: Data, j: Job) {
    && j.descriptor.id == j.request.operationId
    && j.request.attemptId in d.attempts
    && Names(ClaimOf(j), d.attempts[j.request.attemptId])
  }

  predicate Working(s: System, c: nat) {
    In(s, c) && HasJob(s.calls[c])
  }

  function AttemptOf(s: System, c: nat): Id
    requires Working(s, c)
  {
    s.calls[c].job.request.attemptId
  }

  ghost predicate CallsInv(s: System) {
    && (forall c :: Working(s, c) ==> Owns(s.d, s.calls[c].job))
    && (forall c1, c2 :: Working(s, c1) && Working(s, c2) && AttemptOf(s, c1) == AttemptOf(s, c2) ==> c1 == c2)
    && (forall c :: In(s, c) && s.calls[c].Checking? ==> s.calls[c].seen.descriptor.id == s.calls[c].request.operationId)
    && (forall c :: In(s, c) && s.calls[c].Offering? ==> s.calls[c].descriptor.id == s.calls[c].request.operationId)
    && (forall c :: In(s, c) && s.calls[c].Withdrawn? ==> AttemptOf(s, c) in s.d.revocations)
  }

  ghost predicate StartedInv(s: System) {
    && (forall a :: a in s.started ==> a in s.d.attempts)
    && (forall i, j :: 0 <= i < j < |s.started| ==> s.started[i] != s.started[j])
    && (forall c :: In(s, c) && (s.calls[c].Accepted? || s.calls[c].Gated?) ==> AttemptOf(s, c) !in s.started)
  }

  ghost predicate SystemInv(s: System) {
    Inv(s.d) && CallsInv(s) && StartedInv(s)
  }

  /** Only the call `c` moves, to a phase that keeps its job or drops it. */
  ghost predicate Moves(s: System, s': System, c: nat) {
    && In(s, c) && In(s', c)
    && s'.calls == s.calls[c := s'.calls[c]] && s'.started == s.started
    && var p, p' := s.calls[c], s'.calls[c];
    && (HasJob(p') ==> HasJob(p) && p'.job == p.job)
    && (p'.Checking? ==> p'.seen.descriptor.id == p'.request.operationId)
    && (p'.Offering? ==> p'.descriptor.id == p'.request.operationId)
    && (p'.Withdrawn? ==> p'.job.request.attemptId in s'.d.revocations)
    && (p'.Gated? ==> p.Accepted?)
    && !p'.Accepted?
  }

  /** A call that keeps its job, or drops it, next to unchanged other calls. */
  lemma OthersKeep(s: System, s': System, c: nat)
    requires SystemInv(s) && Keeps(s.d, s'.d) && Moves(s, s', c)
    ensures SystemInv(s')
  {
    hide Inv, Keeps, Owns, CallsInv, StartedInv;
    KeepsInv(s.d, s'.d);
    CallsMove(s, s', c);
    StartsMove(s, s', c);
  }

  /** What a call owns stays its own, and a revocation stays. */
  lemma OwnershipStays(d: Data, d': Data)
    requires Keeps(d, d')
    ensures forall j :: Owns(d, j) ==> Owns(d', j)
    ensures forall a :: a in d.revocations ==> a in d'.revocations
    ensures forall a :: a in d.attempts ==> a in d'.attempts
  {
    hide Inv, OperationsEvolve, AttemptsAge, ActivesAge, OutcomesStay, ClosedTasksStay;
  }

  lemma CallsMove(s: System, s': System, c: nat)
    requires CallsInv(s) && Keeps(s.d, s'.d) && Moves(s, s', c)
    ensures CallsInv(s')
  {
    hide Inv, Keeps, Owns;
    OwnershipStays(s.d, s'.d);
    forall x | Working(s', x)
      ensures Owns(s'.d, s'.calls[x].job) && Working(s, x) && AttemptOf(s', x) == AttemptOf(s, x)
    {
      assert Working(s, x);
    }
  }

  lemma StartsMove(s: System, s': System, c: nat)
    requires StartedInv(s) && Keeps(s.d, s'.d) && Moves(s, s', c)
    ensures StartedInv(s')
  {
    hide Inv, Keeps, Owns;
    OwnershipStays(s.d, s'.d);
  }

  /** The data moved and no call did. */
  lemma DataMoves(s: System, s': System)
    requires SystemInv(s) && Keeps(s.d, s'.d) && s'.calls == s.calls && s'.started == s.started
    ensures SystemInv(s')
  {
    hide Inv, Keeps, Owns;
    KeepsInv(s.d, s'.d);
    OwnershipStays(s.d, s'.d);
    forall x | Working(s', x)
      ensures Owns(s'.d, s'.calls[x].job) && Working(s, x) && AttemptOf(s', x) == AttemptOf(s, x)
    {
      assert Working(s, x);
    }
  }

  // ---- accepting an offer ---------------------------------------------------

  /** An accepted offer inserted its own attempt, which nobody had before. */
  lemma OfferInserts(d: Data, now: Time, j: Job, body: Payload, at: Time)
    requires Inv(d)
    requires History.ProcessMessage(d, now, OfferEnvelope(j, body), OfferDecisions(j, false, at)).Ok?
    requires !History.ProcessMessage(d, now, OfferEnvelope(j, body), OfferDecisions(j, false, at)).value.1
    ensures var d' := History.ProcessMessage(d, now, OfferEnvelope(j, body), OfferDecisions(j, false, at)).value.0;
            && j.request.attemptId !in d.attempts && j.request.attemptId in d'.attempts
            && var a := d'.attempts[j.request.attemptId];
            && Names(Claim(j.request.operationId, j.request.attemptId, j.request.leaseId, a.generation, j.worker), a)
            && a.state == Running && a.retryOf == j.request.retryOf
  {
    hide Inv, RegisterMessage, StartAttempt, RegisterEvidence, OfferEnvelope, RecordOf;
    var d1 := RegisterMessage(d, now, OfferEnvelope(j, body)).value.0;
    MessageOnly(d, now, OfferEnvelope(j, body));
    var cs := OfferDecisions(j, false, at);
    var d2 := Decide(d1, now, cs[0]).value;
    assert DecideAll(d1, now, cs) == DecideAll(d2, now, cs[1..]);
    var d3 := Decide(d2, now, cs[1]).value;
    assert DecideAll(d2, now, cs[1..]) == DecideAll(d3, now, cs[1..][1..]);
    assert cs[1..][1..] == [];
    StartInserts(d1, j, at);
    EvidenceOnly(d2, cs[1].record);
  }

  lemma MessageOnly(d: Data, now: Time, env: Envelope)
    requires Inv(d) && RegisterMessage(d, now, env).Ok?
    ensures RegisterMessage(d, now, env).value.0 == d.(messages := RegisterMessage(d, now, env).value.0.messages)
    ensures Inv(RegisterMessage(d, now, env).value.0)
  {
    hide Inv, Keeps, RegisterMessage;
    RegisterMessageKeeps(d, now, env);
    KeepsInv(d, RegisterMessage(d, now, env).value.0);
    MessageMap(d, now, env);
  }

  lemma MessageMap(d: Data, now: Time, env: Envelope)
    requires RegisterMessage(d, now, env).Ok?
    ensures RegisterMessage(d, now, env).value.0 == d.(messages := RegisterMessage(d, now, env).value.0.messages)
    ensures RegisterMessage(d, now, env).value.0.messages.Keys == d.messages.Keys + {env.messageId}
  {
    hide ValidEnvelope, Acceptable;
  }

  lemma EvidenceOnly(d: Data, e: Evidence)
    requires RegisterEvidence(d, e).Ok?
    ensures RegisterEvidence(d, e).value == d.(evidence := d.evidence[e.id := e])
  {
    hide ValidEvidence;
  }

  lemma StartInserts(d: Data, j: Job, at: Time)
    requires Inv(d)
    requires StartAttempt(d, j.request.operationId, j.request.revision, j.request.attemptId, j.request.leaseId, j.worker,
                          j.request.retryOf, at).Ok?
    ensures var d' := StartAttempt(d, j.request.operationId, j.request.revision, j.request.attemptId, j.request.leaseId,
                                   j.worker, j.request.retryOf, at).value.0;
            && j.request.attemptId !in d.attempts && j.request.attemptId in d'.attempts
            && var a := d'.attempts[j.request.attemptId];
            && Names(Claim(j.request.operationId, j.request.attemptId, j.request.leaseId, a.generation, j.worker), a)
            && a.state == Running && a.retryOf == j.request.retryOf
  {
    hide TasksOk, OperationsOk, WorkOk, ReservationsSound, ReservationsComplete, MessagesOk, GraphInv, RecordInv,
         StartAttempt, LeaseTaken, AllFree;
    StartTarget(d, j, at);
    ReadyFacts(d, j.request.operationId);
    var next, a := StartShape(d, j.request.operationId, j.request.revision, j.request.attemptId, j.request.leaseId, j.worker,
                              j.request.retryOf, at);
  }

  lemma StartTarget(d: Data, j: Job, at: Time)
    requires StartAttempt(d, j.request.operationId, j.request.revision, j.request.attemptId, j.request.leaseId, j.worker,
                          j.request.retryOf, at).Ok?
    ensures j.request.operationId in d.ops
  {
    hide ReserveAll;
  }

  lemma OfferStep(s: System, c: nat, now: Time, at: Time, body: Payload, ack: Ack)
    requires SystemInv(s) && In(s, c) && s.calls[c].Offering?
    ensures SystemInv(AfterOffer(s, c, now, at, body, ack))
  {
    hide Inv, Keeps, History.ProcessMessage, OfferEnvelope, OfferDecisions;
    var p := s.calls[c];
    var j := Job(p.request, p.descriptor, p.worker, 0);
    var s' := AfterOffer(s, c, now, at, body, ack);
    DeliverKeeps(s.d, now, OfferEnvelope(j, body), OfferDecisions(j, p.denied, at), ack);
    if s'.calls[c].Accepted? {
      OfferInserts(s.d, now, j, body, at);
      NewJob(s, s', c);
    } else {
      OthersKeep(s, s', c);
    }
  }

  /** A new job owns an attempt that no other call and no started worker had. */
  lemma NewJob(s: System, s': System, c: nat)
    requires SystemInv(s) && Keeps(s.d, s'.d) && In(s, c) && !HasJob(s.calls[c])
    requires In(s', c) && s'.calls == s.calls[c := s'.calls[c]] && s'.started == s.started && s'.calls[c].Accepted?
    requires Owns(s'.d, s'.calls[c].job) && s'.calls[c].job.request.attemptId !in s.d.attempts
    ensures SystemInv(s')
  {
    hide Inv, Keeps;
    KeepsInv(s.d, s'.d);
    OwnershipStays(s.d, s'.d);
    forall x | Working(s', x) && x != c
      ensures Owns(s'.d, s'.calls[x].job) && Working(s, x) && AttemptOf(s', x) == AttemptOf(s, x)
      ensures AttemptOf(s', x) in s.d.attempts
    {
      assert Working(s, x);
    }
  }

  // ---- the other steps ------------------------------------------------------

  lemma StartStep(s: System, s': System, c: nat)
    requires SystemInv(s) && In(s, c) && s.calls[c].Gated?
    requires s' == System(s.d, s.calls[c := Dispatched(s.calls[c].job, 1)], s.started + [s.calls[c].job.request.attemptId])
    ensures SystemInv(s')
  {
    hide Inv, Names;
    assert Working(s, c);
    forall x | Working(s', x)
      ensures Working(s, x) && AttemptOf(s', x) == AttemptOf(s, x) && s'.calls[x].job == s.calls[x].job
    {
    }
  }

  lemma CallStep(s: System, s': System, c: nat, request: Request, worker: Id)
    requires SystemInv(s) && !In(s, c)
    requires s' == System(s.d, s.calls[c := Called(request, worker)], s.started)
    ensures SystemInv(s')
  {
    hide Inv, Owns;
    forall x | Working(s', x)
      ensures Working(s, x) && AttemptOf(s', x) == AttemptOf(s, x) && s'.calls[x] == s.calls[x]
    {
    }
  }

  lemma SeenOperation(d: Data, id: Id)
    requires Inv(d) && id in d.ops
    ensures d.ops[id].descriptor.id == id
  {
    hide TasksOk, WorkOk, ReservationsSound, ReservationsComplete, MessagesOk, GraphInv, RecordInv, ValidDescriptor;
    assert OperationOk(d.tasks, id, d.ops[id]);
  }

  lemma WithdrawStep(s: System, c: nat, now: Time, late: bool, why: string, ack: Ack)
    requires SystemInv(s) && In(s, c) && s.calls[c].Withdrawing?
    requires Keeps(s.d, AfterWithdraw(s, c, now, late, why, ack).d)
    ensures SystemInv(AfterWithdraw(s, c, now, late, why, ack))
  {
    hide Inv, Keeps, InvalidateAttempt;
    var s' := AfterWithdraw(s, c, now, late, why, ack);
    var j := s.calls[c].job;
    assert Working(s, c);
    if s'.calls[c].Withdrawn? {
      InvalidateAttemptKeeps(s.d, j.descriptor.id, s.calls[c].revision, j.request.attemptId,
                             if late then LeaseExpired else OwnershipLost, LossRecord(j, now, why), now);
    }
    OthersKeep(s, s', c);
  }

  /** Every step keeps the invariant of the system. */
  lemma StepKeeps(s: System, step: Step)
    requires SystemInv(s) && Enabled(s, step)
    ensures SystemInv(Act(s, step))
  {
    hide Inv, Keeps, Deliver, History.Step, AfterOffer, AfterWithdraw, CallsInv, StartedInv, RetryDenied,
         EventEnvelope, BeatDecisions, ResultDecisions;
    ActKeeps(s, step);
    match step
    case Call(c, request, worker) => CallStep(s, Act(s, step), c, request, worker);
    case ReadOperation(c) =>
      if s.calls[c].request.operationId in s.d.ops {
        SeenOperation(s.d, s.calls[c].request.operationId);
      }
      OthersKeep(s, Act(s, step), c);
    case Check(c, _) =>
      CheckedDescriptor(s, c);
      OthersKeep(s, Act(s, step), c);
    case Offer(c, now, at, body, ack) => OfferStep(s, c, now, at, body, ack);
    case Gate(c, _, _, _, _) => OthersKeep(s, Act(s, step), c);
    case Start(c) => StartStep(s, Act(s, step), c);
    case Beat(c, _, _, _) => OthersKeep(s, Act(s, step), c);
    case Finish(c, _) => OthersKeep(s, Act(s, step), c);
    case Report(c, _, _, _, _, _, _) => OthersKeep(s, Act(s, step), c);
    case Lose(c) => OthersKeep(s, Act(s, step), c);
    case ReadFails(c) => OthersKeep(s, Act(s, step), c);
    case Withdraw(c, now, late, why, ack) => WithdrawStep(s, c, now, late, why, ack);
    case Elsewhere(_) => DataMoves(s, Act(s, step));
  }

  lemma CheckedDescriptor(s: System, c: nat)
    requires CallsInv(s) && In(s, c) && s.calls[c].Checking?
    ensures s.calls[c].seen.descriptor.id == s.calls[c].request.operationId
  {
  }

  // ---- runs -----------------------------------------------------------------

  ghost predicate Runnable(s: System, steps: seq<Step>)
    decreases |steps|
  {
    steps == [] || (Enabled(s, steps[0]) && Runnable(Act(s, steps[0]), steps[1..]))
  }

  ghost function Execute(s: System, steps: seq<Step>): System
    requires Runnable(s, steps)
    decreases |steps|
  {
    if steps == [] then s else Execute(Act(s, steps[0]), steps[1..])
  }

  const IDLE := System(EMPTY, map[], [])

  lemma {:induction false} RunsKeep(s: System, steps: seq<Step>)
    requires SystemInv(s) && Runnable(s, steps)
    ensures SystemInv(Execute(s, steps))
    decreases |steps|
  {
    hide SystemInv, Act, Enabled;
    if steps != [] {
      StepKeeps(s, steps[0]);
      RunsKeep(Act(s, steps[0]), steps[1..]);
    }
  }

  /** In any interleaving, a worker is started at most once per attempt, and only for
      an attempt whose insertion has been committed. */
  lemma StartedAtMostOnce(steps: seq<Step>)
    requires Runnable(IDLE, steps)
    ensures var s := Execute(IDLE, steps);
            && (forall i, j :: 0 <= i < j < |s.started| ==> s.started[i] != s.started[j])
            && (forall a :: a in s.started ==> a in s.d.attempts)
  {
    hide Execute, Runnable, Inv, CallsInv;
    IdleInv();
    RunsKeep(IDLE, steps);
  }

  lemma IdleInv()
    ensures SystemInv(IDLE)
  {
    EmptyInv();
  }

  /** No verification has settled the attempt. */
  ghost predicate Unreconciled(d: Data, a: Id) {
    forall v :: v in d.verifications && d.verifications[v].attemptId == a ==> d.verifications[v].verdict == Inconclusive
  }

  lemma UnsettledVerdict(d: Data, op: Id, a: Id, verdict: Verdict)
    requires Unreconciled(d, a) && verdict != Inconclusive
    ensures !HasVerdict(d.verifications, op, a, verdict)
  {
  }

  /** An attempt that nothing settled is still the active one, and its operation
      still holds its scopes. */
  lemma UnreconciledIsActive(d: Data, a: Id)
    requires Inv(d) && a in d.attempts && Unreconciled(d, a)
    ensures d.attempts[a].operationId in d.ops
    ensures d.ops[d.attempts[a].operationId].active == a && InFlight(d.ops[d.attempts[a].operationId].state)
  {
    hide TasksOk, WorkOk, ReservationsSound, ReservationsComplete, MessagesOk, LeasesUnique, GenerationsComplete,
         SettledOk, EvidenceOk, VerificationsOk, RevocationsOk, HasVerdict, Unreconciled, ValidDescriptor;
    var op := d.attempts[a].operationId;
    assert AttemptOk(d.ops, d.attempts, a, d.attempts[a]);
    assert Proven(d.ops[op], d.verifications, d.attempts[a]);
    assert OperationOk(d.tasks, op, d.ops[op]) && ActiveOk(d.attempts, op, d.ops[op]);
    UnsettledVerdict(d, op, a, NotSatisfiedRetryable);
    UnsettledVerdict(d, op, a, Satisfied);
    UnsettledVerdict(d, op, a, NotSatisfiedTerminal);
    if d.ops[op].active != "" {
      assert SameGeneration(d.attempts[a], d.attempts[d.ops[op].active]);
    }
  }

  /** In any interleaving, two different started mutation attempts that no
      verification has settled belong to operations without a common scope. */
  lemma StartedMutationsDisjoint(steps: seq<Step>, a1: Id, a2: Id)
    requires Runnable(IDLE, steps)
    requires var s := Execute(IDLE, steps); a1 in s.started && a2 in s.started && a1 != a2
    ensures var d := Execute(IDLE, steps).d;
            && a1 in d.attempts && a2 in d.attempts
            && d.attempts[a1].operationId in d.ops && d.attempts[a2].operationId in d.ops
            && var o1, o2 := d.ops[d.attempts[a1].operationId], d.ops[d.attempts[a2].operationId];
            && (Unreconciled(d, a1) && Unreconciled(d, a2)
                && o1.descriptor.effect == Mutation && o2.descriptor.effect == Mutation ==>
                  && d.attempts[a1].operationId != d.attempts[a2].operationId
                  && forall x :: x in o1.descriptor.conflictScope ==> x !in o2.descriptor.conflictScope)
  {
    hide Execute, Runnable, TasksOk, OperationsOk, WorkOk, ReservationsSound, ReservationsComplete, MessagesOk, RecordInv,
         LeasesUnique, GenerationsUnique, GenerationsComplete, ActivesOk, SettledOk, CallsInv, Unreconciled;
    StartedAtMostOnce(steps);
    IdleInv();
    RunsKeep(IDLE, steps);
    var d := Execute(IDLE, steps).d;
    assert AttemptOk(d.ops, d.attempts, a1, d.attempts[a1]) && AttemptOk(d.ops, d.attempts, a2, d.attempts[a2]);
    if Unreconciled(d, a1) && Unreconciled(d, a2) {
      UnreconciledIsActive(d, a1);
      UnreconciledIsActive(d, a2);
      if Holds(d.ops[d.attempts[a1].operationId]) && Holds(d.ops[d.attempts[a2].operationId]) {
        MutationsDisjoint(d, d.attempts[a1].operationId, d.attempts[a2].operationId);
      }
    }
  }

  /** An unknown outcome without an error is returned exactly by the commit of this
      call that withdrew its attempt and made the operation unknown. */
  lemma UnknownMeansWithdrawn(s: System, step: Step, c: nat)
    requires SystemInv(s) && Enabled(s, step)
    requires In(Act(s, step), c) && Act(s, step).calls[c].Withdrawn? && !(In(s, c) && s.calls[c].Withdrawn?)
    ensures step.Withdraw? && step.c == c && step.ack == Acknowledged
    ensures var j := Act(s, step).calls[c].job; var d' := Act(s, step).d;
            && j.request.attemptId !in s.d.revocations && j.request.attemptId in d'.revocations
            && j.request.operationId in d'.ops && d'.ops[j.request.operationId].state == UnknownOutcome
            && d'.ops[j.request.operationId].active == j.request.attemptId
            && !HasAuthority(d', ClaimOf(j))
  {
    hide Inv, History.Step, Deliver, InvalidateAttempt, StartedInv, RetryDenied, EventEnvelope, BeatDecisions, ResultDecisions,
         OfferDecisions, OfferEnvelope, HasAuthority, Keeps;
    assert step.Withdraw? && step.c == c;
    assert Working(s, c);
    var j := s.calls[c].job;
    var loss := if step.late then LeaseExpired else OwnershipLost;
    InvalidateAttemptKeeps(s.d, j.descriptor.id, s.calls[c].revision, j.request.attemptId, loss, LossRecord(j, step.now, step.why), step.now);
    InvalidationEndsAuthority(s.d, j.descriptor.id, s.calls[c].revision, j.request.attemptId, loss,
                              LossRecord(j, step.now, step.why), step.now, ClaimOf(j));
    NotYetRevoked(s.d, j.descriptor.id, s.calls[c].revision, j.request.attemptId, loss, LossRecord(j, step.now, step.why), step.now);
  }

  lemma NotYetRevoked(d: Data, id: Id, rev: nat, attempt: Id, reason: LossReason, seen: Evidence, at: Time)
    requires InvalidateAttempt(d, id, rev, attempt, reason, seen, at).Ok?
    ensures attempt !in d.revocations
  {
    hide RegisterEvidence;
  }

  /** And it stays withdrawn: in every later state of the run the attempt is revoked
      and without authority. */
  lemma WithdrawnStaysWithdrawn(steps: seq<Step>, c: nat)
    requires Runnable(IDLE, steps)
    requires In(Execute(IDLE, steps), c) && Execute(IDLE, steps).calls[c].Withdrawn?
    ensures var s := Execute(IDLE, steps);
            && s.calls[c].job.request.attemptId in s.d.revocations
            && !HasAuthority(s.d, ClaimOf(s.calls[c].job))
  {
    hide Execute, Runnable, Inv, StartedInv, Owns;
    IdleInv();
    RunsKeep(IDLE, steps);
  }

  /** The gate lets a call pass only while its claim has authority, unless that very
      heartbeat message was already stored. */
  lemma GateChecksAuthority(s: System, c: nat, now: Time, at: Time, ack: Ack)
    requires SystemInv(s) && Enabled(s, Gate(c, now, at, false, ack))
    requires Act(s, Gate(c, now, at, false, ack)).calls[c].Gated?
    ensures var j := s.calls[c].job; var d' := Act(s, Gate(c, now, at, false, ack)).d;
            BeatId(j, 0) in s.d.messages || (HasAuthority(s.d, ClaimOf(j)) && HasAuthority(d', ClaimOf(j)))
  {
    hide Inv, ValidEnvelope, ValidEvidence, CallsInv, StartedInv, Decimal;
    var j := s.calls[c].job;
    var env := EventEnvelope(j, BeatId(j, 0), "operation.progress", j.worker, at, Payload("", true));
    if BeatId(j, 0) !in s.d.messages {
      BeatNeedsAuthority(s.d, now, env, j, at);
    }
  }

  lemma BeatNeedsAuthority(d: Data, now: Time, env: Envelope, j: Job, at: Time)
    requires Inv(d) && env.messageId !in d.messages
    requires History.ProcessMessage(d, now, env, BeatDecisions(j, 0, at)).Ok?
    ensures HasAuthority(d, ClaimOf(j))
    ensures HasAuthority(History.ProcessMessage(d, now, env, BeatDecisions(j, 0, at)).value.0, ClaimOf(j))
  {
    hide Inv, RegisterMessage, RegisterEvidence, CheckActive, RecordOf;
    MessageOnly(d, now, env);
    NewIsNoDuplicate(d, now, env);
    var d1 := RegisterMessage(d, now, env).value.0;
    var cs := BeatDecisions(j, 0, at);
    assert Decide(d1, now, cs[0]).Ok?;
    assert DecideAll(d1, now, cs) == DecideAll(d1, now, cs[1..]);
    var d2 := Decide(d1, now, cs[1]).value;
    assert DecideAll(d1, now, cs[1..]) == DecideAll(d2, now, cs[1..][1..]);
    assert cs[1..][1..] == [];
    EvidenceOnly(d1, cs[1].record);
    SameAuthority(d, d1, ClaimOf(j));
    SameAuthority(d1, d2, ClaimOf(j));
  }

  lemma NewIsNoDuplicate(d: Data, now: Time, env: Envelope)
    requires env.messageId !in d.messages && RegisterMessage(d, now, env).Ok?
    ensures !RegisterMessage(d, now, env).value.1
  {
    hide ValidEnvelope;
  }

  lemma SameAuthority(d: Data, e: Data, c: Claim)
    requires e.ops == d.ops && e.attempts == d.attempts && e.revocations == d.revocations
    ensures HasAuthority(d, c) <==> HasAuthority(e, c)
  {
  }
}
