/** What the runner delivers: exactly when an offer is accepted, a gate passes and a
    report moves the operation on, and which attempt a retry has to name. */
module Delivering {
  import opened Basics
  import opened Records
  import opened Storage
  import opened Decisions
  import opened Invariant
  import opened Preservation
  import opened Dispatching
  import opened Guarantees
  import opened Exactness
  import opened Runner
  import History

  // ---- one delivery ---------------------------------------------------------

  /** The replay window and the clock skew, around the receiver's clock. */
  predicate InWindow(d: Data, now: Time, issuedAt: Time) {
    && Unix(issuedAt) >= Unix(now - REPLAY_WINDOW) && Unix(issuedAt) >= d.messageFloor
    && issuedAt <= now + CLOCK_SKEW
  }

  /** A message that is new, about work that is stored and still open. */
  predicate Welcome(d: Data, now: Time, env: Envelope) {
    && InWindow(d, now, env.issuedAt) && env.messageId !in d.messages
    && env.operationId in d.ops && d.ops[env.operationId].descriptor.taskId == env.taskId
    && (env.attemptId in d.attempts && env.attemptId != "" ==> d.attempts[env.attemptId].operationId == env.operationId)
    && env.taskId in d.tasks && !Terminal(d.tasks[env.taskId].state)
  }

  function WithMessage(d: Data, now: Time, env: Envelope): Data {
    d.(messages := d.messages[env.messageId := MessageOf(now, env)])
  }

  lemma WelcomeAccepted(d: Data, now: Time, env: Envelope)
    requires ValidEnvelope(env) && env.operationId in d.ops && env.operationId != "" && env.taskId in d.tasks
    requires d.ops[env.operationId].descriptor.taskId == env.taskId
    ensures (RegisterMessage(d, now, env).Ok? && !RegisterMessage(d, now, env).value.1) <==> Welcome(d, now, env)
  {
    hide ValidEnvelope;
    History.AcceptedExactly(d, now, env);
  }

  lemma AcceptedLeaves(d: Data, now: Time, env: Envelope)
    requires RegisterMessage(d, now, env).Ok? && !RegisterMessage(d, now, env).value.1
    ensures RegisterMessage(d, now, env).value.0 == WithMessage(d, now, env)
  {
    hide ValidEnvelope, Acceptable;
  }

  /** A delivery commits as new exactly when the message is welcome and its callback
      goes through on the store that holds it. */
  lemma DeliversExactly(d: Data, now: Time, env: Envelope, cs: seq<Decision>)
    requires Inv(d) && ValidEnvelope(env) && env.operationId in d.ops && env.operationId != ""
    requires d.ops[env.operationId].descriptor.taskId == env.taskId
    ensures (History.ProcessMessage(d, now, env, cs).Ok? && !History.ProcessMessage(d, now, env, cs).value.1) <==>
            Welcome(d, now, env) && DecideAll(WithMessage(d, now, env), now, cs).Ok?
    ensures Welcome(d, now, env) && DecideAll(WithMessage(d, now, env), now, cs).Ok? ==>
              History.ProcessMessage(d, now, env, cs).value.0 == DecideAll(WithMessage(d, now, env), now, cs).value
    ensures Welcome(d, now, env) ==> Inv(WithMessage(d, now, env))
  {
    hide Inv, DecideAll, RegisterMessage, ValidEnvelope, Welcome;
    TargetStored(d, env.operationId);
    WelcomeAccepted(d, now, env);
    if Welcome(d, now, env) {
      AcceptedLeaves(d, now, env);
      MessageOnly(d, now, env);
    }
  }

  // ---- the envelopes of the runner ------------------------------------------

  /** A job about a stored operation, with the identifiers that every message needs. */
  predicate Addressed(d: Data, j: Job) {
    && j.request.operationId in d.ops && j.descriptor == d.ops[j.request.operationId].descriptor
    && j.descriptor.id == j.request.operationId && j.request.correlationId != "" && j.worker != ""
  }

  lemma OfferValid(d: Data, j: Job, body: Payload)
    requires Inv(d) && Addressed(d, j)
    ensures ValidEnvelope(OfferEnvelope(j, body)) <==>
            j.request.messageId != "" && j.request.issuedAt != ZERO_TIME && body.permitted
    ensures j.request.operationId != ""
  {
    hide Inv, Blank;
    NotBlank("controller");
    NotBlank("operation.offer");
    DescriptorStored(d, j.request.operationId);
  }

  lemma EventValid(d: Data, j: Job, id: Id, name: string, at: Time, body: Payload)
    requires Inv(d) && Addressed(d, j) && id != "" && name in {"operation.progress", "operation.result_reported"}
    ensures ValidEnvelope(EventEnvelope(j, id, name, j.worker, at, body)) <==> at != ZERO_TIME && body.permitted
    ensures j.request.operationId != ""
  {
    hide Inv, Blank;
    NotBlank("worker");
    NotBlank("operation.progress");
    NotBlank("operation.result_reported");
    DescriptorStored(d, j.request.operationId);
  }

  lemma DescriptorStored(d: Data, id: Id)
    requires Inv(d) && id in d.ops
    ensures d.ops[id].descriptor.id == id && id != "" && d.ops[id].descriptor.taskId != ""
    ensures !Blank(d.ops[id].descriptor.targetRef)
  {
    hide TasksOk, WorkOk, MessagesOk, GraphInv, RecordInv, ReservationsSound, ReservationsComplete, Blank, DistinctScopes;
    assert OperationOk(d.tasks, id, d.ops[id]);
  }

  /** The runner's records are valid once their clock is set. */
  lemma RecordValid(d: Data, j: Job, id: Id, kind: Kind, actor: Id, at: Time, summary: string)
    requires Inv(d) && Addressed(d, j) && id != "" && actor != "" && !kind.OtherKind?
    ensures ValidEvidence(RecordOf(j, id, kind, actor, at, summary)) <==> at != ZERO_TIME
  {
    hide Inv, Blank;
    DescriptorStored(d, j.request.operationId);
  }

  // ---- offers ---------------------------------------------------------------

  ghost predicate ScopesFree(d: Data, id: Id) {
    id in d.ops && (d.ops[id].descriptor.effect == Mutation ==>
      forall s, other :: s in d.ops[id].descriptor.conflictScope ==> !HeldBy(d, s, other))
  }

  /** What makes an offer acceptable. */
  ghost predicate OfferFits(d: Data, now: Time, j: Job, body: Payload, at: Time) {
    var q := j.request;
    && q.messageId != "" && q.issuedAt != ZERO_TIME && body.permitted
    && InWindow(d, now, q.issuedAt) && q.messageId !in d.messages
    && NewAttempt(d, q.operationId, q.revision, q.attemptId, q.leaseId, j.worker, q.retryOf, at)
    && ScopesFree(d, q.operationId)
    && q.attemptId + "/accepted" !in d.evidence
  }

  function Begun(d: Data, j: Job, at: Time): Attempt
    requires j.request.operationId in d.ops
  {
    Attempt(j.request.attemptId, j.request.operationId, j.request.leaseId, d.ops[j.request.operationId].generation + 1, j.worker,
            j.request.retryOf, Running, at, at)
  }

  /** What an accepted offer leaves, but for the reservations. */
  predicate OfferLeft(d: Data, d': Data, now: Time, j: Job, body: Payload, at: Time)
    requires j.request.operationId in d.ops
  {
    var q := j.request;
    && d'.messages == d.messages[q.messageId := MessageOf(now, OfferEnvelope(j, body))]
    && d'.evidence == d.evidence[q.attemptId + "/accepted" :=
         RecordOf(j, q.attemptId + "/accepted", PolicyDecision, CONTROLLER, at, "accepted")]
    && d'.ops == d.ops[q.operationId := OpAfter(d.ops[q.operationId], Executing, q.attemptId, at).(
         generation := d.ops[q.operationId].generation + 1)]
    && d'.attempts == d.attempts[q.attemptId := Begun(d, j, at)]
    && d' == d.(messages := d'.messages, evidence := d'.evidence, ops := d'.ops, attempts := d'.attempts,
                reservations := d'.reservations)
  }

  lemma FreeOperation(d: Data, id: Id)
    requires Inv(d) && id in d.ops && d.ops[id].state == Ready
    ensures !Terminal(d.tasks[d.ops[id].descriptor.taskId].state)
  {
    hide TasksOk, MessagesOk, GraphInv, RecordInv, ReservationsSound, ReservationsComplete, ValidDescriptor;
    assert OperationOk(d.tasks, id, d.ops[id]);
  }

  /** The callback of an offer, on the store that already holds its message. */
  lemma OfferDecided(d: Data, now: Time, j: Job, at: Time)
    requires Inv(d) && Addressed(d, j)
    ensures var q := j.request;
            DecideAll(d, now, OfferDecisions(j, false, at)).Ok? <==>
            && NewAttempt(d, q.operationId, q.revision, q.attemptId, q.leaseId, j.worker, q.retryOf, at)
            && ScopesFree(d, q.operationId) && q.attemptId + "/accepted" !in d.evidence
    ensures DecideAll(d, now, OfferDecisions(j, false, at)).Ok? ==>
              var d' := DecideAll(d, now, OfferDecisions(j, false, at)).value; var q := j.request;
              && d'.evidence == d.evidence[q.attemptId + "/accepted" :=
                   RecordOf(j, q.attemptId + "/accepted", PolicyDecision, CONTROLLER, at, "accepted")]
              && d'.ops == d.ops[q.operationId := OpAfter(d.ops[q.operationId], Executing, q.attemptId, at).(
                   generation := d.ops[q.operationId].generation + 1)]
              && d'.attempts == d.attempts[q.attemptId := Begun(d, j, at)]
              && d' == d.(evidence := d'.evidence, ops := d'.ops, attempts := d'.attempts, reservations := d'.reservations)
  {
    hide Inv, DecideAll, StartAttempt, RegisterEvidence, ScopesFree, NewAttempt, RecordOf, ValidEvidence, Keeps;
    var q := j.request;
    var cs := OfferDecisions(j, false, at);
    History.BothDecided(d, now, cs);
    StartsExactly(d, q.operationId, q.revision, q.attemptId, q.leaseId, j.worker, q.retryOf, at);
    FitsStart(d, j, at);
    if Decide(d, now, cs[0]).Ok? {
      var d1 := Decide(d, now, cs[0]).value;
      StartLeaves(d, q.operationId, q.revision, q.attemptId, q.leaseId, j.worker, q.retryOf, at);
      StartAttemptKeeps(d, q.operationId, q.revision, q.attemptId, q.leaseId, j.worker, q.retryOf, at);
      KeepsInv(d, d1);
      RecordOfOffer(d, d1, j, at);
    }
  }

  lemma FitsStart(d: Data, j: Job, at: Time)
    requires j.request.operationId in d.ops
    ensures var q := j.request; var op := d.ops[q.operationId];
            NewAttempt(d, q.operationId, q.revision, q.attemptId, q.leaseId, j.worker, q.retryOf, at) && ScopesFree(d, q.operationId) <==>
            && NewAttempt(d, q.operationId, q.revision, q.attemptId, q.leaseId, j.worker, q.retryOf, at)
            && (op.descriptor.effect == Mutation ==> forall s, other :: s in op.descriptor.conflictScope ==> !HeldBy(d, s, other))
    ensures NewAttempt(d, j.request.operationId, j.request.revision, j.request.attemptId, j.request.leaseId, j.worker, j.request.retryOf, at)
            ==> d.ops[j.request.operationId].state == Ready && at != ZERO_TIME && j.request.attemptId != ""
  {
    hide LeaseTaken, HeldBy;
  }

  lemma RecordOfOffer(d: Data, d1: Data, j: Job, at: Time)
    requires Inv(d) && Inv(d1) && Addressed(d, j) && at != ZERO_TIME && d.ops[j.request.operationId].state == Ready
    requires d1.tasks == d.tasks && d1.evidence == d.evidence && j.request.operationId in d1.ops
    requires d1.ops[j.request.operationId].descriptor == d.ops[j.request.operationId].descriptor
    requires j.request.attemptId in d1.attempts && d1.attempts[j.request.attemptId].operationId == j.request.operationId
    ensures var e := RecordOf(j, j.request.attemptId + "/accepted", PolicyDecision, CONTROLLER, at, "accepted");
            RegisterEvidence(d1, e).Ok? <==> j.request.attemptId + "/accepted" !in d.evidence
    ensures var e := RecordOf(j, j.request.attemptId + "/accepted", PolicyDecision, CONTROLLER, at, "accepted");
            RegisterEvidence(d1, e).Ok? ==>
              RegisterEvidence(d1, e).value == d1.(evidence := d1.evidence[j.request.attemptId + "/accepted" := e])
  {
    hide Inv, RegisterEvidence, ValidEvidence;
    var e := RecordOf(j, j.request.attemptId + "/accepted", PolicyDecision, CONTROLLER, at, "accepted");
    RecordValid(d, j, e.id, PolicyDecision, CONTROLLER, at, "accepted");
    FreeOperation(d, j.request.operationId);
    EvidenceExactly(d1, e);
  }

  /** An offer is accepted exactly when it fits, and begins the next generation. */
  lemma OfferExactly(d: Data, now: Time, j: Job, body: Payload, at: Time)
    requires Inv(d) && Addressed(d, j)
    ensures var result := History.ProcessMessage(d, now, OfferEnvelope(j, body), OfferDecisions(j, false, at));
            && ((result.Ok? && !result.value.1) <==> OfferFits(d, now, j, body, at))
            && (result.Ok? && !result.value.1 ==> OfferLeft(d, result.value.0, now, j, body, at))
  {
    hide Inv, DecideAll, RegisterMessage, OfferDecisions, History.ProcessMessage, ScopesFree, NewAttempt, ValidEnvelope;
    var env := OfferEnvelope(j, body);
    var cs := OfferDecisions(j, false, at);
    OfferValid(d, j, body);
    if ValidEnvelope(env) {
      DeliversExactly(d, now, env, cs);
      OfferWelcome(d, now, j, body, at);
      if Welcome(d, now, env) {
        OfferDecided(WithMessage(d, now, env), now, j, at);
        SameStart(d, now, env, j, at);
      }
    } else {
      Invalid(d, now, env, cs);
    }
  }

  lemma Invalid(d: Data, now: Time, env: Envelope, cs: seq<Decision>)
    requires !ValidEnvelope(env)
    ensures History.ProcessMessage(d, now, env, cs) == Err(InvalidEnvelope)
  {
    hide ValidEnvelope;
  }

  lemma OfferWelcome(d: Data, now: Time, j: Job, body: Payload, at: Time)
    requires Inv(d) && Addressed(d, j)
    ensures OfferFits(d, now, j, body, at) ==> Welcome(d, now, OfferEnvelope(j, body))
    ensures Welcome(d, now, OfferEnvelope(j, body)) ==> InWindow(d, now, j.request.issuedAt) && j.request.messageId !in d.messages
  {
    hide Inv, LeaseTaken, ScopesFree, InWindow;
    TargetStored(d, j.request.operationId);
    if d.ops[j.request.operationId].state == Ready {
      FreeOperation(d, j.request.operationId);
    }
  }

  lemma SameStart(d: Data, now: Time, env: Envelope, j: Job, at: Time)
    ensures var d1 := WithMessage(d, now, env); var q := j.request;
            && NewAttempt(d1, q.operationId, q.revision, q.attemptId, q.leaseId, j.worker, q.retryOf, at)
               == NewAttempt(d, q.operationId, q.revision, q.attemptId, q.leaseId, j.worker, q.retryOf, at)
            && ScopesFree(d1, q.operationId) == ScopesFree(d, q.operationId)
  {
    hide LeaseTaken;
    var d1 := WithMessage(d, now, env);
    assert forall s, other :: HeldBy(d1, s, other) == HeldBy(d, s, other);
  }

  // ---- retries --------------------------------------------------------------

  /** The request names the attempt of generation `g` of its operation. */
  predicate NamesGeneration(d: Data, q: Request, g: nat) {
    q.retryOf in d.attempts && d.attempts[q.retryOf].operationId == q.operationId && d.attempts[q.retryOf].generation == g
  }

  lemma ReadActs(s: System, c: nat)
    requires Enabled(s, ReadOperation(c)) && s.calls[c].request.operationId in s.d.ops
    ensures var p := s.calls[c];
            Act(s, ReadOperation(c)) == s.(calls := s.calls[c := Checking(p.request, p.worker, s.d.ops[p.request.operationId])])
  {
  }

  /** The check passes exactly when policy and worker do not refuse and, for an
      operation that is ready again, the request names the attempt of the generation
      it saw. */
  lemma CheckExactly(s: System, c: nat, refused: bool)
    requires Enabled(s, Check(c, refused))
    ensures var p := s.calls[c]; var s' := Act(s, Check(c, refused));
            && s'.calls[c].Offering? && s'.calls[c].request == p.request && s'.calls[c].descriptor == p.seen.descriptor
            && s'.calls[c].worker == p.worker && s' == s.(calls := s.calls[c := s'.calls[c]])
            && (!s'.calls[c].denied <==>
                  !refused && (p.seen.state == Ready && p.seen.generation > 0 ==> NamesGeneration(s.d, p.request, p.seen.generation)))
  {
  }

  function Offered(s: System, c: nat): Job
    requires In(s, c) && s.calls[c].Offering?
  {
    Job(s.calls[c].request, s.calls[c].descriptor, s.calls[c].worker, 0)
  }

  /** An acknowledged offer that was not denied is accepted exactly when it fits; the
      accepted job has the next generation. */
  lemma OfferActs(s: System, c: nat, now: Time, at: Time, body: Payload)
    requires SystemInv(s) && In(s, c) && s.calls[c].Offering? && !s.calls[c].denied && Addressed(s.d, Offered(s, c))
    ensures var s' := AfterOffer(s, c, now, at, body, Acknowledged); var j := Offered(s, c);
            && In(s', c) && (s'.calls[c].Accepted? <==> OfferFits(s.d, now, j, body, at))
            && (s'.calls[c].Accepted? ==>
                  && OfferLeft(s.d, s'.d, now, j, body, at)
                  && s' == s.(d := s'.d, calls := s.calls[c := s'.calls[c]])
                  && s'.calls[c] == Accepted(j.(generation := s.d.ops[j.request.operationId].generation + 1)))
  {
    hide Inv, History.ProcessMessage, OfferEnvelope, OfferDecisions, OfferFits, CallsInv, StartedInv, RecordOf, MessageOf;
    OfferExactly(s.d, now, Offered(s, c), body, at);
  }

  /** Whatever acknowledgement it gets, an accepted offer was not denied and fitted. */
  lemma AcceptedFits(s: System, c: nat, now: Time, at: Time, body: Payload, ack: Ack)
    requires SystemInv(s) && In(s, c) && s.calls[c].Offering? && Addressed(s.d, Offered(s, c))
    requires AfterOffer(s, c, now, at, body, ack).calls[c].Accepted?
    ensures !s.calls[c].denied && ack == Acknowledged
  {
    hide Inv, History.ProcessMessage, OfferEnvelope, OfferDecisions, CallsInv, StartedInv;
  }

  /** A call has read its operation and checked it. */
  ghost function CheckedCall(s: System, c: nat, refused: bool): (s': System)
    requires Enabled(s, ReadOperation(c)) && s.calls[c].request.operationId in s.d.ops
    ensures In(s', c) && s'.calls[c].Offering? && s'.d == s.d
  {
    hide Act;
    ReadActs(s, c);
    CheckExactly(Act(s, ReadOperation(c)), c, refused);
    Act(Act(s, ReadOperation(c)), Check(c, refused))
  }

  /** And has made its offer. */
  ghost function OfferedCall(s: System, c: nat, refused: bool, now: Time, at: Time, body: Payload, ack: Ack): (s': System)
    requires Enabled(s, ReadOperation(c)) && s.calls[c].request.operationId in s.d.ops
    ensures In(s', c) && s' == AfterOffer(CheckedCall(s, c, refused), c, now, at, body, ack)
  {
    hide Act, CheckedCall, AfterOffer;
    OfferIs(CheckedCall(s, c, refused), c, now, at, body, ack);
    Act(CheckedCall(s, c, refused), Offer(c, now, at, body, ack))
  }

  /** A call that reads an operation which is ready again, checks it and makes its
      offer, with no step in between, gets the next generation only for a request that
      names the attempt of the generation it follows. */
  lemma RetryNamesPredecessor(s: System, c: nat, refused: bool, now: Time, at: Time, body: Payload, ack: Ack, s': System)
    requires SystemInv(s) && Enabled(s, ReadOperation(c)) && s.calls[c].worker != ""
    requires s.calls[c].request.operationId in s.d.ops && s.calls[c].request.correlationId != ""
    requires var op := s.d.ops[s.calls[c].request.operationId]; op.state == Ready && op.generation > 0
    requires s' == OfferedCall(s, c, refused, now, at, body, ack) && s'.calls[c].Accepted?
    ensures var q := s.calls[c].request; var g := s.d.ops[q.operationId].generation;
            && !refused && NamesGeneration(s.d, q, g) && q.attemptId !in s.d.attempts
            && q.attemptId in s'.d.attempts && s'.calls[c].job.generation == g + 1
            && s'.d.attempts[q.attemptId] == Attempt(q.attemptId, q.operationId, q.leaseId, g + 1, s.calls[c].worker, q.retryOf,
                                                     Running, at, at)
            && q.operationId in s'.d.ops && s'.d.ops[q.operationId].active == q.attemptId
  {
    hide SystemInv, Act, AfterOffer, Inv, OfferFits, NamesGeneration, CheckedCall, OfferedCall;
    CheckedActs(s, c, refused);
    var s2 := CheckedCall(s, c, refused);
    ReadyAgain(s, s2, c);
    AcceptedFits(s2, c, now, at, body, ack);
    OfferActs(s2, c, now, at, body);
    FitIsNew(s2.d, now, Offered(s2, c), body, at);
  }

  lemma CheckedActs(s: System, c: nat, refused: bool)
    requires Enabled(s, ReadOperation(c)) && s.calls[c].request.operationId in s.d.ops
    ensures var q := s.calls[c].request; var s2 := CheckedCall(s, c, refused);
            && s2 == s.(calls := s.calls[c := s2.calls[c]]) && s2.calls[c].request == q && s2.calls[c].worker == s.calls[c].worker
            && s2.calls[c].descriptor == s.d.ops[q.operationId].descriptor
            && (!s2.calls[c].denied <==>
                  !refused && (s.d.ops[q.operationId].state == Ready && s.d.ops[q.operationId].generation > 0 ==>
                                 NamesGeneration(s.d, q, s.d.ops[q.operationId].generation)))
  {
    hide Act, NamesGeneration;
    ReadActs(s, c);
    CheckExactly(Act(s, ReadOperation(c)), c, refused);
  }

  lemma FitIsNew(d: Data, now: Time, j: Job, body: Payload, at: Time)
    requires OfferFits(d, now, j, body, at)
    ensures j.request.attemptId !in d.attempts
  {
    hide LeaseTaken, ScopesFree;
  }

  lemma OfferIs(s: System, c: nat, now: Time, at: Time, body: Payload, ack: Ack)
    requires Enabled(s, Offer(c, now, at, body, ack))
    ensures Act(s, Offer(c, now, at, body, ack)) == AfterOffer(s, c, now, at, body, ack)
    ensures In(AfterOffer(s, c, now, at, body, ack), c)
  {
    hide Deliver, OfferEnvelope, OfferDecisions;
  }

  lemma ReadyAgain(s: System, s2: System, c: nat)
    requires SystemInv(s) && Enabled(s, ReadOperation(c)) && s.calls[c].request.operationId in s.d.ops
    requires In(s2, c) && s2 == s.(calls := s.calls[c := s2.calls[c]]) && s2.calls[c].Offering?
    requires s2.calls[c].descriptor == s.d.ops[s.calls[c].request.operationId].descriptor
    requires s2.calls[c].request == s.calls[c].request && s2.calls[c].worker == s.calls[c].worker != ""
    requires s.calls[c].request.correlationId != ""
    ensures SystemInv(s2) && Addressed(s2.d, Offered(s2, c))
  {
    hide Inv, Owns, Keeps;
    KeepsReflexive(s.d);
    SeenOperation(s.d, s.calls[c].request.operationId);
    OthersKeep(s, s2, c);
  }

  /** And a request that names it, and is refused by nobody, is accepted exactly when
      it fits the store, once its commit is acknowledged. */
  lemma RetryIsAccepted(s: System, c: nat, now: Time, at: Time, body: Payload)
    requires SystemInv(s) && Enabled(s, ReadOperation(c)) && s.calls[c].worker != ""
    requires s.calls[c].request.operationId in s.d.ops && s.calls[c].request.correlationId != ""
    requires var op := s.d.ops[s.calls[c].request.operationId];
             op.generation > 0 ==> NamesGeneration(s.d, s.calls[c].request, op.generation)
    ensures var p := s.calls[c];
            && !CheckedCall(s, c, false).calls[c].denied
            && (OfferedCall(s, c, false, now, at, body, Acknowledged).calls[c].Accepted? <==>
                  OfferFits(s.d, now, Job(p.request, s.d.ops[p.request.operationId].descriptor, p.worker, 0), body, at))
  {
    hide SystemInv, Act, AfterOffer, Inv, OfferFits, NamesGeneration, CheckedCall, OfferedCall;
    CheckedActs(s, c, false);
    var s2 := CheckedCall(s, c, false);
    ReadyAgain(s, s2, c);
    OfferActs(s2, c, now, at, body);
  }

  // ---- names ----------------------------------------------------------------

  lemma {:induction false} DecimalsDiffer(a: nat, b: nat)
    requires a != b
    ensures Decimal(a) != Decimal(b)
    decreases a
  {
    LastDigit(a);
    LastDigit(b);
    if a >= 10 && b >= 10 && a % 10 == b % 10 {
      DecimalsDiffer(a / 10, b / 10);
      assert Decimal(a)[..|Decimal(a)| - 1] == Decimal(a / 10);
      assert Decimal(b)[..|Decimal(b)| - 1] == Decimal(b / 10);
    }
  }

  lemma LastDigit(n: nat)
    ensures |Decimal(n)| >= 1 && Decimal(n)[|Decimal(n)| - 1] == "0123456789"[n % 10]
    ensures n >= 10 <==> |Decimal(n)| > 1
    ensures forall m: nat :: m < 10 && "0123456789"[m] == "0123456789"[n % 10] ==> m == n % 10
  {
    if n >= 10 {
      LastDigit(n / 10);
    }
  }

  /** No heartbeat of an attempt takes the name of another, nor of its acceptance, its
      result or its loss. */
  lemma BeatNamesDiffer(j: Job, a: nat, b: nat)
    requires a != b
    ensures BeatId(j, a) != BeatId(j, b)
    ensures BeatId(j, a) !in {j.request.attemptId + "/accepted", ResultId(j), j.request.attemptId + "/lost"}
  {
    hide Decimal;
    DecimalsDiffer(a, b);
    var x := j.request.attemptId;
    var tail := x + "/heartbeat/";
    assert BeatId(j, a) == tail + Decimal(a) && BeatId(j, b) == tail + Decimal(b);
    assert (tail + Decimal(a))[|tail|..] == Decimal(a) && (tail + Decimal(b))[|tail|..] == Decimal(b);
    assert BeatId(j, a)[|x| + 1] == 'h' && (x + "/accepted")[|x| + 1] == 'a' && ResultId(j)[|x| + 1] == 'r' && (x + "/lost")[|x| + 1] == 'l';
  }

  // ---- heartbeats -----------------------------------------------------------

  lemma InCharge(d: Data, j: Job)
    requires Inv(d) && Addressed(d, j) && HasAuthority(d, ClaimOf(j))
    ensures j.request.attemptId in d.attempts && d.attempts[j.request.attemptId].operationId == j.request.operationId
    ensures d.ops[j.request.operationId].active == j.request.attemptId
    ensures !Terminal(d.tasks[j.descriptor.taskId].state)
  {
    hide Inv;
    AuthorityExact(d, ClaimOf(j));
    TargetStored(d, j.request.operationId);
  }

  lemma BeatDecided(d: Data, now: Time, j: Job, beats: nat, at: Time)
    requires Inv(d) && Addressed(d, j)
    ensures DecideAll(d, now, BeatDecisions(j, beats, at)).Ok? <==>
            HasAuthority(d, ClaimOf(j)) && at != ZERO_TIME && BeatId(j, beats) !in d.evidence
    ensures DecideAll(d, now, BeatDecisions(j, beats, at)).Ok? ==>
              DecideAll(d, now, BeatDecisions(j, beats, at)).value ==
              d.(evidence := d.evidence[BeatId(j, beats) := RecordOf(j, BeatId(j, beats), WorkerReport, j.worker, at, "heartbeat")])
  {
    hide Inv, DecideAll, CheckActive, RegisterEvidence, ValidEvidence, Decimal, HasAuthority;
    var cs := BeatDecisions(j, beats, at);
    History.BothDecided(d, now, cs);
    EvidenceExactly(d, cs[1].record);
    RecordValid(d, j, BeatId(j, beats), WorkerReport, j.worker, at, "heartbeat");
    CheckIsAuthority(d, now, j, cs[0]);
    if HasAuthority(d, ClaimOf(j)) {
      InCharge(d, j);
    }
  }

  lemma CheckIsAuthority(d: Data, now: Time, j: Job, c: Decision)
    requires c == DoCheckActive(ClaimOf(j))
    ensures Decide(d, now, c).Ok? <==> HasAuthority(d, ClaimOf(j))
    ensures Decide(d, now, c).Ok? ==> Decide(d, now, c).value == d
  {
    hide CheckActive;
  }

  function BeatEnvelope(j: Job, beats: nat, at: Time): Envelope {
    EventEnvelope(j, BeatId(j, beats), "operation.progress", j.worker, at, Payload("", true))
  }

  ghost predicate BeatFits(d: Data, now: Time, j: Job, beats: nat, at: Time) {
    && at != ZERO_TIME && InWindow(d, now, at) && HasAuthority(d, ClaimOf(j))
    && BeatId(j, beats) !in d.messages && BeatId(j, beats) !in d.evidence
  }

  lemma SameAuthority(d: Data, now: Time, env: Envelope, c: Claim)
    ensures HasAuthority(WithMessage(d, now, env), c) == HasAuthority(d, c)
  {
  }

  /** A heartbeat is accepted as new exactly while the claim has authority, its clock
      is inside the window and its name is fresh; it adds its message and its record. */
  lemma BeatExactly(d: Data, now: Time, j: Job, beats: nat, at: Time)
    requires Inv(d) && Addressed(d, j)
    ensures var result := History.ProcessMessage(d, now, BeatEnvelope(j, beats, at), BeatDecisions(j, beats, at));
            && ((result.Ok? && !result.value.1) <==> BeatFits(d, now, j, beats, at))
            && (result.Ok? && !result.value.1 ==>
                  result.value.0 == WithMessage(d, now, BeatEnvelope(j, beats, at)).(
                    evidence := d.evidence[BeatId(j, beats) := RecordOf(j, BeatId(j, beats), WorkerReport, j.worker, at, "heartbeat")]))
  {
    hide Inv, DecideAll, RegisterMessage, BeatDecisions, History.ProcessMessage, ValidEnvelope, HasAuthority, Decimal, InWindow,
         RecordOf;
    var env := BeatEnvelope(j, beats, at);
    var cs := BeatDecisions(j, beats, at);
    EventValid(d, j, BeatId(j, beats), "operation.progress", at, Payload("", true));
    if ValidEnvelope(env) {
      DeliversExactly(d, now, env, cs);
      SameAuthority(d, now, env, ClaimOf(j));
      TargetStored(d, j.request.operationId);
      if HasAuthority(d, ClaimOf(j)) {
        InCharge(d, j);
      }
      if Welcome(d, now, env) {
        BeatDecided(WithMessage(d, now, env), now, j, beats, at);
      }
    } else {
      Invalid(d, now, env, cs);
    }
  }

  // ---- reports --------------------------------------------------------------

  function ReportEnvelope(j: Job, at: Time, body: Payload): Envelope {
    EventEnvelope(j, ResultId(j), "operation.result_reported", j.worker, at, body)
  }

  /** What makes a report move its operation on. */
  ghost predicate ReportFits(d: Data, now: Time, j: Job, at: Time, body: Payload) {
    && at != ZERO_TIME && body.permitted && InWindow(d, now, at) && HasAuthority(d, ClaimOf(j))
    && ResultId(j) !in d.messages && ResultId(j) !in d.evidence
    && now != ZERO_TIME && j.request.deadline != ZERO_TIME && now < j.request.deadline
    && j.request.operationId in d.ops && d.ops[j.request.operationId].state == Executing
    && d.ops[j.request.operationId].revision < MAX_INT64
  }

  predicate ReportLeft(d: Data, d': Data, now: Time, j: Job, at: Time, digest: string, body: Payload)
    requires j.request.operationId in d.ops && j.request.attemptId in d.attempts
  {
    && d'.messages == d.messages[ResultId(j) := MessageOf(now, ReportEnvelope(j, at, body))]
    && d'.evidence == d.evidence[ResultId(j) := ResultRecord(j, at, digest)]
    && d'.ops == d.ops[j.request.operationId := OpAfter(d.ops[j.request.operationId], Verifying, j.request.attemptId, now)]
    && d'.attempts == AttemptAfter(d.attempts, j.request.attemptId, Reported, now)
    && d' == d.(messages := d'.messages, evidence := d'.evidence, ops := d'.ops, attempts := d'.attempts)
  }

  lemma ReportDecided(d: Data, now: Time, j: Job, at: Time, digest: string)
    requires Inv(d) && Addressed(d, j)
    ensures var result := RecordWorkerReport(d, now, ResultRecord(j, at, digest), j.request.leaseId, j.generation, j.request.deadline);
            && ((result.Ok? && result.value.1) <==>
                  && HasAuthority(d, ClaimOf(j)) && at != ZERO_TIME && ResultId(j) !in d.evidence
                  && now != ZERO_TIME && j.request.deadline != ZERO_TIME && now < j.request.deadline
                  && d.ops[j.request.operationId].state == Executing && d.ops[j.request.operationId].revision < MAX_INT64)
            && (result.Ok? && result.value.1 ==>
                  && j.request.attemptId in d.attempts
                  && result.value.0 == d.(
                       evidence := d.evidence[ResultId(j) := ResultRecord(j, at, digest)],
                       ops := d.ops[j.request.operationId := OpAfter(d.ops[j.request.operationId], Verifying, j.request.attemptId, now)],
                       attempts := AttemptAfter(d.attempts, j.request.attemptId, Reported, now)))
  {
    hide Inv, RegisterEvidence, ValidEvidence, HasAuthority, RecordWorkerReport;
    var r := ResultRecord(j, at, digest);
    ReportAppliesExactly(d, now, r, j.request.leaseId, j.generation, j.request.deadline);
    AuthorityExact(d, ClaimOf(j));
    RecordDigest(d, j, at, digest);
    EvidenceExactly(d, r);
    if HasAuthority(d, ClaimOf(j)) {
      InCharge(d, j);
    }
    if RecordWorkerReport(d, now, r, j.request.leaseId, j.generation, j.request.deadline).Ok?
       && RecordWorkerReport(d, now, r, j.request.leaseId, j.generation, j.request.deadline).value.1
    {
      ReportMoves(d, now, j, r);
    }
  }

  lemma RecordDigest(d: Data, j: Job, at: Time, digest: string)
    requires Inv(d) && Addressed(d, j)
    ensures ValidEvidence(ResultRecord(j, at, digest)) <==> at != ZERO_TIME
  {
    hide Inv, Blank;
    DescriptorStored(d, j.request.operationId);
  }

  lemma ReportMoves(d: Data, now: Time, j: Job, r: Evidence)
    requires Inv(d) && r.operationId in d.ops && r.operationId == j.request.operationId
    requires d.ops[r.operationId].active == j.request.attemptId && d.ops[r.operationId].state == Executing
    requires RegisterEvidence(d, r).Ok?
    requires RecordWorkerReport(d, now, r, j.request.leaseId, j.generation, j.request.deadline).Ok?
    requires RecordWorkerReport(d, now, r, j.request.leaseId, j.generation, j.request.deadline).value.1
    ensures j.request.attemptId in d.attempts
    ensures RecordWorkerReport(d, now, r, j.request.leaseId, j.generation, j.request.deadline).value.0 ==
            d.(evidence := d.evidence[r.id := r],
               ops := d.ops[r.operationId := OpAfter(d.ops[r.operationId], Verifying, j.request.attemptId, now)],
               attempts := AttemptAfter(d.attempts, j.request.attemptId, Reported, now))
  {
    hide Inv, RegisterEvidence, BeginVerification, CheckActive;
    RegisterEvidenceKeeps(d, r);
    var d1 := d.(evidence := d.evidence[r.id := r]);
    VerificationBeginsExactly(d1, r.operationId, d.ops[r.operationId].revision, now);
  }

  /** A report is taken and moves its operation on exactly when it fits: the operation
      is then verifying, its attempt reported, and the record stored. */
  lemma ReportExactly(d: Data, now: Time, j: Job, at: Time, digest: string, body: Payload)
    requires Inv(d) && Addressed(d, j)
    ensures var result := History.ProcessMessage(d, now, ReportEnvelope(j, at, body), ResultDecisions(j, at, digest));
            && ((result.Ok? && !result.value.1 && Applied(d, now, ReportEnvelope(j, at, body), j, at, digest)) <==>
                  ReportFits(d, now, j, at, body))
            && (ReportFits(d, now, j, at, body) ==>
                  j.request.attemptId in d.attempts && ReportLeft(d, result.value.0, now, j, at, digest, body))
  {
    hide Inv, DecideAll, RegisterMessage, ValidEnvelope, HasAuthority, InWindow, RecordWorkerReport, ResultRecord;
    var env := ReportEnvelope(j, at, body);
    var cs := ResultDecisions(j, at, digest);
    EventValid(d, j, ResultId(j), "operation.result_reported", at, body);
    if ValidEnvelope(env) {
      DeliversExactly(d, now, env, cs);
      SameAuthority(d, now, env, ClaimOf(j));
      TargetStored(d, j.request.operationId);
      if HasAuthority(d, ClaimOf(j)) {
        InCharge(d, j);
      }
      WelcomeAccepted(d, now, env);
      if Welcome(d, now, env) {
        AcceptedLeaves(d, now, env);
        History.OneDecision(WithMessage(d, now, env), now, cs);
        ReportDecided(WithMessage(d, now, env), now, j, at, digest);
      }
    } else {
      Invalid(d, now, env, cs);
    }
  }

  // ---- the calls ------------------------------------------------------------

  function Beaten(s: System, j: Job, beats: nat, now: Time, at: Time): Data {
    WithMessage(s.d, now, BeatEnvelope(j, beats, at)).(
      evidence := s.d.evidence[BeatId(j, beats) := RecordOf(j, BeatId(j, beats), WorkerReport, j.worker, at, "heartbeat")])
  }

  /** A gate whose heartbeat has a fresh name passes exactly when the heartbeat fits,
      and stores it; otherwise the call gives its attempt up, and nothing is stored. */
  lemma GateActs(s: System, c: nat, now: Time, at: Time)
    requires SystemInv(s) && Enabled(s, Gate(c, now, at, false, Acknowledged)) && Addressed(s.d, s.calls[c].job)
    requires BeatId(s.calls[c].job, 0) !in s.d.messages
    ensures var j := s.calls[c].job;
            Act(s, Gate(c, now, at, false, Acknowledged)) ==
            if BeatFits(s.d, now, j, 0, at) then s.(d := Beaten(s, j, 0, now, at), calls := s.calls[c := Gated(j)])
            else s.(calls := s.calls[c := Losing(j, false)])
  {
    hide Inv, History.ProcessMessage, BeatDecisions, BeatFits, CallsInv, StartedInv, RecordOf, MessageOf, EventEnvelope, BeatId;
    BeatExactly(s.d, now, s.calls[c].job, 0, at);
    BeatNamed(s.calls[c].job, 0, at);
    NewOrRefused(s.d, now, BeatEnvelope(s.calls[c].job, 0, at), BeatDecisions(s.calls[c].job, 0, at));
  }

  lemma BeatNamed(j: Job, beats: nat, at: Time)
    ensures BeatEnvelope(j, beats, at).messageId == BeatId(j, beats)
  {
    hide BeatId;
  }

  lemma NewOrRefused(d: Data, now: Time, env: Envelope, cs: seq<Decision>)
    ensures env.messageId !in d.messages && History.ProcessMessage(d, now, env, cs).Ok? ==>
              !History.ProcessMessage(d, now, env, cs).value.1
  {
    hide ValidEnvelope, Acceptable, DecideAll;
  }

  /** A heartbeat of a running worker is counted exactly when it is stored; one that
      does not fit leaves the call and the store as they are. */
  lemma BeatActs(s: System, c: nat, now: Time, at: Time)
    requires SystemInv(s) && Enabled(s, Beat(c, now, at, Acknowledged)) && Addressed(s.d, s.calls[c].job)
    requires BeatId(s.calls[c].job, s.calls[c].beats) !in s.d.messages
    ensures var j := s.calls[c].job; var n := s.calls[c].beats;
            Act(s, Beat(c, now, at, Acknowledged)) ==
            if BeatFits(s.d, now, j, n, at) then s.(d := Beaten(s, j, n, now, at), calls := s.calls[c := Dispatched(j, n + 1)])
            else s
  {
    hide Inv, History.ProcessMessage, BeatDecisions, BeatFits, CallsInv, StartedInv, RecordOf, MessageOf, EventEnvelope, BeatId;
    var n := s.calls[c].beats;
    BeatExactly(s.d, now, s.calls[c].job, n, at);
    BeatNamed(s.calls[c].job, n, at);
    NewOrRefused(s.d, now, BeatEnvelope(s.calls[c].job, n, at), BeatDecisions(s.calls[c].job, n, at));
    assert s.calls[c := s.calls[c]] == s.calls;
  }

  /** A report that is acknowledged tells its call that it was applied exactly when it
      fits. */
  lemma ReportActs(s: System, c: nat, now: Time, at: Time, digest: string, body: Payload)
    requires SystemInv(s) && In(s, c) && s.calls[c].Reporting? && Addressed(s.d, s.calls[c].job)
    ensures var s' := AfterReport(s, c, now, at, digest, body, Acknowledged); var j := s.calls[c].job;
            && In(s', c) && (s'.calls[c] == Returned(ReportedBack(true)) <==> ReportFits(s.d, now, j, at, body))
            && (ReportFits(s.d, now, j, at, body) ==>
                  && j.request.attemptId in s.d.attempts && ReportLeft(s.d, s'.d, now, j, at, digest, body)
                  && s' == s.(d := s'.d, calls := s.calls[c := s'.calls[c]]))
  {
    hide Inv, History.ProcessMessage, ResultDecisions, ReportFits, CallsInv, StartedInv, ResultRecord, MessageOf, EventEnvelope,
         ReportLeft, Applied;
    ReportExactly(s.d, now, s.calls[c].job, at, digest, body);
  }

  /** A call that has read its operation as still its own withdraws it exactly when the
      operation has not moved since, the clock is set and the observation is new. The
      outcome is then unknown, under the reason the call gives. */
  lemma WithdrawActs(s: System, c: nat, now: Time, late: bool, why: string)
    requires SystemInv(s) && In(s, c) && s.calls[c].Withdrawing? && Addressed(s.d, s.calls[c].job)
    ensures var s' := AfterWithdraw(s, c, now, late, why, Acknowledged); var j := s.calls[c].job; var q := j.request;
            && In(s', c)
            && (s'.calls[c].Withdrawn? <==>
                  && Current(s.d, q.operationId, s.calls[c].revision, now)
                  && s.d.ops[q.operationId].active == q.attemptId && q.attemptId != "" && q.attemptId !in s.d.revocations
                  && q.attemptId + "/lost" !in s.d.evidence)
            && (s'.calls[c].Withdrawn? ==>
                  && q.attemptId in s.d.attempts && s'.calls[c] == Withdrawn(j, s.calls[c].failed)
                  && s'.d == s.d.(
                       ops := s.d.ops[q.operationId := OpAfter(s.d.ops[q.operationId], UnknownOutcome, q.attemptId, now)],
                       attempts := AttemptAfter(s.d.attempts, q.attemptId, Uncertain, now),
                       evidence := s.d.evidence[q.attemptId + "/lost" := LossRecord(j, now, why)],
                       revocations := s.d.revocations[q.attemptId :=
                         Revocation(q.attemptId, q.operationId, q.attemptId + "/lost",
                                    if late then LeaseExpired else OwnershipLost, now)]))
  {
    hide Inv, CallsInv, StartedInv, InvalidateAttempt, ValidEvidence;
    var j := s.calls[c].job;
    var loss := if late then LeaseExpired else OwnershipLost;
    InvalidatesExactly(s.d, j.descriptor.id, s.calls[c].revision, j.request.attemptId, loss, LossRecord(j, now, why), now);
    RecordValid(s.d, j, j.request.attemptId + "/lost", ProcessObservation, CONTROLLER, now, why);
  }

  /** A job that lost its call goes on to withdraw exactly while its attempt is the
      active one of its operation. */
  lemma LoseActs(s: System, c: nat)
    requires Enabled(s, Lose(c))
    ensures var j := s.calls[c].job; var mine := j.descriptor.id in s.d.ops && s.d.ops[j.descriptor.id].active == j.request.attemptId;
            Act(s, Lose(c)) == s.(calls := s.calls[c :=
              if mine then Withdrawing(j, s.d.ops[j.descriptor.id].revision, s.calls[c].failed) else Errored])
  {
  }

  /** The same offer again is answered as a duplicate: no attempt begins, and nothing
      is stored. */
  lemma OfferedAgain(s: System, c: nat, now: Time, at: Time, body: Payload, first: Time, d0: Data)
    requires SystemInv(s) && In(s, c) && s.calls[c].Offering?
    requires RegisterMessage(d0, first, OfferEnvelope(Offered(s, c), body)).Ok?
    requires !RegisterMessage(d0, first, OfferEnvelope(Offered(s, c), body)).value.1
    requires Grows(WithMessage(d0, first, OfferEnvelope(Offered(s, c), body)).messages, s.d.messages)
    requires InWindow(s.d, now, s.calls[c].request.issuedAt)
    ensures var s' := AfterOffer(s, c, now, at, body, Acknowledged);
            s' == s.(calls := s.calls[c := Returned(Duplicate)])
  {
    hide SystemInv, ValidEnvelope, DecideAll, OfferDecisions;
    var env := OfferEnvelope(Offered(s, c), body);
    History.AcceptedValid(d0, first, env);
    assert s.d.messages[env.messageId] == MessageOf(first, env);
  }

  // ---- denials --------------------------------------------------------------

  /** What a denied offer leaves behind: the message and a record without attempt. */
  function Denied(d: Data, now: Time, j: Job, body: Payload, at: Time): Data {
    WithMessage(d, now, OfferEnvelope(j, body)).(
      evidence := d.evidence[j.request.messageId + "/rejected" :=
                    RecordOf(j, j.request.messageId + "/rejected", PolicyDecision, CONTROLLER, at, "denied").(attemptId := "")])
  }

  lemma DenialDecided(d: Data, now: Time, j: Job, at: Time)
    requires Inv(d) && Addressed(d, j) && !Terminal(d.tasks[j.descriptor.taskId].state)
    ensures var id := j.request.messageId + "/rejected";
            && (DecideAll(d, now, OfferDecisions(j, true, at)).Ok? <==> at != ZERO_TIME && id !in d.evidence)
            && (DecideAll(d, now, OfferDecisions(j, true, at)).Ok? ==>
                  DecideAll(d, now, OfferDecisions(j, true, at)).value ==
                  d.(evidence := d.evidence[id := RecordOf(j, id, PolicyDecision, CONTROLLER, at, "denied").(attemptId := "")]))
  {
    hide Inv, Blank, RegisterEvidence;
    var cs := OfferDecisions(j, true, at);
    History.OneDecision(d, now, cs);
    DescriptorStored(d, j.request.operationId);
    EvidenceExactly(d, cs[0].record);
    TargetStored(d, j.request.operationId);
  }

  /** A denied offer that is welcome is answered as rejected; it stores its message and
      the denial, begins no attempt and leaves the operation as it is. */
  lemma DenialActs(s: System, c: nat, now: Time, at: Time, body: Payload)
    requires SystemInv(s) && In(s, c) && s.calls[c].Offering? && s.calls[c].denied && Addressed(s.d, Offered(s, c))
    ensures var s' := AfterOffer(s, c, now, at, body, Acknowledged); var j := Offered(s, c);
            && In(s', c)
            && (s'.calls[c] == Returned(Rejected) <==>
                  && j.request.messageId != "" && j.request.issuedAt != ZERO_TIME && body.permitted
                  && Welcome(s.d, now, OfferEnvelope(j, body)) && at != ZERO_TIME
                  && j.request.messageId + "/rejected" !in s.d.evidence)
            && (s'.calls[c] == Returned(Rejected) ==> s'.d == Denied(s.d, now, j, body, at))
  {
    hide Inv, DecideAll, OfferDecisions, History.ProcessMessage, CallsInv, StartedInv, Welcome, ValidEnvelope, RecordOf, MessageOf;
    var j := Offered(s, c);
    var env := OfferEnvelope(j, body);
    OfferValid(s.d, j, body);
    if ValidEnvelope(env) {
      TargetStored(s.d, j.request.operationId);
      DeliversExactly(s.d, now, env, OfferDecisions(j, true, at));
      if Welcome(s.d, now, env) {
        OpenTask(s.d, now, env);
        DenialDecided(WithMessage(s.d, now, env), now, j, at);
      }
    } else {
      Invalid(s.d, now, env, OfferDecisions(j, true, at));
    }
  }

  lemma OpenTask(d: Data, now: Time, env: Envelope)
    requires Welcome(d, now, env)
    ensures env.taskId in d.tasks && !Terminal(d.tasks[env.taskId].state)
  {
    hide InWindow;
  }

  // ---- losing an attempt ----------------------------------------------------

  /** Every setback after the gate leads to giving the attempt up; the outcome comes
      with an error exactly when it was the report that failed. */
  lemma SetbacksAreLosses(s: System, c: nat, now: Time, at: Time, digest: string, body: Payload, ack: Ack)
    requires In(s, c)
    ensures s.calls[c].Accepted? ==>
              Act(s, Gate(c, now, at, true, ack)) == s.(calls := s.calls[c := Losing(s.calls[c].job, false)])
    ensures s.calls[c].Dispatched? ==>
              Act(s, Finish(c, true)) == s.(calls := s.calls[c := Losing(s.calls[c].job, false)])
    ensures s.calls[c].Reporting? ==>
              Act(s, Report(c, now, at, digest, body, true, ack)) == s.(calls := s.calls[c := Losing(s.calls[c].job, true)])
  {
    hide Deliver;
  }

  /** A report whose commit fails or is not acknowledged leaves its call giving the
      attempt up with an error; one that was stored before ends as a duplicate. */
  lemma ReportIsLostOrDuplicate(s: System, c: nat, now: Time, at: Time, digest: string, body: Payload, ack: Ack)
    requires In(s, c) && s.calls[c].Reporting?
    ensures var j := s.calls[c].job; var s' := AfterReport(s, c, now, at, digest, body, ack);
            var result := History.ProcessMessage(s.d, now, ReportEnvelope(j, at, body), ResultDecisions(j, at, digest));
            && In(s', c)
            && (result.Err? || ack != Acknowledged <==> s'.calls[c] == Losing(j, true))
            && (s'.calls[c] == Returned(Duplicate) <==> result.Ok? && ack == Acknowledged && result.value.1)
            && s'.d == (if result.Ok? && ack != Aborted then result.value.0 else s.d)
  {
    hide History.ProcessMessage, EventEnvelope, ResultDecisions, Applied;
  }

  /** The call has read its operation, and its attempt is still the active one. */
  function Reread(s: System, c: nat): System
    requires Working(s, c) && s.calls[c].Losing? && s.calls[c].job.descriptor.id in s.d.ops
  {
    var j := s.calls[c].job;
    s.(calls := s.calls[c := Withdrawing(j, s.d.ops[j.descriptor.id].revision, s.calls[c].failed)])
  }

  lemma StillMine(s: System, c: nat)
    requires Enabled(s, Lose(c)) && s.calls[c].job.descriptor.id in s.d.ops
    requires s.d.ops[s.calls[c].job.descriptor.id].active == s.calls[c].job.request.attemptId
    ensures Act(s, Lose(c)) == Reread(s, c)
  {
    LoseActs(s, c);
  }

  lemma RereadKeeps(s: System, c: nat)
    requires SystemInv(s) && Working(s, c) && s.calls[c].Losing? && s.calls[c].job.descriptor.id in s.d.ops
    ensures SystemInv(Reread(s, c))
  {
    hide Inv, Keeps, Owns;
    KeepsReflexive(s.d);
    assert Working(Reread(s, c), c);
    OthersKeep(s, Reread(s, c), c);
  }

  /** A call that gives up an attempt which is still the active one, and meets nobody
      in between, ends with the outcome unknown exactly when its clock is set, the
      attempt was not withdrawn before, and the name of its observation is free. */
  lemma LossIsWithdrawn(s: System, c: nat, now: Time, late: bool, why: string)
    requires SystemInv(s) && Working(s, c) && s.calls[c].Losing? && Addressed(s.d, s.calls[c].job)
    requires s.d.ops[s.calls[c].job.request.operationId].active == s.calls[c].job.request.attemptId
    ensures var q := s.calls[c].job.request; var s' := AfterWithdraw(Reread(s, c), c, now, late, why, Acknowledged);
            In(s', c) &&
            (s'.calls[c].Withdrawn? <==>
               && s.d.ops[q.operationId].revision < MAX_INT64 && now != ZERO_TIME
               && q.attemptId !in s.d.revocations && q.attemptId + "/lost" !in s.d.evidence)
  {
    hide SystemInv, AfterWithdraw, Inv;
    RereadKeeps(s, c);
    JobAttempt(s, c);
    WithdrawActs(Reread(s, c), c, now, late, why);
  }

  lemma JobAttempt(s: System, c: nat)
    requires SystemInv(s) && Working(s, c)
    ensures s.calls[c].job.request.attemptId != "" && s.calls[c].job.descriptor.id == s.calls[c].job.request.operationId
  {
    hide TasksOk, OperationsOk, WorkOk, MessagesOk, ReservationsSound, ReservationsComplete, RecordInv, LeasesUnique,
         GenerationsUnique, GenerationsComplete, ActivesOk, SettledOk, StartedInv;
    var j := s.calls[c].job;
    assert Owns(s.d, j);
    assert AttemptOk(s.d.ops, s.d.attempts, j.request.attemptId, s.d.attempts[j.request.attemptId]);
  }
}
