/** In every interleaving, the job of a call is about the stored operation that it
    names, under that operation's own descriptor. */
module Addressing {
  import opened Basics
  import opened Records
  import opened Storage
  import opened Decisions
  import opened Invariant
  import opened Preservation
  import opened Guarantees
  import opened Runner
  import Delivering
  import Driving
  import History
  import LocalCheck

  predicate ReadFrom(d: Data, desc: Descriptor, id: Id) {
    id in d.ops && d.ops[id].descriptor == desc && desc.id == id
  }

  /** What a call in this phase has read is still so. */
  predicate PhaseAddressed(d: Data, p: Phase) {
    && (p.Checking? ==> ReadFrom(d, p.seen.descriptor, p.request.operationId))
    && (p.Offering? ==> ReadFrom(d, p.descriptor, p.request.operationId))
    && (HasJob(p) ==> Delivering.Addressed(d, p.job))
  }

  ghost predicate AllAddressed(s: System) {
    forall c :: In(s, c) ==> PhaseAddressed(s.d, s.calls[c])
  }

  lemma DescriptorsStay(d: Data, d': Data)
    requires Keeps(d, d')
    ensures forall p :: PhaseAddressed(d, p) ==> PhaseAddressed(d', p)
  {
    hide Inv, AttemptsEvolve, Remembers;
  }

  /** An accepted offer was valid, and its attempt has an owner. */
  lemma AcceptedAddressed(s: System, c: nat, now: Time, at: Time, body: Payload, ack: Ack)
    requires SystemInv(s) && In(s, c) && s.calls[c].Offering? && ReadFrom(s.d, s.calls[c].descriptor, s.calls[c].request.operationId)
    requires AfterOffer(s, c, now, at, body, ack).calls[c].Accepted?
    ensures s.calls[c].request.correlationId != "" && s.calls[c].worker != ""
  {
    hide Inv, DecideAll, History.ProcessMessage, OfferDecisions, CallsInv, StartedInv, StartAttempt, NewAttempt;
    var p := s.calls[c];
    var j := Job(p.request, p.descriptor, p.worker, 0);
    assert !p.denied;
    OfferKnown(s.d, now, j, body, at);
  }

  lemma OfferKnown(d: Data, now: Time, j: Job, body: Payload, at: Time)
    requires Inv(d)
    requires History.ProcessMessage(d, now, OfferEnvelope(j, body), OfferDecisions(j, false, at)).Ok?
    requires !History.ProcessMessage(d, now, OfferEnvelope(j, body), OfferDecisions(j, false, at)).value.1
    ensures j.request.correlationId != "" && j.worker != ""
  {
    hide Inv, RegisterMessage, RegisterEvidence, OfferEnvelope, RecordOf, Blank;
    var env := OfferEnvelope(j, body);
    History.AcceptedValid(d, now, env);
    CorrelationKnown(j, body);
    var d1 := RegisterMessage(d, now, env).value.0;
    History.BothDecided(d1, now, OfferDecisions(j, false, at));
    OwnerKnown(d1, j, at);
  }

  lemma CorrelationKnown(j: Job, body: Payload)
    requires ValidEnvelope(OfferEnvelope(j, body))
    ensures j.request.correlationId != ""
  {
    hide Blank;
  }

  lemma OwnerKnown(d: Data, j: Job, at: Time)
    requires StartAttempt(d, j.request.operationId, j.request.revision, j.request.attemptId, j.request.leaseId, j.worker,
                          j.request.retryOf, at).Ok?
    ensures j.worker != ""
  {
    hide ReserveAll, LeaseTaken;
  }

  /** A step of one call. */
  lemma CallAddressed(s: System, c: nat, step: Step)
    requires SystemInv(s) && Enabled(s, step) && LocalCheck.OfCall(step, c) && In(s, c) && PhaseAddressed(s.d, s.calls[c])
    ensures PhaseAddressed(s.d, Driving.NextPhase(s, c, step))
  {
    hide Inv, Enabled, Driving.NextPhase, CallsInv, StartedInv, Act, AfterOffer;
    Driving.JobKept(s, c, step);
    Driving.PhaseMoves(s, c, step);
    var p, p' := s.calls[c], Driving.NextPhase(s, c, step);
    if p'.Checking? {
      SeenOperation(s.d, p.request.operationId);
    }
    if HasJob(p') && !HasJob(p) {
      OfferTaken(s, c, step);
    }
  }

  lemma OfferTaken(s: System, c: nat, step: Step)
    requires SystemInv(s) && Enabled(s, step) && LocalCheck.OfCall(step, c) && In(s, c)
    requires s.calls[c].Offering? && ReadFrom(s.d, s.calls[c].descriptor, s.calls[c].request.operationId)
    requires HasJob(Driving.NextPhase(s, c, step))
    ensures s.calls[c].request.correlationId != "" && s.calls[c].worker != ""
  {
    hide Inv, CallsInv, StartedInv, Deliver;
    assert step.Offer?;
    AcceptedAddressed(s, c, step.now, step.at, step.body, step.ack);
  }

  lemma StepAddressed(s: System, step: Step)
    requires SystemInv(s) && Enabled(s, step) && AllAddressed(s)
    ensures AllAddressed(Act(s, step))
  {
    hide Inv, Keeps, CallsInv, StartedInv, PhaseAddressed, Act, Enabled;
    ActKeeps(s, step);
    var s' := Act(s, step);
    DescriptorsStay(s.d, s'.d);
    if step.Call? || step.Elsewhere? {
      Outside(s, step);
    } else {
      OwnCall(s, step);
      Driving.OnlyItsCall(s, step.c, step);
      CallAddressed(s, step.c, step);
    }
  }

  lemma OwnCall(s: System, step: Step)
    requires Enabled(s, step) && !step.Call? && !step.Elsewhere?
    ensures LocalCheck.OfCall(step, step.c) && In(s, step.c)
  {
  }

  lemma Outside(s: System, step: Step)
    requires Enabled(s, step) && (step.Call? || step.Elsewhere?)
    ensures forall c :: In(Act(s, step), c) ==>
              (In(s, c) && Act(s, step).calls[c] == s.calls[c]) || Act(s, step).calls[c].Called?
    ensures forall d, request, worker :: PhaseAddressed(d, Called(request, worker))
  {
    hide History.Step;
  }

  lemma {:induction false} RunsAddress(s: System, steps: seq<Step>)
    requires SystemInv(s) && AllAddressed(s) && Runnable(s, steps)
    ensures AllAddressed(Execute(s, steps))
    decreases |steps|
  {
    hide SystemInv, AllAddressed, Act, Enabled;
    if steps != [] {
      StepAddressed(s, steps[0]);
      StepKeeps(s, steps[0]);
      RunsAddress(Act(s, steps[0]), steps[1..]);
    }
  }

  /** In every interleaving, each accepted job is about a stored operation, under its
      own descriptor, with an owner and a correlation. */
  lemma JobsAreAddressed(steps: seq<Step>, c: nat)
    requires Runnable(IDLE, steps) && Working(Execute(IDLE, steps), c)
    ensures var s := Execute(IDLE, steps); SystemInv(s) && Delivering.Addressed(s.d, s.calls[c].job)
  {
    hide SystemInv, Execute, Runnable, PhaseAddressed;
    IdleInv();
    RunsKeep(IDLE, steps);
    RunsAddress(IDLE, steps);
    assert PhaseAddressed(Execute(IDLE, steps).d, Execute(IDLE, steps).calls[c]);
    Addresses(Execute(IDLE, steps).d, Execute(IDLE, steps).calls[c]);
  }

  lemma Addresses(d: Data, p: Phase)
    requires PhaseAddressed(d, p) && HasJob(p)
    ensures Delivering.Addressed(d, p.job)
  {
  }

  // ---- the retry rule between other steps -----------------------------------

  /** No step of the list belongs to call `c`. */
  predicate Others(steps: seq<Step>, c: nat) {
    forall i :: 0 <= i < |steps| ==> steps[i].Elsewhere? || steps[i].c != c
  }

  lemma OtherStep(s: System, step: Step, c: nat)
    requires Enabled(s, step) && In(s, c) && (step.Elsewhere? || step.c != c)
    ensures In(Act(s, step), c) && Act(s, step).calls[c] == s.calls[c]
  {
    hide Deliver, InvalidateAttempt, RetryDenied, OfferEnvelope, EventEnvelope, LossRecord, OfferDecisions, BeatDecisions,
         ResultDecisions, Applied, History.Step;
  }

  lemma {:induction false} OthersLeave(s: System, steps: seq<Step>, c: nat)
    requires SystemInv(s) && Runnable(s, steps) && In(s, c) && Others(steps, c)
    ensures var s' := Execute(s, steps); SystemInv(s') && In(s', c) && s'.calls[c] == s.calls[c] && Keeps(s.d, s'.d)
    decreases |steps|
  {
    hide Inv, CallsInv, StartedInv, Act, Enabled, Keeps;
    if steps == [] {
      KeepsReflexive(s.d);
    } else {
      OtherStep(s, steps[0], c);
      StepKeeps(s, steps[0]);
      ActKeeps(s, steps[0]);
      OthersLeave(Act(s, steps[0]), steps[1..], c);
      KeepsTransitive(s.d, Act(s, steps[0]).d, Execute(s, steps).d);
    }
  }

  lemma NamedStays(d: Data, d': Data, q: Request, g: nat)
    requires Keeps(d, d') && Delivering.NamesGeneration(d, q, g)
    ensures Delivering.NamesGeneration(d', q, g)
  {
    hide Inv, OperationsEvolve, Remembers;
  }

  /** The rule is checked outside the offer's transaction. With any steps of other
      calls between check and offer, it still holds of an accepted offer when no
      attempt of the operation began in between; otherwise `Delivering.OfferActs`
      alone decides. */
  lemma RetryRuleBetween(s: System, c: nat, steps: seq<Step>, now: Time, at: Time, body: Payload, ack: Ack)
    requires SystemInv(s) && Enabled(s, ReadOperation(c)) && s.calls[c].request.operationId in s.d.ops
    requires s.d.ops[s.calls[c].request.operationId].state == Ready && s.d.ops[s.calls[c].request.operationId].generation > 0
    requires Runnable(Delivering.CheckedCall(s, c, false), steps) && Others(steps, c)
    ensures var s1 := Execute(Delivering.CheckedCall(s, c, false), steps); var q := s.calls[c].request;
            && In(s1, c) && s1.calls[c].Offering? && q.operationId in s1.d.ops
            && (AfterOffer(s1, c, now, at, body, ack).calls[c].Accepted?
                && s1.d.ops[q.operationId].generation == s.d.ops[q.operationId].generation
                ==> Delivering.NamesGeneration(s1.d, q, s1.d.ops[q.operationId].generation))
  {
    hide Inv, CallsInv, StartedInv, Execute, Runnable, Delivering.NamesGeneration, Delivering.CheckedCall, Others, Keeps;
    var s0 := Delivering.CheckedCall(s, c, false);
    Delivering.CheckedActs(s, c, false);
    CheckedKeeps(s, c, false);
    OthersLeave(s0, steps, c);
    var s1 := Execute(s0, steps);
    OperationStays(s0.d, s1.d, s.calls[c].request.operationId);
    if AfterOffer(s1, c, now, at, body, ack).calls[c].Accepted? {
      NotDenied(s1, c, now, at, body, ack);
      NamedStays(s0.d, s1.d, s.calls[c].request, s.d.ops[s.calls[c].request.operationId].generation);
    }
  }

  lemma CheckedKeeps(s: System, c: nat, refused: bool)
    requires SystemInv(s) && Enabled(s, ReadOperation(c)) && s.calls[c].request.operationId in s.d.ops
    ensures SystemInv(Delivering.CheckedCall(s, c, refused))
  {
    hide SystemInv, Act;
    Delivering.ReadActs(s, c);
    StepKeeps(s, ReadOperation(c));
    StepKeeps(Act(s, ReadOperation(c)), Check(c, refused));
  }

  lemma OperationStays(d: Data, d': Data, id: Id)
    requires Keeps(d, d') && id in d.ops
    ensures id in d'.ops
  {
    hide Inv, AttemptsEvolve, Remembers;
  }

  lemma NotDenied(s: System, c: nat, now: Time, at: Time, body: Payload, ack: Ack)
    requires In(s, c) && s.calls[c].Offering? && AfterOffer(s, c, now, at, body, ack).calls[c].Accepted?
    ensures !s.calls[c].denied
  {
    hide Deliver;
  }
}
