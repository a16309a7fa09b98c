/** The steps that a local check takes through the runner keep the invariant of the
    crash-prone system. */
module Driving {
  import opened Basics
  import opened Records
  import opened Storage
  import opened Decisions
  import opened Invariant
  import opened Preservation
  import opened LocalCheck
  import opened LocalStore
  import opened CrashSafety
  import History
  import Runner

  // ---- what the runner decides is routine -----------------------------------

  lemma RunnerNames(id: Id, rest: string)
    ensures !HasPrefix("offer_" + id + rest, "observed_") && !HasPrefix(Att(id) + rest, "observed_")
    ensures !HasPrefix("offer_" + id, "verified_") && !HasPrefix(Att(id) + rest, "verified_")
  {
    assert ("offer_" + id + rest)[1] == 'f' && (Att(id) + rest)[0] == 'a' && ("offer_" + id)[0] == 'o';
    assert "observed_"[1] == 'b' && "observed_"[0] == 'o' && "verified_"[0] == 'v';
    forall s | HasPrefix(s, "observed_")
      ensures s[0] == 'o' && s[1] == 'b'
    {
      assert s[..9][0] == s[0] && s[..9][1] == s[1];
    }
    forall s | HasPrefix(s, "verified_")
      ensures s[0] == 'v'
    {
      assert s[..9][0] == s[0];
    }
  }

  lemma OfferRoutine(sum: Receipt -> string, workers: map<Id, Worker>, j: Runner.Job, id: Id, denied: bool, at: Time)
    requires JobOf(j, id)
    ensures AllRoutine(sum, workers, Runner.OfferDecisions(j, denied, at))
    ensures forall x :: Sparing(Runner.OfferDecisions(j, denied, at), x)
    ensures !HasPrefix(j.request.messageId, "verified_")
  {
    hide HasPrefix, DigestOf;
    RunnerNames(id, "/rejected");
    RunnerNames(id, "/accepted");
  }

  lemma BeatRoutine(sum: Receipt -> string, workers: map<Id, Worker>, j: Runner.Job, id: Id, beats: nat, at: Time)
    requires JobOf(j, id)
    ensures AllRoutine(sum, workers, Runner.BeatDecisions(j, beats, at))
    ensures forall x :: Sparing(Runner.BeatDecisions(j, beats, at), x)
    ensures !HasPrefix(Runner.BeatId(j, beats), "verified_")
  {
    hide HasPrefix, DigestOf, Runner.Decimal;
    RunnerNames(id, "/heartbeat/" + Runner.Decimal(beats));
    assert Runner.BeatId(j, beats) == Att(id) + ("/heartbeat/" + Runner.Decimal(beats));
  }

  lemma ResultRoutine(sum: Receipt -> string, workers: map<Id, Worker>, j: Runner.Job, id: Id, at: Time, digest: string)
    requires JobOf(j, id) && Exits(workers, id) && digest == DigestOf(sum, workers[id].command.receipt)
    ensures AllRoutine(sum, workers, Runner.ResultDecisions(j, at, digest))
    ensures forall x :: Sparing(Runner.ResultDecisions(j, at, digest), x)
    ensures !HasPrefix(Runner.ResultId(j), "verified_")
  {
    hide HasPrefix, DigestOf;
    RunnerNames(id, "/result");
  }

  lemma LossRoutine(sum: Receipt -> string, workers: map<Id, Worker>, j: Runner.Job, id: Id, rev: nat, loss: LossReason,
                    at: Time, why: string)
    requires JobOf(j, id)
    ensures Routine(sum, workers, DoInvalidateAttempt(j.descriptor.id, rev, j.request.attemptId, loss,
                                                      Runner.LossRecord(j, at, why), at))
  {
    hide HasPrefix, DigestOf;
    RunnerNames(id, "/lost");
  }

  /** The call of a phase with a job works on the attempt of its own task. */
  lemma CallJob(sum: Receipt -> string, w: World, c: nat)
    requires WorldInv(sum, w) && Runner.In(w.sys, c)
    ensures c in w.calls && PhaseOk(w.sys.calls[c], w.calls[c].id)
  {
    hide Shape, Runner.SystemInv, Configured, WorkersOk, LaunchesOk, VerdictsBased, RunnerFinished, SavesFinished, SavedFinished,
         ReadsOk, PhaseOk;
  }

  lemma WorldShape(sum: Receipt -> string, w: World)
    requires WorldInv(sum, w)
    ensures Shape(sum, w.workers, w.sys.d) && Runner.SystemInv(w.sys)
  {
    hide Shape, Runner.SystemInv, Configured, WorkersOk, LaunchesOk, VerdictsBased, RunnerFinished, SavesFinished, SavedFinished,
         ReadsOk, Linked;
  }

  /** The runner's guards in the check: a report carries the digest of the receipt. */
  predicate Guarded(sum: Receipt -> string, w: World, c: nat, step: Runner.Step)
    requires c in w.calls
  {
    && OfCall(step, c) && Runner.Enabled(w.sys, step)
    && (step.Finish? && !step.failed ==> Exits(w.workers, w.calls[c].id))
    && (step.Report? ==>
          && Exits(w.workers, w.calls[c].id)
          && step.digest == DigestOf(sum, w.workers[w.calls[c].id].command.receipt))
  }

  ghost predicate Driven(sum: Receipt -> string, w: World, d': Data) {
    Routinely(sum, w.workers, w.sys.d, d') && forall x :: Settled(w.sys, x) ==> Awaiting(d'.ops, x)
  }

  lemma DeliveryDriven(sum: Receipt -> string, w: World, now: Time, env: Envelope, cs: seq<Decision>, ack: Runner.Ack)
    requires WorldInv(sum, w) && AllRoutine(sum, w.workers, cs) && !HasPrefix(env.messageId, "verified_")
    requires forall x :: Sparing(cs, x)
    ensures Driven(sum, w, Runner.Deliver(w.sys.d, now, env, cs, ack).0)
  {
    hide WorldInv, AllRoutine, Runner.Deliver, Routinely, Settled, Awaiting, Sparing, HasPrefix;
    WorldShape(sum, w);
    SettledAwaits(w.sys);
    RoutineDelivery(sum, w.workers, w.sys.d, now, env, cs, ack);
  }

  lemma StillDriven(sum: Receipt -> string, w: World)
    requires WorldInv(sum, w)
    ensures Driven(sum, w, w.sys.d)
  {
    hide WorldInv, Shape, Routinely, Settled, Awaiting;
    WorldShape(sum, w);
    SettledAwaits(w.sys);
    RoutinelyStill(sum, w.workers, w.sys.d);
  }

  function Loss(j: Runner.Job, rev: nat, loss: LossReason, now: Time, why: string): Decision {
    DoInvalidateAttempt(j.descriptor.id, rev, j.request.attemptId, loss, Runner.LossRecord(j, now, why), now)
  }

  lemma LossSpares(sum: Receipt -> string, w: World, c: nat, rev: nat, loss: LossReason, now: Time, why: string)
    requires WorldInv(sum, w) && Runner.Working(w.sys, c)
    ensures Routine(sum, w.workers, Loss(w.sys.calls[c].job, rev, loss, now, why))
    ensures forall x :: Settled(w.sys, x) ==> Spares(Loss(w.sys.calls[c].job, rev, loss, now, why), x)
  {
    hide WorldInv, Routine, JobOf, Runner.LossRecord, Settled;
    CallJob(sum, w, c);
    var j := w.sys.calls[c].job;
    LossRoutine(sum, w.workers, j, w.calls[c].id, rev, loss, now, why);
    forall x | Settled(w.sys, x)
      ensures Spares(Loss(j, rev, loss, now, why), x)
    {
      SettledElsewhere(w.sys, c, x);
      Targets(j, w.calls[c].id, x);
    }
  }

  lemma LossDriven(sum: Receipt -> string, w: World, c: nat, rev: nat, loss: LossReason, now: Time, why: string)
    requires WorldInv(sum, w) && Runner.Working(w.sys, c)
    requires Decide(w.sys.d, now, Loss(w.sys.calls[c].job, rev, loss, now, why)).Ok?
    ensures Driven(sum, w, Decide(w.sys.d, now, Loss(w.sys.calls[c].job, rev, loss, now, why)).value)
  {
    hide WorldInv, Shape, Routinely, Awaiting, Decide, Routine, Loss, Settled, Spares;
    WorldShape(sum, w);
    SettledAwaits(w.sys);
    LossSpares(sum, w, c, rev, loss, now, why);
    RoutineStep(sum, w.workers, w.sys.d, now, Loss(w.sys.calls[c].job, rev, loss, now, why));
  }

  lemma SettledElsewhere(sys: Runner.System, c: nat, id: Id)
    requires Settled(sys, id) && Runner.Working(sys, c)
    ensures Runner.AttemptOf(sys, c) != Att(id)
  {
  }

  lemma WithdrawDriven(sum: Receipt -> string, w: World, c: nat, now: Time, late: bool, why: string, ack: Runner.Ack)
    requires WorldInv(sum, w) && Runner.In(w.sys, c) && w.sys.calls[c].Withdrawing?
    ensures Driven(sum, w, Runner.AfterWithdraw(w.sys, c, now, late, why, ack).d)
  {
    hide WorldInv, Driven, InvalidateAttempt, Runner.LossRecord;
    StillDriven(sum, w);
    var j := w.sys.calls[c].job;
    var loss := if late then LeaseExpired else OwnershipLost;
    if InvalidateAttempt(w.sys.d, j.descriptor.id, w.sys.calls[c].revision, j.request.attemptId, loss,
                         Runner.LossRecord(j, now, why), now).Ok? {
      LossDriven(sum, w, c, w.sys.calls[c].revision, loss, now, why);
    }
  }

  lemma Targets(j: Runner.Job, id: Id, x: Id)
    requires JobOf(j, id)
    ensures j.descriptor.id == Op(x) ==> j.request.attemptId == Att(x)
  {
    OpsDiffer(id, x);
  }

  /** Every step of the runner in a check is routine for the store. */
  lemma DriveData(sum: Receipt -> string, w: World, c: nat, step: Runner.Step)
    requires WorldInv(sum, w) && c in w.calls && Guarded(sum, w, c, step)
    ensures Driven(sum, w, Runner.Act(w.sys, step).d)
  {
    hide WorldInv, Driven, Runner.Deliver, Runner.AfterWithdraw, AllRoutine, Sparing, HasPrefix, Described, DigestOf,
         Runner.RetryDenied, Runner.BeatId, Runner.OfferDecisions, Runner.BeatDecisions, Runner.ResultDecisions;
    CallJob(sum, w, c);
    StillDriven(sum, w);
    var id := w.calls[c].id;
    var p := w.sys.calls[c];
    match step
    case Offer(_, now, at, body, ack) =>
      var j := Runner.Job(p.request, p.descriptor, p.worker, 0);
      OfferRoutine(sum, w.workers, j, id, p.denied, at);
      DeliveryDriven(sum, w, now, Runner.OfferEnvelope(j, body), Runner.OfferDecisions(j, p.denied, at), ack);
    case Gate(_, now, at, refused, ack) =>
      BeatRoutine(sum, w.workers, p.job, id, 0, at);
      DeliveryDriven(sum, w, now, Runner.EventEnvelope(p.job, Runner.BeatId(p.job, 0), "operation.progress", p.job.worker, at,
                                                       Payload("", true)), Runner.BeatDecisions(p.job, 0, at), ack);
    case Beat(_, now, at, ack) =>
      BeatRoutine(sum, w.workers, p.job, id, p.beats, at);
      DeliveryDriven(sum, w, now, Runner.EventEnvelope(p.job, Runner.BeatId(p.job, p.beats), "operation.progress", p.job.worker,
                                                       at, Payload("", true)), Runner.BeatDecisions(p.job, p.beats, at), ack);
    case Report(_, now, at, digest, body, refused, ack) =>
      ResultRoutine(sum, w.workers, p.job, id, at, digest);
      DeliveryDriven(sum, w, now, Runner.EventEnvelope(p.job, Runner.ResultId(p.job), "operation.result_reported", p.job.worker,
                                                       at, body), Runner.ResultDecisions(p.job, at, digest), ack);
    case Withdraw(_, now, late, why, ack) => WithdrawDriven(sum, w, c, now, late, why, ack);
    case _ =>
  }

  // ---- what the runner does to its calls ------------------------------------

  lemma OnlyItsCall(s: Runner.System, c: nat, step: Runner.Step)
    requires Runner.Enabled(s, step) && OfCall(step, c)
    ensures var s' := Runner.Act(s, step);
            && Runner.In(s, c) && Runner.In(s', c) && s'.calls == s.calls[c := s'.calls[c]]
            && s'.started == (if step.Start? then s.started + [s.calls[c].job.request.attemptId] else s.started)
    ensures step.Start? ==> s.calls[c].Gated? && Runner.Act(s, step).d == s.d
  {
    hide Runner.Deliver, InvalidateAttempt, Runner.RetryDenied, Runner.OfferEnvelope, Runner.EventEnvelope, Runner.LossRecord,
         Runner.OfferDecisions, Runner.BeatDecisions, Runner.ResultDecisions, Runner.Applied;
  }

  ghost function NextPhase(s: Runner.System, c: nat, step: Runner.Step): Runner.Phase
    requires Runner.Enabled(s, step) && OfCall(step, c)
  {
    OnlyItsCall(s, c, step);
    Runner.Act(s, step).calls[c]
  }

  /** A call keeps its job, or an accepted offer gives it an attempt nobody had. */
  lemma JobKept(s: Runner.System, c: nat, step: Runner.Step)
    requires Runner.In(s, c) && Inv(s.d) && Runner.Enabled(s, step) && OfCall(step, c)
    ensures var p, p' := s.calls[c], NextPhase(s, c, step);
            && (Runner.HasJob(p') && Runner.HasJob(p) ==> p'.job == p.job)
            && (Runner.HasJob(p') && !Runner.HasJob(p) ==>
                  && p.Offering? && p'.job == Runner.Job(p.request, p.descriptor, p.worker, p'.job.generation)
                  && p.request.attemptId !in s.d.attempts)
  {
    hide Inv, Runner.Deliver, InvalidateAttempt, Runner.RetryDenied, Runner.EventEnvelope, Runner.LossRecord,
         Runner.OfferDecisions, Runner.BeatDecisions, Runner.ResultDecisions, Runner.Applied, Runner.AfterOffer;
    if step.Offer? {
      OfferedJob(s, c, step.now, step.at, step.body, step.ack);
    }
  }

  lemma OfferedJob(s: Runner.System, c: nat, now: Time, at: Time, body: Payload, ack: Runner.Ack)
    requires Inv(s.d) && Runner.In(s, c) && s.calls[c].Offering?
    ensures var p, p' := s.calls[c], Runner.AfterOffer(s, c, now, at, body, ack).calls[c];
            Runner.HasJob(p') ==>
              && p'.job == Runner.Job(p.request, p.descriptor, p.worker, p'.job.generation)
              && p.request.attemptId !in s.d.attempts
  {
    hide Inv, History.ProcessMessage, Runner.OfferEnvelope, Runner.OfferDecisions;
    var p := s.calls[c];
    var j := Runner.Job(p.request, p.descriptor, p.worker, 0);
    if Runner.AfterOffer(s, c, now, at, body, ack).calls[c].Accepted? {
      Runner.OfferInserts(s.d, now, j, body, at);
    }
  }

  lemma PhaseStays(s: Runner.System, c: nat, step: Runner.Step, id: Id)
    requires Runner.In(s, c) && PhaseOk(s.calls[c], id) && Inv(s.d)
    requires Op(id) in s.d.ops ==> Described(s.d.ops[Op(id)].descriptor, id)
    requires Runner.Enabled(s, step) && OfCall(step, c)
    ensures PhaseOk(NextPhase(s, c, step), id)
  {
    hide Inv, Runner.Enabled, NextPhase, Requested, Described;
    JobKept(s, c, step);
    PhaseMoves(s, c, step);
    if NextPhase(s, c, step).Checking? {
      SameTarget(s.calls[c].request, id);
    }
  }

  lemma SameTarget(q: Runner.Request, id: Id)
    requires Requested(q, id)
    ensures q.operationId == Op(id)
  {
  }

  /** The phases before an offer is accepted. */
  lemma PhaseMoves(s: Runner.System, c: nat, step: Runner.Step)
    requires Runner.In(s, c) && Runner.Enabled(s, step) && OfCall(step, c)
    ensures var p, p' := s.calls[c], NextPhase(s, c, step);
            && !p'.Called?
            && (p'.Checking? ==> p.Called? && p'.request == p.request && p'.worker == p.worker
                                 && p.request.operationId in s.d.ops && p'.seen == s.d.ops[p.request.operationId])
            && (p'.Offering? ==> p.Checking? && p'.request == p.request && p'.worker == p.worker
                                 && p'.descriptor == p.seen.descriptor)
            && (p'.Reporting? ==> p.Dispatched? && step.Finish? && !step.failed)
            && (Told(p') ==> step.Report? && !step.refused && p.Reporting?)
  {
    hide Runner.Deliver, InvalidateAttempt, Runner.RetryDenied, Runner.OfferEnvelope, Runner.EventEnvelope, Runner.LossRecord,
         Runner.OfferDecisions, Runner.BeatDecisions, Runner.ResultDecisions, Runner.Applied;
  }

  lemma ShapeInv(sum: Receipt -> string, workers: map<Id, Worker>, d: Data)
    requires Shape(sum, workers, d)
    ensures Inv(d)
  {
    hide Inv, Local, VerdictsClosed;
  }

  lemma SeenDescribed(sum: Receipt -> string, workers: map<Id, Worker>, d: Data, id: Id)
    requires Shape(sum, workers, d) && Op(id) in d.ops
    ensures Described(d.ops[Op(id)].descriptor, id)
  {
    hide Inv, VerdictsClosed, LocalOps, LocalAttempts, LocalTasks, HonestEvidence;
    OpDescribed(d.ops, id);
  }

  // ---- a report that was applied --------------------------------------------

  /** An applied report leaves its operation verifying, with the report stored. */
  lemma ReportMoves(d: Data, now: Time, e: Evidence, lease: Id, generation: nat, expires: Time)
    requires Inv(d) && RecordWorkerReport(d, now, e, lease, generation, expires).Ok?
    requires RecordWorkerReport(d, now, e, lease, generation, expires).value.1
    ensures var d' := RecordWorkerReport(d, now, e, lease, generation, expires).value.0;
            && e.operationId in d'.ops && d'.ops[e.operationId].state == Verifying
            && e.id in d'.evidence && d'.evidence[e.id] == e && e.kind == WorkerReport
  {
    hide Inv, RegisterEvidence, CheckActive, OpsAfter, Transition;
    RegisterEvidenceKeeps(d, e);
    var d1 := RegisterEvidence(d, e).value;
    TransitionMoves(d1, e.operationId, d.ops[e.operationId].revision, Verifying, Some(Reported), now, DoCheckActive(Claim("", "", "", 0, "")));
  }

  lemma AppliedResult(d: Data, now: Time, env: Envelope, j: Runner.Job, id: Id, at: Time, digest: string, r: Receipt)
    requires Inv(d) && JobOf(j, id) && r.attempt == Att(id)
    requires History.ProcessMessage(d, now, env, Runner.ResultDecisions(j, at, digest)).Ok?
    requires !History.ProcessMessage(d, now, env, Runner.ResultDecisions(j, at, digest)).value.1
    requires Runner.Applied(d, now, env, j, at, digest)
    ensures var d' := History.ProcessMessage(d, now, env, Runner.ResultDecisions(j, at, digest)).value.0;
            && Awaiting(d'.ops, id) && HasReport(d'.evidence, id, r, digest)
  {
    hide Inv, RegisterMessage, RecordWorkerReport, Described;
    Runner.MessageOnly(d, now, env);
    var d1 := RegisterMessage(d, now, env).value.0;
    var e := Runner.ResultRecord(j, at, digest);
    var cs := Runner.ResultDecisions(j, at, digest);
    History.OneDecision(d1, now, cs);
    ReportMoves(d1, now, e, j.request.leaseId, j.generation, j.request.deadline);
    assert e.operationId == Op(id) by {
      JobTarget(j, id);
    }
    var d' := DecideAll(d1, now, cs).value;
    assert IsReport(d'.evidence[e.id], r, digest);
  }

  lemma JobTarget(j: Runner.Job, id: Id)
    requires JobOf(j, id)
    ensures j.descriptor.id == Op(id)
  {
  }

  // ---- the invariant under the runner's steps -------------------------------

  lemma SettledStays(s: Runner.System, s': Runner.System, c: nat, x: Id)
    requires Settled(s, x) && Awaiting(s'.d.ops, x) && Att(x) in s'.d.attempts
    requires Runner.In(s, c) && Runner.In(s', c) && s'.calls == s.calls[c := s'.calls[c]]
    requires Runner.HasJob(s'.calls[c]) ==>
               || (Runner.HasJob(s.calls[c]) && s'.calls[c].job == s.calls[c].job)
               || s'.calls[c].job.request.attemptId !in s.d.attempts
    ensures Settled(s', x)
  {
    hide Awaiting;
    forall y | Runner.Working(s', y)
      ensures Runner.AttemptOf(s', y) != Att(x)
    {
      if y != c {
        assert Runner.Working(s, y);
      } else if Runner.HasJob(s.calls[c]) && s'.calls[c].job == s.calls[c].job {
        assert Runner.Working(s, c);
      }
    }
  }

  /** What a step of the runner must establish for the call it moves. */
  ghost predicate SystemMoves(sum: Receipt -> string, w: World, w': World, c: nat) {
    && c in w.calls && Runner.In(w'.sys, c)
    && w'.sys.calls == w.sys.calls[c := w'.sys.calls[c]]
    && w'.calls == w.calls[c := w.calls[c].(stage := InExecution)]
    && w'.files == w.files && w'.launched == w.launched && w'.saved == w.saved
    && (forall a :: a in w.sys.started ==> a in w'.sys.started)
    && PhaseOk(w'.sys.calls[c], w.calls[c].id)
    && (w'.sys.calls[c].Reporting? ==> Exits(w'.workers, w.calls[c].id))
    && (Told(w'.sys.calls[c]) ==> Finished(sum, w'.sys, w'.workers, w.calls[c].id))
    && (forall x :: Settled(w.sys, x) ==> Settled(w'.sys, x))
    && CallConfigured(w.sys.d.evidence, w'.calls[c])
    && Runner.SystemInv(w'.sys) && Shape(sum, w'.workers, w'.sys.d) && VerdictsBased(sum, w'.sys.d, w'.files)
    && Grows(w.sys.d.evidence, w'.sys.d.evidence)
    && LaunchesOk(w'.launched, w'.workers)
    && (forall x :: x in w.workers ==> x in w'.workers && w'.workers[x] == w.workers[x])
    && (forall x :: x in w'.workers && x !in w.workers ==> WorkerOk(w'.sys.started, w'.sys.d.evidence, x, w'.workers[x]))
  }

  lemma FinishedMoves(sum: Receipt -> string, w: World, w': World, c: nat)
    requires SystemMoves(sum, w, w', c)
    ensures forall x :: Finished(sum, w.sys, w.workers, x) ==>
              Finished(sum, w'.sys, w'.workers, x) && w'.workers[x] == w.workers[x]
    ensures forall x :: Exits(w.workers, x) ==> Exits(w'.workers, x)
  {
    hide Settled, HasReport, Shape, Runner.SystemInv, VerdictsBased, LaunchesOk, WorkerOk, PhaseOk, CallConfigured, DigestOf;
    ReportKept(w.sys.d.evidence, w'.sys.d.evidence);
  }

  lemma LinksMove(sum: Receipt -> string, w: World, w': World, c: nat)
    requires SystemMoves(sum, w, w', c) && Linked(w.sys, w.calls) && Configured(w.sys.d.evidence, w.calls)
    requires ReadsOk(sum, w.sys.d.evidence, w.files, w.calls)
    ensures Linked(w'.sys, w'.calls) && Configured(w'.sys.d.evidence, w'.calls)
    ensures ReadsOk(sum, w'.sys.d.evidence, w'.files, w'.calls)
  {
    hide Settled, HasReport, Shape, Runner.SystemInv, VerdictsBased, LaunchesOk, PhaseOk, Finished, DigestOf, Sound, ValidDigest,
         IntentStored, WorkerOk;
    ReportKept(w.sys.d.evidence, w'.sys.d.evidence);
  }

  lemma WorkersMove(sum: Receipt -> string, w: World, w': World, c: nat)
    requires SystemMoves(sum, w, w', c) && WorkersOk(w.sys.started, w.sys.d.evidence, w.workers)
    ensures WorkersOk(w'.sys.started, w'.sys.d.evidence, w'.workers)
  {
    hide Settled, HasReport, Shape, Runner.SystemInv, VerdictsBased, LaunchesOk, PhaseOk, Finished, DigestOf, Sound, ValidDigest,
         IntentStored, CallConfigured;
    ReportKept(w.sys.d.evidence, w'.sys.d.evidence);
    forall x | x in w'.workers
      ensures WorkerOk(w'.sys.started, w'.sys.d.evidence, x, w'.workers[x])
    {
      if x in w.workers {
        assert WorkerOk(w.sys.started, w.sys.d.evidence, x, w.workers[x]);
      }
    }
  }

  lemma ReportsMove(sum: Receipt -> string, w: World, w': World, c: nat)
    requires SystemMoves(sum, w, w', c)
    requires RunnerFinished(sum, w.sys, w.calls, w.workers) && SavesFinished(sum, w.sys, w.calls, w.workers)
    requires SavedFinished(sum, w.sys, w.workers, w.files, w.saved)
    ensures RunnerFinished(sum, w'.sys, w'.calls, w'.workers) && SavesFinished(sum, w'.sys, w'.calls, w'.workers)
    ensures SavedFinished(sum, w'.sys, w'.workers, w'.files, w'.saved)
  {
    hide Settled, Shape, Runner.SystemInv, VerdictsBased, LaunchesOk, PhaseOk, Finished, CallConfigured, WorkerOk, Exits;
    FinishedMoves(sum, w, w', c);
  }

  lemma WorldMoves(sum: Receipt -> string, w: World, w': World, c: nat)
    requires WorldInv(sum, w) && SystemMoves(sum, w, w', c)
    ensures WorldInv(sum, w')
  {
    hide Settled, Shape, Runner.SystemInv, VerdictsBased, LaunchesOk, PhaseOk, Finished, CallConfigured, CallReads,
         WorkerOk, Linked, Configured, WorkersOk, ReadsOk, RunnerFinished, SavesFinished, SavedFinished, Exits;
    LinksMove(sum, w, w', c);
    WorkersMove(sum, w, w', c);
    ReportsMove(sum, w, w', c);
  }

  lemma FactsOf(sum: Receipt -> string, w: World, c: nat)
    requires WorldInv(sum, w) && c in w.calls
    ensures CallConfigured(w.sys.d.evidence, w.calls[c]) && VerdictsBased(sum, w.sys.d, w.files)
    ensures LaunchesOk(w.launched, w.workers) && WorkersOk(w.sys.started, w.sys.d.evidence, w.workers)
    ensures Runner.In(w.sys, c) && w.sys.calls[c].Reporting? ==> Exits(w.workers, w.calls[c].id)
  {
    hide Shape, Runner.SystemInv, VerdictsBased, LaunchesOk, Linked, WorkersOk, ReadsOk, Finished, SavesFinished, SavedFinished,
         CallConfigured;
  }

  lemma ExecuteStep(sum: Receipt -> string, w: World, c: nat, issuedAt: Time, deadline: Time)
    requires WorldInv(sum, w) && At(w, c, Offering) && !Runner.In(w.sys, c)
    ensures WorldInv(sum, Goes(w.(sys := Runner.Act(w.sys, Runner.Call(c, RequestFor(w.calls[c].id, 2, issuedAt, deadline), WORKER))),
                               c, InExecution))
  {
    hide WorldInv, Runner.SystemInv, Shape, VerdictsBased, LaunchesOk, Settled, Finished, ValidDigest, IntentStored;
    var q := RequestFor(w.calls[c].id, 2, issuedAt, deadline);
    WorldShape(sum, w);
    FactsOf(sum, w, c);
    Runner.StepKeeps(w.sys, Runner.Call(c, q, WORKER));
    var s' := w.sys.(calls := w.sys.calls[c := Runner.Called(q, WORKER)]);
    assert Runner.Act(w.sys, Runner.Call(c, q, WORKER)) == s';
    var w' := Goes(w.(sys := s'), c, InExecution);
    forall x | Settled(w.sys, x)
      ensures Settled(s', x)
    {
      SettledArrival(w.sys, s', c, x);
    }
    WorldMoves(sum, w, w', c);
  }

  lemma SettledArrival(s: Runner.System, s': Runner.System, c: nat, x: Id)
    requires Settled(s, x) && s' == s.(calls := s'.calls) && Runner.In(s', c) && s'.calls == s.calls[c := s'.calls[c]]
    requires s'.calls[c].Called?
    ensures Settled(s', x)
  {
    hide Awaiting;
    forall y | Runner.Working(s', y)
      ensures Runner.AttemptOf(s', y) != Att(x)
    {
      assert Runner.Working(s, y);
    }
  }

  /** An applied report settles the check. */
  lemma ReportSettles(sum: Receipt -> string, w: World, c: nat, step: Runner.Step)
    requires WorldInv(sum, w) && c in w.calls && Guarded(sum, w, c, step) && Told(NextPhase(w.sys, c, step))
    ensures Finished(sum, Runner.Act(w.sys, step), w.workers, w.calls[c].id)
  {
    hide WorldInv, Runner.Enabled, NextPhase, Settled, HasReport, DigestOf, JobOf, Runner.Act, Shape, Runner.SystemInv;
    OnlyItsCall(w.sys, c, step);
    CallJob(sum, w, c);
    PhaseMoves(w.sys, c, step);
    WorldShape(sum, w);
    ExitedSound(sum, w, w.calls[c].id);
    var j := w.sys.calls[c].job;
    ReportApplied(w, c, step, w.calls[c].id, w.workers[w.calls[c].id].command.receipt) by {
      ShapeInv(sum, w.workers, w.sys.d);
    }
    ReporterGone(w, c, step, w.calls[c].id);
  }

  lemma ExitedSound(sum: Receipt -> string, w: World, id: Id)
    requires WorldInv(sum, w) && Exits(w.workers, id)
    ensures Sound(id, w.workers[id].command.receipt) && WorkerOk(w.sys.started, w.sys.d.evidence, id, w.workers[id])
  {
    hide WorldInv, Sound, IntentStored;
    WorkerFacts(sum, w, id);
  }

  lemma ReportApplied(w: World, c: nat, step: Runner.Step, id: Id, r: Receipt)
    requires Inv(w.sys.d) && Runner.In(w.sys, c) && w.sys.calls[c].Reporting? && JobOf(w.sys.calls[c].job, id) && r.attempt == Att(id)
    requires Runner.Enabled(w.sys, step) && OfCall(step, c) && step.Report? && Told(NextPhase(w.sys, c, step))
    ensures var d' := Runner.Act(w.sys, step).d;
            && Awaiting(d'.ops, id) && HasReport(d'.evidence, id, r, step.digest)
  {
    hide Inv, HasReport, Awaiting, JobOf, History.ProcessMessage, Runner.Applied, Runner.EventEnvelope, Runner.ResultDecisions;
    var j := w.sys.calls[c].job;
    var env := Runner.EventEnvelope(j, Runner.ResultId(j), "operation.result_reported", j.worker, step.at, step.body);
    assert !step.refused;
    AppliedResult(w.sys.d, step.now, env, j, id, step.at, step.digest, r);
  }

  /** The call that reported was the only one on its attempt. */
  lemma ReporterGone(w: World, c: nat, step: Runner.Step, id: Id)
    requires Runner.SystemInv(w.sys) && Runner.In(w.sys, c) && w.sys.calls[c].Reporting? && JobOf(w.sys.calls[c].job, id)
    requires Runner.Enabled(w.sys, step) && OfCall(step, c) && Told(NextPhase(w.sys, c, step))
    requires Awaiting(Runner.Act(w.sys, step).d.ops, id)
    ensures Settled(Runner.Act(w.sys, step), id)
  {
    hide Inv, Runner.Act, Runner.StartedInv, Awaiting, Described, Keeps;
    OnlyItsCall(w.sys, c, step);
    Runner.ActKeeps(w.sys, step);
    var s' := Runner.Act(w.sys, step);
    assert s'.calls[c] == NextPhase(w.sys, c, step);
    EvidenceKept(w.sys.d, s'.d);
    assert Runner.Working(w.sys, c) && Runner.AttemptOf(w.sys, c) == Att(id);
    forall y | Runner.Working(s', y)
      ensures Runner.AttemptOf(s', y) != Att(id)
    {
      assert y != c && Runner.Working(w.sys, y);
    }
  }

  /** The worker of a started check is its first one. */
  lemma FirstWorker(sum: Receipt -> string, w: World, c: nat)
    requires WorldInv(sum, w) && c in w.calls && w.calls[c].stage.InExecution? && Runner.In(w.sys, c) && w.sys.calls[c].Gated?
    ensures w.calls[c].id !in w.workers
    ensures w.sys.calls[c].job.generation == 1 && w.sys.calls[c].job.request.attemptId == Att(w.calls[c].id)
    ensures ValidDigest(w.calls[c].config) && IntentStored(w.sys.d.evidence, w.calls[c].id, w.calls[c].config)
  {
    hide WorldInv, Shape, ValidDigest, IntentStored, Sound, Inv, VerdictsBased, LaunchesOk;
    CallJob(sum, w, c);
    FactsOf(sum, w, c);
    WorldShape(sum, w);
    assert Runner.Working(w.sys, c) && Runner.Owns(w.sys.d, w.sys.calls[c].job);
    AttemptIsLocal(sum, w.workers, w.sys.d, w.sys.calls[c].job.request.attemptId);
  }

  lemma AttemptIsLocal(sum: Receipt -> string, workers: map<Id, Worker>, d: Data, k: Id)
    requires Shape(sum, workers, d) && k in d.attempts
    ensures LocalAttempt(d.ops, k, d.attempts[k])
  {
    hide Inv, VerdictsClosed, LocalOps, LocalTasks, HonestEvidence;
  }

  lemma WaitingLaunches(launched: seq<Id>, workers: map<Id, Worker>, id: Id, k: Worker)
    requires LaunchesOk(launched, workers) && id !in workers && k.command.Waiting?
    ensures LaunchesOk(launched, workers[id := k])
  {
  }

  lemma StartedWorker(sum: Receipt -> string, w: World, c: nat, s': Runner.System)
    requires WorldInv(sum, w) && c in w.calls && w.calls[c].stage.InExecution? && Runner.In(w.sys, c) && w.sys.calls[c].Gated?
    requires s'.d == w.sys.d && s'.started == w.sys.started + [w.sys.calls[c].job.request.attemptId]
    ensures var id := w.calls[c].id;
            var k := Worker(w.calls[c].config, w.sys.calls[c].job.generation, Waiting);
            && id !in w.workers && WorkerOk(s'.started, s'.d.evidence, id, k)
            && LaunchesOk(w.launched, w.workers[id := k]) && Shape(sum, w.workers[id := k], s'.d)
  {
    hide WorldInv, Shape, ValidDigest, IntentStored, VerdictsBased, LaunchesOk, Runner.SystemInv, WorkersOk, CallConfigured;
    FirstWorker(sum, w, c);
    FactsOf(sum, w, c);
    WorldShape(sum, w);
    WaitingLaunches(w.launched, w.workers, w.calls[c].id, Worker(w.calls[c].config, w.sys.calls[c].job.generation, Waiting));
    HonestStill(sum, w.workers, w.calls[c].id, Worker(w.calls[c].config, w.sys.calls[c].job.generation, Waiting), w.sys.d);
  }

  lemma DriveStep(sum: Receipt -> string, w: World, c: nat, step: Runner.Step)
    requires WorldInv(sum, w) && c in w.calls && w.calls[c].stage.InExecution? && Guarded(sum, w, c, step)
    ensures WorldInv(sum, Drives(w, c, step))
  {
    hide WorldInv, SystemMoves;
    DriveMoves(sum, w, c, step);
    WorldMoves(sum, w, Drives(w, c, step), c);
  }

  lemma DriveMoves(sum: Receipt -> string, w: World, c: nat, step: Runner.Step)
    requires WorldInv(sum, w) && c in w.calls && w.calls[c].stage.InExecution? && Guarded(sum, w, c, step)
    ensures SystemMoves(sum, w, Drives(w, c, step), c)
  {
    hide WorldInv, Runner.Act, Runner.Enabled, Shape, Runner.SystemInv, VerdictsBased, LaunchesOk, Settled, Finished, PhaseOk,
         CallConfigured, WorkerOk, Awaiting, Keeps, DigestOf;
    var s' := Runner.Act(w.sys, step);
    var w' := Drives(w, c, step);
    OnlyItsCall(w.sys, c, step);
    WorldShape(sum, w);
    CallJob(sum, w, c);
    FactsOf(sum, w, c);
    assert s'.calls[c] == NextPhase(w.sys, c, step);
    PhaseMoves(w.sys, c, step);
    Runner.StepKeeps(w.sys, step);
    DriveData(sum, w, c, step);
    EvidenceKept(w.sys.d, s'.d);
    VerdictsKept(sum, w.sys.d, s'.d, w.files);
    PhaseInCheck(sum, w, c, step);
    SettledDrive(sum, w, c, step);
    if Told(s'.calls[c]) {
      ReportSettles(sum, w, c, step);
    }
    if step.Start? {
      StartedWorker(sum, w, c, s');
    }
    assert w.calls == w.calls[c := w.calls[c].(stage := InExecution)];
  }

  lemma PhaseInCheck(sum: Receipt -> string, w: World, c: nat, step: Runner.Step)
    requires WorldInv(sum, w) && c in w.calls && Runner.In(w.sys, c) && Guarded(sum, w, c, step)
    ensures PhaseOk(NextPhase(w.sys, c, step), w.calls[c].id)
    ensures NextPhase(w.sys, c, step).Reporting? ==> Exits(w.workers, w.calls[c].id)
  {
    hide WorldInv, Runner.Enabled, Shape, PhaseOk, Described, NextPhase, DigestOf, Runner.SystemInv, Inv;
    WorldShape(sum, w);
    ShapeInv(sum, w.workers, w.sys.d);
    CallJob(sum, w, c);
    var id := w.calls[c].id;
    if Op(id) in w.sys.d.ops {
      SeenDescribed(sum, w.workers, w.sys.d, id);
    }
    PhaseStays(w.sys, c, step, id);
    PhaseMoves(w.sys, c, step);
  }

  lemma SettledDrive(sum: Receipt -> string, w: World, c: nat, step: Runner.Step)
    requires WorldInv(sum, w) && c in w.calls && Runner.In(w.sys, c) && Guarded(sum, w, c, step)
    ensures forall x :: Settled(w.sys, x) ==> Settled(Runner.Act(w.sys, step), x)
  {
    hide WorldInv, Runner.Act, Runner.Enabled, Shape, Runner.SystemInv, Settled, Awaiting, Keeps, DigestOf, Inv;
    WorldShape(sum, w);
    ShapeInv(sum, w.workers, w.sys.d);
    OnlyItsCall(w.sys, c, step);
    DriveData(sum, w, c, step);
    var s' := Runner.Act(w.sys, step);
    EvidenceKept(w.sys.d, s'.d);
    JobKept(w.sys, c, step);
    assert s'.calls[c] == NextPhase(w.sys, c, step);
    forall x | Settled(w.sys, x)
      ensures Settled(s', x)
    {
      SettledStored(w.sys, x);
      SettledStays(w.sys, s', c, x);
    }
  }

  lemma SettledStored(s: Runner.System, x: Id)
    requires Settled(s, x)
    ensures Att(x) in s.d.attempts
  {
  }
}
