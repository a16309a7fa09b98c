/** One `Execute` call on a repository, in the order the runner makes its moves; each
    move is a step of the interleaved system. */
module Execution {
  import opened Basics
  import opened Records
  import opened Storage
  import opened Decisions
  import History
  import R = Runner
  import Store

  const MAX_HEARTBEATS := 32

  /** What a heartbeat call meets: the clock, and whether its context is cancelled or
      the policy refuses it. */
  datatype Pulse = Pulse(now: Time, at: Time, cancelled: bool, denied: bool, ack: R.Ack)

  /** Which of the reads before the offer fails, if any. */
  datatype Reads = Readable | NoOperation | NoAttempt

  /** What one call of `Execute` meets on its way. */
  datatype Plan = Plan(
    access: Reads, refused: bool, now: Time, at: Time, offer: Payload, offerAck: R.Ack,
    gate: Pulse, pulses: seq<Pulse>, failed: bool,
    reportNow: Time, reportAt: Time, digest: string, report: Payload, misreported: bool, reportAck: R.Ack,
    readable: bool, lossNow: Time, late: bool, why: string, lossAck: R.Ack)

  class Call {
    const store: Store.Repository
    var phase: R.Phase
    var closed: bool
    var started: seq<Id>

    constructor (store: Store.Repository, request: R.Request, worker: Id)
      ensures this.store == store && phase == R.Called(request, worker) && !closed && started == []
    {
      this.store := store;
      phase := R.Called(request, worker);
      closed := false;
      started := [];
    }

    /** This call as the only one of the system. */
    ghost function System(): R.System
      reads this, store
    {
      R.System(store.d, map[0 := phase], started)
    }

    /** The prior attempt is read only for a retry that nothing has refused yet. */
    predicate ReadsAttempt(refused: bool, seen: Operation) {
      !refused && seen.generation > 0 && seen.state == Ready
    }

    /** Reading the operation and checking capability, policy and retry. */
    method Prepare(access: Reads, refused: bool)
      requires phase.Called?
      modifies this`phase
      ensures phase.Errored? || (phase.Offering? && !access.NoOperation?)
      ensures access.NoOperation? ==> System() == R.Act(old(System()), R.ReadFails(0))
      ensures !access.NoOperation? ==>
                var read := R.Act(old(System()), R.ReadOperation(0));
                if !read.calls[0].Checking? then System() == read
                else if access.NoAttempt? && ReadsAttempt(refused, read.calls[0].seen) then System() == R.Act(read, R.ReadFails(0))
                else System() == R.Act(read, R.Check(0, refused))
    {
      hide R.Act, R.Enabled, R.RetryDenied;
      ghost var was := System();
      ReadFailsActs(was, phase);
      ReadActs(was, phase);
      var request := phase.request;
      if access.NoOperation? || request.operationId !in store.d.ops {
        phase := R.Errored;
        return;
      }
      var seen := store.d.ops[request.operationId];
      ghost var read := R.Act(was, R.ReadOperation(0));
      ReadFailsActs(read, read.calls[0]);
      CheckActs(read, read.calls[0], refused);
      if access.NoAttempt? && ReadsAttempt(refused, seen) {
        phase := R.Errored;
        return;
      }
      var denied := refused || R.RetryDenied(store.d, request, seen);
      phase := R.Offering(request, seen.descriptor, phase.worker, denied);
    }

    /** The offer: one message whose callback starts the attempt. */
    method Offer(now: Time, at: Time, body: Payload, ack: R.Ack)
      requires phase.Offering? && !store.closed
      modifies this`phase, store
      ensures !store.closed
      ensures phase.Returned? || phase.Accepted? || phase.Errored?
      ensures System() == R.Act(old(System()), R.Offer(0, now, at, body, ack))
    {
      hide History.ProcessMessage, R.OfferEnvelope, R.OfferDecisions, RegisterMessage;
      var j := R.Job(phase.request, phase.descriptor, phase.worker, 0);
      var denied := phase.denied;
      var sent := Send(now, R.OfferEnvelope(j, body), R.OfferDecisions(j, denied, at), ack);
      if sent.None? {
        phase := R.Errored;
      } else if sent.value {
        phase := R.Returned(R.Duplicate);
      } else if denied {
        phase := R.Returned(R.Rejected);
      } else if j.request.attemptId in store.d.attempts {
        phase := R.Accepted(j.(generation := store.d.attempts[j.request.attemptId].generation));
      } else {
        phase := R.Errored;
      }
    }

    /** `ProcessMessage` on the store, as its caller sees it: the commit may fail
        late, or succeed without the caller being told. */
    method Send(now: Time, env: Envelope, cs: seq<Decision>, ack: R.Ack) returns (learned: Option<bool>)
      requires !store.closed
      modifies store
      ensures !store.closed
      ensures (store.d, learned) == R.Deliver(old(store.d), now, env, cs, ack)
    {
      hide RegisterMessage, DecideAll;
      var sent := store.ProcessMessage(now, env, cs, Pass, false, ack == R.Aborted);
      return if sent.Ok? && ack == R.Acknowledged then Some(sent.value) else None;
    }

    predicate Refuses(j: R.Job, beats: nat, p: Pulse)
      reads this
    {
      closed || p.cancelled || p.at >= j.request.deadline || p.denied || beats >= MAX_HEARTBEATS
    }

    /** The heartbeat closure. */
    method Heartbeat(j: R.Job, beats: nat, p: Pulse) returns (ok: bool)
      requires !store.closed
      modifies store
      ensures !store.closed
      ensures Refuses(j, beats, p) ==> !ok && store.d == old(store.d)
      ensures !Refuses(j, beats, p) ==>
                var (d', learned) := R.Heartbeat(old(System()), 0, j, beats, p.now, p.at, p.ack);
                store.d == d' && ok == learned.Some?
    {
      hide R.Deliver, R.EventEnvelope, R.BeatDecisions, R.BeatId;
      if closed {
        return false;
      }
      if p.cancelled {
        return false;
      }
      if p.at >= j.request.deadline {
        return false;
      }
      if p.denied {
        return false;
      }
      if beats >= MAX_HEARTBEATS {
        return false;
      }
      var learned := Send(p.now, R.EventEnvelope(j, R.BeatId(j, beats), "operation.progress", j.worker, p.at, Payload("", true)),
                          R.BeatDecisions(j, beats, p.at), p.ack);
      return learned.Some?;
    }

    /** The gate right before dispatch. */
    method Gate(p: Pulse)
      requires phase.Accepted? && !store.closed
      modifies this`phase, store
      ensures !store.closed
      ensures phase.Gated? || phase.Losing?
      ensures System() == R.Act(old(System()), R.Gate(0, p.now, p.at, old(Refuses(phase.job, 0, p)), p.ack))
    {
      hide R.Heartbeat;
      var j := phase.job;
      var ok := Heartbeat(j, 0, p);
      phase := if ok then R.Gated(j) else R.Losing(j, false);
    }

    /** The worker runs: it is started once, may call the heartbeat at any time, and
        ends with or without a claim. */
    method Run(pulses: seq<Pulse>, failed: bool) returns (ghost steps: seq<R.Step>)
      requires phase.Gated? && !store.closed && !closed
      modifies this, store
      ensures !store.closed && closed
      ensures R.Runnable(old(System()), steps) && System() == R.Execute(old(System()), steps)
      ensures started == old(started) + [old(phase).job.request.attemptId]
      ensures phase == if failed then R.Losing(old(phase).job, false) else R.Reporting(old(phase).job)
    {
      hide R.Heartbeat, R.Runnable, R.Execute, R.Enabled, R.Act;
      var j := phase.job;
      ghost var was := System();
      Nothing(was);
      StartActs(was, j);
      Append(was, [], R.Start(0));
      steps := [] + [R.Start(0)];
      started := started + [j.request.attemptId];
      phase := R.Dispatched(j, 1);
      for i := 0 to |pulses|
        invariant !store.closed && !closed
        invariant phase.Dispatched? && phase.job == j
        invariant started == old(started) + [j.request.attemptId]
        invariant R.Runnable(was, steps) && System() == R.Execute(was, steps)
      {
        ghost var before := System();
        var refused := Refuses(j, phase.beats, pulses[i]);
        var ok := Heartbeat(j, phase.beats, pulses[i]);
        if !refused {
          BeatActs(before, j, phase.beats, pulses[i].now, pulses[i].at, pulses[i].ack);
          Append(was, steps, R.Beat(0, pulses[i].now, pulses[i].at, pulses[i].ack));
          steps := steps + [R.Beat(0, pulses[i].now, pulses[i].at, pulses[i].ack)];
          phase := R.Dispatched(j, if ok then phase.beats + 1 else phase.beats);
        }
      }
      closed := true;
      FinishActs(System(), j, phase.beats, failed);
      Append(was, steps, R.Finish(0, failed));
      steps := steps + [R.Finish(0, failed)];
      phase := if failed then R.Losing(j, false) else R.Reporting(j);
    }

    /** `report`. */
    method Report(now: Time, at: Time, digest: string, body: Payload, refused: bool, ack: R.Ack)
      requires phase.Reporting? && !store.closed
      modifies this`phase, store
      ensures !store.closed
      ensures phase.Returned? || phase.Losing?
      ensures System() == R.Act(old(System()), R.Report(0, now, at, digest, body, refused, ack))
    {
      hide History.ProcessMessage, R.EventEnvelope, R.ResultDecisions, R.Applied;
      var j := phase.job;
      if refused {
        phase := R.Losing(j, true);
        return;
      }
      var env := R.EventEnvelope(j, R.ResultId(j), "operation.result_reported", j.worker, at, body);
      var applied := R.Applied(store.d, now, env, j, at, digest);
      var learned := Send(now, env, R.ResultDecisions(j, at, digest), ack);
      if learned.None? {
        phase := R.Losing(j, true);
      } else if learned.value {
        phase := R.Returned(R.Duplicate);
      } else {
        phase := R.Returned(R.ReportedBack(applied));
      }
    }

    /** `uncertain`: withdraw the attempt, if it is still the active one. */
    method Uncertain(readable: bool, now: Time, late: bool, why: string, ack: R.Ack)
      requires phase.Losing? && !store.closed
      modifies this`phase, store
      ensures !store.closed
      ensures phase.Withdrawn? || phase.Errored?
      ensures !readable ==> System() == R.Act(old(System()), R.ReadFails(0))
      ensures readable ==>
                var read := R.Act(old(System()), R.Lose(0));
                if read.calls[0].Withdrawing? then System() == R.Act(read, R.Withdraw(0, now, late, why, ack))
                else System() == read
    {
      hide R.Act, R.Enabled, R.AfterWithdraw;
      ghost var was := System();
      ReadFailsActs(was, phase);
      LoseActs(was, phase);
      var j, failed := phase.job, phase.failed;
      if !readable || j.descriptor.id !in store.d.ops || store.d.ops[j.descriptor.id].active != j.request.attemptId {
        phase := R.Errored;
        return;
      }
      phase := R.Withdrawing(j, store.d.ops[j.descriptor.id].revision, failed);
      WithdrawActs(System(), phase, now, late, why, ack);
      Invalidate(now, late, why, ack);
    }

    method Invalidate(now: Time, late: bool, why: string, ack: R.Ack)
      requires phase.Withdrawing? && !store.closed
      modifies this`phase, store
      ensures !store.closed
      ensures phase.Withdrawn? || phase.Errored?
      ensures System() == R.AfterWithdraw(old(System()), 0, now, late, why, ack)
    {
      hide InvalidateAttempt, R.LossRecord, Decide, DecideAll;
      var j := phase.job;
      var decisions := [DoInvalidateAttempt(j.descriptor.id, phase.revision, j.request.attemptId,
                                            if late then LeaseExpired else OwnershipLost, R.LossRecord(j, now, why), now)];
      History.OneDecision(store.d, now, decisions);
      Invalidates(store.d, now, decisions[0]);
      var o := store.WriteValue(now, decisions, Pass, false, ack == R.Aborted);
      phase := if o.Pass? && ack == R.Acknowledged then R.Withdrawn(j, phase.failed) else R.Errored;
    }

    /** Up to the offer's commit. */
    method Propose(plan: Plan) returns (ghost steps: seq<R.Step>)
      requires phase.Called? && !store.closed
      modifies this`phase, store
      ensures !store.closed
      ensures R.Runnable(old(System()), steps) && System() == R.Execute(old(System()), steps)
      ensures phase.Returned? || phase.Accepted? || phase.Errored?
    {
      hide R.Runnable, R.Execute, R.Enabled, R.Act;
      ghost var was := System();
      Nothing(was);
      steps := [];
      CallEnabled(was, phase, R.ReadFails(0));
      Prepare(plan.access, plan.refused);
      if plan.access.NoOperation? {
        Append(was, steps, R.ReadFails(0));
        steps := steps + [R.ReadFails(0)];
        return;
      }
      ReadActs(was, old(phase));
      ghost var read := R.Act(was, R.ReadOperation(0));
      Append(was, steps, R.ReadOperation(0));
      steps := steps + [R.ReadOperation(0)];
      if read.calls[0].Checking? {
        ghost var next := if plan.access.NoAttempt? && ReadsAttempt(plan.refused, read.calls[0].seen)
                          then R.ReadFails(0) else R.Check(0, plan.refused);
        CallEnabled(read, read.calls[0], next);
        Append(was, steps, next);
        steps := steps + [next];
      }
      if phase.Offering? {
        ghost var offer := R.Offer(0, plan.now, plan.at, plan.offer, plan.offerAck);
        CallEnabled(System(), phase, offer);
        Append(was, steps, offer);
        steps := steps + [offer];
        Offer(plan.now, plan.at, plan.offer, plan.offerAck);
      }
    }

    /** The gate and the worker's run. */
    method Dispatch(plan: Plan) returns (ghost steps: seq<R.Step>)
      requires phase.Accepted? && !store.closed && !closed
      modifies this, store
      ensures !store.closed
      ensures R.Runnable(old(System()), steps) && System() == R.Execute(old(System()), steps)
      ensures phase.Reporting? || phase.Losing?
      ensures |started| <= |old(started)| + 1
    {
      hide R.Runnable, R.Execute, R.Enabled, R.Act, Refuses;
      ghost var was := System();
      Nothing(was);
      ghost var gate := R.Gate(0, plan.gate.now, plan.gate.at, Refuses(phase.job, 0, plan.gate), plan.gate.ack);
      CallEnabled(was, phase, gate);
      Append(was, [], gate);
      steps := [] + [gate];
      Gate(plan.gate);
      if phase.Gated? {
        ghost var during := Run(plan.pulses, plan.failed);
        Join(was, steps, during);
        steps := steps + during;
      }
    }

    /** The report, or the withdrawal of the attempt. */
    method Conclude(plan: Plan) returns (ghost steps: seq<R.Step>)
      requires (phase.Reporting? || phase.Losing?) && !store.closed
      modifies this`phase, store
      ensures R.Runnable(old(System()), steps) && System() == R.Execute(old(System()), steps)
      ensures phase.Returned? || phase.Withdrawn? || phase.Errored?
    {
      hide R.Runnable, R.Execute, R.Enabled, R.Act;
      ghost var was := System();
      Nothing(was);
      steps := [];
      if phase.Reporting? {
        ghost var report := R.Report(0, plan.reportNow, plan.reportAt, plan.digest, plan.report, plan.misreported, plan.reportAck);
        CallEnabled(was, phase, report);
        Append(was, steps, report);
        steps := steps + [report];
        Report(plan.reportNow, plan.reportAt, plan.digest, plan.report, plan.misreported, plan.reportAck);
      }
      if phase.Losing? {
        ghost var losing := System();
        Uncertain(plan.readable, plan.lossNow, plan.late, plan.why, plan.lossAck);
        if !plan.readable {
          CallEnabled(losing, losing.calls[0], R.ReadFails(0));
          Append(was, steps, R.ReadFails(0));
          steps := steps + [R.ReadFails(0)];
          return;
        }
        LoseActs(losing, losing.calls[0]);
        ghost var read := R.Act(losing, R.Lose(0));
        Append(was, steps, R.Lose(0));
        steps := steps + [R.Lose(0)];
        if read.calls[0].Withdrawing? {
          ghost var withdraw := R.Withdraw(0, plan.lossNow, plan.late, plan.why, plan.lossAck);
          CallEnabled(read, read.calls[0], withdraw);
          Append(was, steps, withdraw);
          steps := steps + [withdraw];
        }
      }
    }

    /** The whole of `Execute`: whatever it meets, it is a run of the interleaved
        system, starts its worker at most once, and ends. */
    method Execute(plan: Plan) returns (ghost steps: seq<R.Step>)
      requires phase.Called? && !store.closed && !closed && started == []
      modifies this, store
      ensures R.Runnable(old(System()), steps) && System() == R.Execute(old(System()), steps)
      ensures phase.Returned? || phase.Withdrawn? || phase.Errored?
      ensures |started| <= 1
    {
      hide R.Runnable, R.Execute;
      ghost var was := System();
      steps := Propose(plan);
      if phase.Accepted? {
        ghost var during := Dispatch(plan);
        Join(was, steps, during);
        steps := steps + during;
        ghost var after := Conclude(plan);
        Join(was, steps, after);
        steps := steps + after;
      }
    }
  }

  lemma Invalidates(d: Data, now: Time, c: Decision)
    requires c.DoInvalidateAttempt?
    ensures Decide(d, now, c) == InvalidateAttempt(d, c.id, c.rev, c.attempt, c.reason, c.record, c.at)
  {
    hide InvalidateAttempt;
  }

  lemma ReadFailsActs(s: R.System, p: R.Phase)
    requires s.calls == map[0 := p] && (p.Called? || p.Checking? || p.Losing?)
    ensures R.Enabled(s, R.ReadFails(0)) && R.Act(s, R.ReadFails(0)) == R.System(s.d, map[0 := R.Errored], s.started)
  {
  }

  lemma ReadActs(s: R.System, p: R.Phase)
    requires s.calls == map[0 := p] && p.Called?
    ensures R.Enabled(s, R.ReadOperation(0))
    ensures R.Act(s, R.ReadOperation(0)) ==
            R.System(s.d, map[0 := if p.request.operationId in s.d.ops
                                   then R.Checking(p.request, p.worker, s.d.ops[p.request.operationId]) else R.Errored], s.started)
  {
  }

  lemma CheckActs(s: R.System, p: R.Phase, refused: bool)
    requires s.calls == map[0 := p] && p.Checking?
    ensures R.Enabled(s, R.Check(0, refused))
    ensures R.Act(s, R.Check(0, refused)) ==
            R.System(s.d, map[0 := R.Offering(p.request, p.seen.descriptor, p.worker,
                                              refused || R.RetryDenied(s.d, p.request, p.seen))], s.started)
  {
    hide R.RetryDenied;
  }

  lemma LoseActs(s: R.System, p: R.Phase)
    requires s.calls == map[0 := p] && p.Losing?
    ensures R.Enabled(s, R.Lose(0))
    ensures var id := p.job.descriptor.id;
            R.Act(s, R.Lose(0)) ==
            R.System(s.d, map[0 := if id in s.d.ops && s.d.ops[id].active == p.job.request.attemptId
                                   then R.Withdrawing(p.job, s.d.ops[id].revision, p.failed) else R.Errored], s.started)
  {
  }

  lemma WithdrawActs(s: R.System, p: R.Phase, now: Time, late: bool, why: string, ack: R.Ack)
    requires s.calls == map[0 := p] && p.Withdrawing?
    ensures R.Enabled(s, R.Withdraw(0, now, late, why, ack))
    ensures R.Act(s, R.Withdraw(0, now, late, why, ack)) == R.AfterWithdraw(s, 0, now, late, why, ack)
  {
    hide R.AfterWithdraw;
  }

  /** The one call of a system has the given phase, and the step may be taken. */
  lemma CallEnabled(s: R.System, p: R.Phase, step: R.Step)
    requires s.calls == map[0 := p] && !step.Call? && !step.Elsewhere? && step.c == 0
    ensures R.Enabled(s, step) <==>
            match step
            case ReadOperation(_) => p.Called?
            case Check(_, _) => p.Checking?
            case Offer(_, _, _, _, _) => p.Offering?
            case Gate(_, _, _, _, _) => p.Accepted?
            case Start(_) => p.Gated?
            case Beat(_, _, _, _) => p.Dispatched? && p.beats < MAX_HEARTBEATS
            case Finish(_, _) => p.Dispatched?
            case Report(_, _, _, _, _, _, _) => p.Reporting?
            case Lose(_) => p.Losing?
            case ReadFails(_) => p.Called? || p.Checking? || p.Losing?
            case Withdraw(_, _, _, _, _) => p.Withdrawing?
  {
  }

  lemma StartActs(s: R.System, j: R.Job)
    requires s.calls == map[0 := R.Gated(j)]
    ensures R.Enabled(s, R.Start(0))
    ensures R.Act(s, R.Start(0)) == R.System(s.d, map[0 := R.Dispatched(j, 1)], s.started + [j.request.attemptId])
  {
    assert map[0 := R.Gated(j)][0 := R.Dispatched(j, 1)] == map[0 := R.Dispatched(j, 1)];
  }

  lemma BeatActs(s: R.System, j: R.Job, beats: nat, now: Time, at: Time, ack: R.Ack)
    requires s.calls == map[0 := R.Dispatched(j, beats)] && beats < MAX_HEARTBEATS
    ensures R.Enabled(s, R.Beat(0, now, at, ack))
    ensures var (d', learned) := R.Heartbeat(s, 0, j, beats, now, at, ack);
            R.Act(s, R.Beat(0, now, at, ack)) ==
            R.System(d', map[0 := R.Dispatched(j, if learned.Some? then beats + 1 else beats)], s.started)
  {
    hide R.Heartbeat;
  }

  lemma FinishActs(s: R.System, j: R.Job, beats: nat, failed: bool)
    requires s.calls == map[0 := R.Dispatched(j, beats)]
    ensures R.Enabled(s, R.Finish(0, failed))
    ensures R.Act(s, R.Finish(0, failed)) ==
            R.System(s.d, map[0 := if failed then R.Losing(j, false) else R.Reporting(j)], s.started)
  {
  }

  lemma Nothing(s: R.System)
    ensures R.Runnable(s, []) && R.Execute(s, []) == s
  {
  }

  /** A run that goes on where another one ended. */
  lemma {:induction false} Join(s: R.System, steps: seq<R.Step>, more: seq<R.Step>)
    requires R.Runnable(s, steps) && R.Runnable(R.Execute(s, steps), more)
    ensures R.Runnable(s, steps + more)
    ensures R.Execute(s, steps + more) == R.Execute(R.Execute(s, steps), more)
    decreases |steps|
  {
    hide R.Enabled, R.Act;
    if steps == [] {
      assert steps + more == more;
    } else {
      Join(R.Act(s, steps[0]), steps[1..], more);
      assert (steps + more)[1..] == steps[1..] + more;
    }
  }

  /** One more step at the end of a run. */
  lemma Append(s: R.System, steps: seq<R.Step>, step: R.Step)
    requires R.Runnable(s, steps) && R.Enabled(R.Execute(s, steps), step)
    ensures R.Runnable(s, steps + [step])
    ensures R.Execute(s, steps + [step]) == R.Act(R.Execute(s, steps), step)
  {
    hide R.Enabled, R.Act;
    var last := R.Act(R.Execute(s, steps), step);
    assert [step][1..] == [];
    assert R.Runnable(last, []) && R.Execute(last, []) == last;
    Join(s, steps, [step]);
  }
}
