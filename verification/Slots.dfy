/** Bounded parallelism of the process worker: the slot channel, the active counter
    and the idle channel, under any interleaving of runs, delayed cleanups and
    waiters. */
module Slots {
  import opened Basics

  // ---- the shared counters --------------------------------------------------

  /** `slots` is what the buffered channel holds; idle channels are numbered, and
      `closed` says which of them have been closed. */
  datatype Pool = Pool(max: nat, slots: nat, active: int, idle: nat, closed: set<nat>, closedTwice: bool)

  function NewPool(max: nat): Pool {
    Pool(max, 0, 0, 0, {0}, false)
  }

  /** The non-blocking send in `acquire`. */
  function TakeSlot(p: Pool): Option<Pool> {
    if p.slots < p.max then Some(p.(slots := p.slots + 1)) else None
  }

  /** The locked section of `acquire`: leaving idleness makes a fresh channel. */
  function Enter(p: Pool): Pool {
    p.(active := p.active + 1, idle := if p.active == 0 then p.idle + 1 else p.idle)
  }

  /** The locked section of `release`: reaching zero closes the current channel;
      closing a closed channel would panic. */
  function Leave(p: Pool): Pool {
    var q := p.(active := p.active - 1);
    if q.active == 0 then q.(closed := q.closed + {q.idle}, closedTwice := q.closedTwice || q.idle in q.closed) else q
  }

  function FreeSlot(p: Pool): Pool
    requires p.slots > 0
  {
    p.(slots := p.slots - 1)
  }

  class Worker {
    var slots: nat
    var active: int
    var idle: nat
    var closed: set<nat>
    var closedTwice: bool
    const max: nat

    constructor (max: nat)
      ensures Value() == NewPool(max)
    {
      this.max := max;
      slots, active, idle, closed, closedTwice := 0, 0, 0, {0}, false;
    }

    function Value(): Pool
      reads this
    {
      Pool(max, slots, active, idle, closed, closedTwice)
    }

    method Acquire() returns (ok: bool)
      modifies this
      ensures match TakeSlot(old(Value()))
              case Some(p) => ok && Value() == Enter(p)
              case None => !ok && Value() == old(Value())
    {
      if slots >= max {
        return false;
      }
      slots := slots + 1;
      if active == 0 {
        idle := idle + 1;
      }
      active := active + 1;
      return true;
    }

    method Release()
      requires slots > 0
      modifies this
      ensures Value() == FreeSlot(Leave(old(Value())))
    {
      active := active - 1;
      if active == 0 {
        closedTwice := closedTwice || idle in closed;
        closed := closed + {idle};
      }
      slots := slots - 1;
    }

    /** The slot ownership of `Run`: the deferred release runs on every exit unless
        the cleanup outlives its budget and takes the slot over. */
    method Run(exit: Exit) returns (admitted: bool, handedOver: bool)
      requires active >= 0
      modifies this
      ensures admitted <==> old(slots) < max && !Early(exit)
      ensures handedOver <==> admitted && exit == CleanupLate
      ensures !admitted ==> Value() == old(Value())
      ensures handedOver ==> Value() == Enter(old(Value()).(slots := old(slots) + 1))
      ensures admitted && !handedOver ==> Value() == FreeSlot(Leave(Enter(old(Value()).(slots := old(slots) + 1))))
    {
      handedOver := false;
      admitted := false;
      if Early(exit) {
        return;
      }
      admitted := Acquire();
      if !admitted {
        return;
      }
      var releaseHere := true;
      match exit {
        case ContextDone =>
        case NoHeartbeat =>
        case InvalidJob =>
        case NotExecutable =>
        case NoInputPipe =>
        case NoOutputPipe =>
        case NotStarted =>
        case CleanupInTime =>
        case CleanupLate =>
          releaseHere := false;
          handedOver := true;
      }
      if releaseHere {
        Release();
      }
    }
  }

  /** Where `Run` returns: before it asks for a slot, or after it has been admitted. */
  datatype Exit =
    | ContextDone | NoHeartbeat | InvalidJob
    | NotExecutable | NoInputPipe | NoOutputPipe | NotStarted | CleanupInTime | CleanupLate

  predicate Early(exit: Exit) {
    exit.ContextDone? || exit.NoHeartbeat? || exit.InvalidJob?
  }

  // ---- interleavings --------------------------------------------------------

  /** One `Run` call: waiting for a slot, holding it but not yet counted, counted,
      handed over to a late cleanup, about to release, uncounted but still holding
      the slot, finished, or refused. */
  datatype Phase = Arrived | Admitted | Counted | Late | Releasing | Uncounted | Finished | Refused

  /** A `WaitIdle` call: the channel it took, and whether the counter has been zero
      at some moment since. */
  datatype Wait = Waiting(channel: nat, sawZero: bool) | WentIdle(sawZero: bool) | GaveUp

  datatype State = State(pool: Pool, runs: map<nat, Phase>, waits: map<nat, Wait>, released: seq<nat>)

  datatype Step =
    | Arrive(r: nat)
    | Try(r: nat)
    | Count(r: nat)
    | End(r: nat, late: bool)
    | CleanedUp(r: nat)
    | Uncount(r: nat)
    | Free(r: nat)
    | StartWait(w: nat)
    | WakeUp(w: nat)
    | Cancel(w: nat)

  function Initial(max: nat): State {
    State(NewPool(max), map[], map[], [])
  }

  predicate At(s: State, r: nat, phase: Phase) {
    r in s.runs && s.runs[r] == phase
  }

  predicate IsWaiting(s: State, w: nat) {
    w in s.waits && s.waits[w].Waiting?
  }

  predicate Enabled(s: State, step: Step) {
    match step
    case Arrive(r) => r !in s.runs
    case Try(r) => At(s, r, Arrived)
    case Count(r) => At(s, r, Admitted)
    case End(r, _) => At(s, r, Counted)
    case CleanedUp(r) => At(s, r, Late)
    case Uncount(r) => At(s, r, Releasing)
    case Free(r) => At(s, r, Uncounted) && s.pool.slots > 0
    case StartWait(w) => w !in s.waits
    case WakeUp(w) => IsWaiting(s, w) && s.waits[w].channel in s.pool.closed
    case Cancel(w) => IsWaiting(s, w)
  }

  /** Every waiter notices a counter of zero. */
  function Notice(waits: map<nat, Wait>, active: int): map<nat, Wait> {
    map w | w in waits ::
      if waits[w].Waiting? && active == 0 then Waiting(waits[w].channel, true) else waits[w]
  }

  function Act(s: State, step: Step): State
    requires Enabled(s, step)
  {
    match step
    case Arrive(r) => s.(runs := s.runs[r := Arrived])
    case Try(r) =>
      (match TakeSlot(s.pool)
       case Some(p) => s.(pool := p, runs := s.runs[r := Admitted])
       case None => s.(runs := s.runs[r := Refused]))
    case Count(r) => s.(pool := Enter(s.pool), runs := s.runs[r := Counted])
    case End(r, late) => s.(runs := s.runs[r := if late then Late else Releasing])
    case CleanedUp(r) => s.(runs := s.runs[r := Releasing])
    case Uncount(r) =>
      var p := Leave(s.pool);
      s.(pool := p, runs := s.runs[r := Uncounted], waits := Notice(s.waits, p.active))
    case Free(r) => s.(pool := FreeSlot(s.pool), runs := s.runs[r := Finished], released := s.released + [r])
    case StartWait(w) => s.(waits := s.waits[w := Waiting(s.pool.idle, s.pool.active == 0)])
    case WakeUp(w) => s.(waits := s.waits[w := WentIdle(s.waits[w].sawZero)])
    case Cancel(w) => s.(waits := s.waits[w := GaveUp])
  }

  // ---- the invariant --------------------------------------------------------

  function CountedRuns(s: State): set<nat> {
    set r | r in s.runs && s.runs[r] in {Counted, Late, Releasing}
  }

  function Holders(s: State): set<nat> {
    set r | r in s.runs && s.runs[r] in {Admitted, Counted, Late, Releasing, Uncounted}
  }

  ghost predicate PoolInv(s: State) {
    && s.pool.active == |CountedRuns(s)| && s.pool.slots == |Holders(s)| && s.pool.slots <= s.pool.max
    && (forall c :: c in s.pool.closed ==> c <= s.pool.idle)
    && (s.pool.idle in s.pool.closed <==> s.pool.active == 0)
    && !s.pool.closedTwice
  }

  /** A waiter's channel is closed exactly when the counter has been zero since it
      began to wait, and is the current one until then. */
  ghost predicate WaitInv(s: State) {
    forall w :: w in s.waits ==>
      match s.waits[w]
      case Waiting(c, sawZero) => c <= s.pool.idle && (c in s.pool.closed <==> sawZero) && (!sawZero ==> c == s.pool.idle)
      case WentIdle(sawZero) => sawZero
      case GaveUp => true
  }

  ghost predicate ReleaseInv(s: State) {
    && (forall r :: r in s.released <==> At(s, r, Finished))
    && (forall i, j :: 0 <= i < j < |s.released| ==> s.released[i] != s.released[j])
  }

  ghost predicate Inv(s: State) {
    PoolInv(s) && WaitInv(s) && ReleaseInv(s)
  }

  predicate IsCounted(phase: Phase) {
    phase in {Counted, Late, Releasing}
  }

  predicate HoldsSlot(phase: Phase) {
    phase in {Admitted, Counted, Late, Releasing, Uncounted}
  }

  lemma MoveRun(s: State, s': State, r: nat, to: Phase)
    requires r in s.runs && s'.runs == s.runs[r := to]
    ensures |CountedRuns(s')| == |CountedRuns(s)| + (if IsCounted(to) then 1 else 0) - (if IsCounted(s.runs[r]) then 1 else 0)
    ensures |Holders(s')| == |Holders(s)| + (if HoldsSlot(to) then 1 else 0) - (if HoldsSlot(s.runs[r]) then 1 else 0)
  {
    hide IsCounted, HoldsSlot;
    MoveCounted(s, s', r, to);
    MoveHolder(s, s', r, to);
  }

  lemma MoveCounted(s: State, s': State, r: nat, to: Phase)
    requires r in s.runs && s'.runs == s.runs[r := to]
    ensures |CountedRuns(s')| == |CountedRuns(s)| + (if IsCounted(to) then 1 else 0) - (if IsCounted(s.runs[r]) then 1 else 0)
  {
    assert CountedRuns(s') == if IsCounted(to) then CountedRuns(s) + {r} else CountedRuns(s) - {r};
    assert r in CountedRuns(s) <==> IsCounted(s.runs[r]);
  }

  lemma MoveHolder(s: State, s': State, r: nat, to: Phase)
    requires r in s.runs && s'.runs == s.runs[r := to]
    ensures |Holders(s')| == |Holders(s)| + (if HoldsSlot(to) then 1 else 0) - (if HoldsSlot(s.runs[r]) then 1 else 0)
  {
    assert Holders(s') == if HoldsSlot(to) then Holders(s) + {r} else Holders(s) - {r};
    assert r in Holders(s) <==> HoldsSlot(s.runs[r]);
  }

  lemma OtherRuns(s: State, s': State, r: nat)
    requires s'.runs == s.runs || (r !in s.runs && s'.runs == s.runs[r := Arrived])
    ensures CountedRuns(s') == CountedRuns(s) && Holders(s') == Holders(s)
  {
  }

  lemma StepPool(s: State, step: Step)
    requires PoolInv(s) && Enabled(s, step)
    ensures PoolInv(Act(s, step))
  {
    hide CountedRuns, Holders, Notice;
    var s' := Act(s, step);
    match step
    case Arrive(r) => OtherRuns(s, s', r);
    case Try(r) => MoveRun(s, s', r, s'.runs[r]);
    case Count(r) => MoveRun(s, s', r, Counted);
    case End(r, _) => MoveRun(s, s', r, s'.runs[r]);
    case CleanedUp(r) => MoveRun(s, s', r, Releasing);
    case Uncount(r) => MoveRun(s, s', r, Uncounted);
    case Free(r) => MoveRun(s, s', r, Finished);
    case _ => OtherRuns(s, s', 0);
  }

  lemma StepWaits(s: State, step: Step)
    requires WaitInv(s) && PoolInv(s) && Enabled(s, step)
    ensures WaitInv(Act(s, step))
  {
    hide CountedRuns, Holders;
    var s' := Act(s, step);
    forall w | w in s'.waits
      ensures match s'.waits[w]
              case Waiting(c, sawZero) => c <= s'.pool.idle && (c in s'.pool.closed <==> sawZero) && (!sawZero ==> c == s'.pool.idle)
              case WentIdle(sawZero) => sawZero
              case GaveUp => true
    {
      if w in s.waits {
        assert match s.waits[w]
               case Waiting(c, sawZero) => c <= s.pool.idle && (c in s.pool.closed <==> sawZero) && (!sawZero ==> c == s.pool.idle)
               case WentIdle(sawZero) => sawZero
               case GaveUp => true;
      }
    }
  }

  lemma StepReleases(s: State, step: Step)
    requires ReleaseInv(s) && Enabled(s, step)
    ensures ReleaseInv(Act(s, step))
  {
    hide TakeSlot, Enter, Leave, Notice;
    var s' := Act(s, step);
    if step.Free? {
      assert step.r !in s.released;
      forall r
        ensures r in s'.released <==> At(s', r, Finished)
      {
        assert r in s'.released <==> r in s.released || r == step.r;
      }
    } else {
      forall r
        ensures At(s', r, Finished) <==> At(s, r, Finished)
      {
      }
    }
  }

  predicate Runnable(s: State, steps: seq<Step>)
    decreases |steps|
  {
    steps == [] || (Enabled(s, steps[0]) && Runnable(Act(s, steps[0]), steps[1..]))
  }

  function Execute(s: State, steps: seq<Step>): State
    requires Runnable(s, steps)
    decreases |steps|
  {
    if steps == [] then s else Execute(Act(s, steps[0]), steps[1..])
  }

  lemma {:induction false} ExecuteKeepsInv(s: State, steps: seq<Step>)
    requires Inv(s) && Runnable(s, steps)
    ensures Inv(Execute(s, steps))
    decreases |steps|
  {
    hide PoolInv, WaitInv, ReleaseInv, Act, Enabled;
    if steps != [] {
      StepPool(s, steps[0]);
      StepWaits(s, steps[0]);
      StepReleases(s, steps[0]);
      ExecuteKeepsInv(Act(s, steps[0]), steps[1..]);
    }
  }

  lemma {:induction false} ExecuteKeepsMax(s: State, steps: seq<Step>)
    requires Runnable(s, steps)
    ensures Execute(s, steps).pool.max == s.pool.max
    decreases |steps|
  {
    if steps != [] {
      ExecuteKeepsMax(Act(s, steps[0]), steps[1..]);
    }
  }

  lemma CountedHold(s: State)
    ensures |CountedRuns(s)| <= |Holders(s)|
  {
    SubsetSize(CountedRuns(s), Holders(s));
  }

  /** Under every interleaving: no more runs are counted than slots are held, no
      more slots than allowed, the idle channel is closed exactly when nothing is
      counted and never twice, every finished run released its slot exactly once,
      and a waiter that returned saw the counter at zero during its call. */
  lemma SlotSafety(max: nat, steps: seq<Step>)
    requires Runnable(Initial(max), steps)
    ensures var s := Execute(Initial(max), steps);
            && 0 <= s.pool.active <= s.pool.slots <= max
            && s.pool.slots == |Holders(s)| && s.pool.active == |CountedRuns(s)|
            && (s.pool.idle in s.pool.closed <==> s.pool.active == 0)
            && !s.pool.closedTwice
            && (forall r :: At(s, r, Finished) <==> r in s.released)
            && (forall i, j :: 0 <= i < j < |s.released| ==> s.released[i] != s.released[j])
            && (forall w :: w in s.waits && s.waits[w].WentIdle? ==> s.waits[w].sawZero)
  {
    hide Act, Enabled, CountedRuns, Holders;
    var s0 := Initial(max);
    assert CountedRuns(s0) == {} && Holders(s0) == {} by { NobodyYet(max); }
    assert Inv(s0);
    ExecuteKeepsInv(s0, steps);
    ExecuteKeepsMax(s0, steps);
    CountedHold(Execute(s0, steps));
  }

  /** A waiter can wake exactly when the counter has been zero since it began to wait:
      no moment of idleness is missed, whatever runs have come and gone since. */
  lemma WaitersWake(max: nat, steps: seq<Step>, w: nat)
    requires Runnable(Initial(max), steps) && IsWaiting(Execute(Initial(max), steps), w)
    ensures var s := Execute(Initial(max), steps);
            && (Enabled(s, WakeUp(w)) <==> s.waits[w].sawZero)
            && (s.pool.active == 0 ==> Enabled(s, WakeUp(w)))
  {
    hide Act, CountedRuns, Holders;
    var s0 := Initial(max);
    assert CountedRuns(s0) == {} && Holders(s0) == {} by { NobodyYet(max); }
    assert Inv(s0);
    ExecuteKeepsInv(s0, steps);
  }

  /** A run is refused exactly when every slot is held by another. */
  lemma RefusedOnlyWhenFull(max: nat, steps: seq<Step>, r: nat)
    requires Runnable(Initial(max), steps) && At(Execute(Initial(max), steps), r, Arrived)
    ensures var s := Execute(Initial(max), steps);
            && Enabled(s, Try(r)) && r in Act(s, Try(r)).runs
            && Act(s, Try(r)).runs[r] == if |Holders(s)| < max then Admitted else Phase.Refused
  {
    hide Holders;
    SlotSafety(max, steps);
    ExecuteKeepsMax(Initial(max), steps);
  }

  lemma NobodyYet(max: nat)
    ensures CountedRuns(Initial(max)) == {} && Holders(Initial(max)) == {}
  {
  }

  /** The step an admitted run takes next. */
  function Next(r: nat, phase: Phase): Step
    requires phase in {Admitted, Counted, Late, Releasing, Uncounted}
  {
    match phase
    case Admitted => Count(r)
    case Counted => End(r, false)
    case Late => CleanedUp(r)
    case Releasing => Uncount(r)
    case Uncounted => Free(r)
  }

  /** How many steps an admitted run still has to take. */
  function StepsLeft(phase: Phase): nat {
    match phase
    case Admitted => 4
    case Counted => 3
    case Late => 3
    case Releasing => 2
    case Uncounted => 1
    case _ => 0
  }

  /** No admitted run is ever stuck: its next step is enabled and brings it nearer
      to having released its slot. */
  lemma AdmittedRunsProgress(max: nat, steps: seq<Step>, r: nat)
    requires Runnable(Initial(max), steps) && r in Holders(Execute(Initial(max), steps))
    ensures var s := Execute(Initial(max), steps);
            var next := Next(r, s.runs[r]);
            && Enabled(s, next)
            && r in Act(s, next).runs && StepsLeft(Act(s, next).runs[r]) < StepsLeft(s.runs[r])
            && (StepsLeft(Act(s, next).runs[r]) == 0 ==> At(Act(s, next), r, Finished))
  {
    SlotSafety(max, steps);
    var s := Execute(Initial(max), steps);
    assert s.pool.slots > 0 by {
      assert Holders(s) != {};
    }
  }
}
