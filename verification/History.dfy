/** Whole runs: the events a store goes through, what holds in every state it can
    reach, and the guarantees that need the whole history. */
module History {
  import opened Basics
  import opened Records
  import opened Storage
  import opened Decisions
  import opened Invariant
  import opened Preservation
  import opened Dispatching
  import opened Shrinking
  import opened Collecting
  import Retention

  /** A callback is the list of decisions it goes on to issue; `commits` is false
      when it returns an error of its own or its context is cancelled. */
  datatype Event =
    | Write(now: Time, decisions: seq<Decision>, commits: bool)
    | Process(now: Time, env: Envelope, decisions: seq<Decision>, commits: bool)
    | Gc(options: Retention.GCOptions, commits: bool)

  /** `ProcessMessage`: deduplication and the callback commit together, and a
      duplicate skips the callback. */
  function ProcessMessage(d: Data, now: Time, env: Envelope, cs: seq<Decision>): Result<(Data, bool)> {
    var (d1, duplicate) :- RegisterMessage(d, now, env);
    if duplicate then Ok((d1, true))
    else
      var d2 :- DecideAll(d1, now, cs);
      Ok((d2, false))
  }

  /** A list of one decision is that decision. */
  lemma OneDecision(d: Data, now: Time, cs: seq<Decision>)
    requires |cs| == 1
    ensures DecideAll(d, now, cs) == Decide(d, now, cs[0])
  {
    hide Decide;
    if Decide(d, now, cs[0]).Ok? {
      assert cs[1..] == [];
    }
  }

  /** A list of two decisions is one after the other. */
  lemma BothDecided(d: Data, now: Time, cs: seq<Decision>)
    requires |cs| == 2
    ensures DecideAll(d, now, cs) == (match Decide(d, now, cs[0])
                                      case Err(e) => Err(e)
                                      case Ok(d1) => Decide(d1, now, cs[1]))
  {
    hide Decide;
    if Decide(d, now, cs[0]).Ok? {
      OneDecision(Decide(d, now, cs[0]).value, now, cs[1..]);
    }
  }

  ghost function Attempted(d: Data, e: Event): Result<Data> {
    match e
    case Write(now, cs, _) => DecideAll(d, now, cs)
    case Process(now, env, cs, _) => Decisions.First(ProcessMessage(d, now, env, cs))
    case Gc(o, _) => Decisions.First(Retention.Collect(d, o))
  }

  /** The state after an event: everything it decided, or nothing. */
  ghost function Step(d: Data, e: Event): Data {
    if e.commits && Attempted(d, e).Ok? then Attempted(d, e).value else d
  }

  ghost function Run(d: Data, events: seq<Event>): Data
    decreases |events|
  {
    if events == [] then d else Run(Step(d, events[0]), events[1..])
  }

  // ---- the invariant in every reachable state -------------------------------

  lemma ProcessKeeps(d: Data, now: Time, env: Envelope, cs: seq<Decision>)
    requires Inv(d) && ProcessMessage(d, now, env, cs).Ok?
    ensures Keeps(d, ProcessMessage(d, now, env, cs).value.0)
  {
    hide Inv, RegisterMessage, DecideAll, Keeps;
    var (d1, duplicate) := RegisterMessage(d, now, env).value;
    RegisterMessageKeeps(d, now, env);
    KeepsInv(d, d1);
    if !duplicate {
      DecisionsKeep(d1, now, cs);
      KeepsTransitive(d, d1, DecideAll(d1, now, cs).value);
    }
  }

  lemma StepKeepsInv(d: Data, e: Event)
    requires Inv(d)
    ensures Inv(Step(d, e))
  {
    hide Inv, RegisterMessage, DecideAll, ProcessMessage, Keeps, Retention.Collect, Shrunk, Rows;
    if Attempted(d, e).Ok? {
      match e
      case Write(now, cs, _) =>
        DecisionsKeep(d, now, cs);
        KeepsInv(d, DecideAll(d, now, cs).value);
      case Process(now, env, cs, _) =>
        ProcessKeeps(d, now, env, cs);
        KeepsInv(d, ProcessMessage(d, now, env, cs).value.0);
      case Gc(o, _) =>
        LegalIfOk(d, o);
        CollectAccounts(d, o);
    }
  }

  lemma LegalIfOk(d: Data, o: Retention.GCOptions)
    requires Retention.Collect(d, o).Ok?
    ensures Retention.LegalBudget(o)
  {
  }

  /** Every state a run reaches satisfies the invariant. */
  lemma {:induction false} RunKeepsInv(d: Data, events: seq<Event>)
    requires Inv(d)
    ensures Inv(Run(d, events))
    decreases |events|
  {
    hide Inv, Step;
    if events != [] {
      StepKeepsInv(d, events[0]);
      RunKeepsInv(Step(d, events[0]), events[1..]);
    }
  }

  // ---- at most once ---------------------------------------------------------

  /** What identifies a message for replay: its identifier and the second it was
      issued in. */
  datatype Key = Key(id: Id, second: int)

  function KeyOf(env: Envelope): Key {
    Key(env.messageId, Unix(env.issuedAt))
  }

  /** The keys a list of decisions accepts as new. */
  function AcceptedBy(d: Data, now: Time, cs: seq<Decision>): seq<Key>
    requires DecideAll(d, now, cs).Ok?
    decreases |cs|
  {
    if cs == [] then []
    else
      var rest := AcceptedBy(Decide(d, now, cs[0]).value, now, cs[1..]);
      if cs[0].DoRegisterMessage? && !RegisterMessage(d, now, cs[0].env).value.1 then [KeyOf(cs[0].env)] + rest else rest
  }

  /** The keys an event accepts as new and commits. */
  ghost function Accepted(d: Data, e: Event): seq<Key> {
    if !e.commits || Attempted(d, e).Err? then []
    else
      match e
      case Write(now, cs, _) => AcceptedBy(d, now, cs)
      case Process(now, env, cs, _) =>
        var (d1, duplicate) := RegisterMessage(d, now, env).value;
        if duplicate then [] else [KeyOf(env)] + AcceptedBy(d1, now, cs)
      case Gc(_, _) => []
  }

  ghost function Log(d: Data, events: seq<Event>): seq<Key>
    decreases |events|
  {
    if events == [] then [] else Accepted(d, events[0]) + Log(Step(d, events[0]), events[1..])
  }

  /** An accepted key is still stored, or lies below the persisted floor. */
  predicate Remembered(d: Data, k: Key) {
    (k.id in d.messages && Unix(d.messages[k.id].issuedAt) == k.second) || k.second < d.messageFloor
  }

  ghost predicate Covered(d: Data, keys: seq<Key>) {
    forall k :: k in keys ==> Remembered(d, k)
  }

  ghost predicate NoRepeat(keys: seq<Key>) {
    forall i, j :: 0 <= i < j < |keys| ==> keys[i] != keys[j]
  }

  lemma CoveredGrows(d: Data, d': Data, keys: seq<Key>)
    requires Covered(d, keys) && Grows(d.messages, d'.messages) && d'.messageFloor >= d.messageFloor
    ensures Covered(d', keys)
  {
    forall k | k in keys
      ensures Remembered(d', k)
    {
      assert Remembered(d, k);
    }
  }

  /** A message is accepted as new only if its key was never accepted before. */
  lemma AcceptedIsNew(d: Data, now: Time, env: Envelope, keys: seq<Key>)
    requires Covered(d, keys) && NoRepeat(keys)
    requires RegisterMessage(d, now, env).Ok? && !RegisterMessage(d, now, env).value.1
    ensures var d' := RegisterMessage(d, now, env).value.0;
            && Covered(d', keys + [KeyOf(env)]) && NoRepeat(keys + [KeyOf(env)])
  {
    hide ValidEnvelope;
    var d' := RegisterMessage(d, now, env).value.0;
    CoveredGrows(d, d', keys);
    assert !Remembered(d, KeyOf(env));
    assert Remembered(d', KeyOf(env));
  }

  lemma {:induction false} AcceptedByIsNew(d: Data, now: Time, cs: seq<Decision>, keys: seq<Key>)
    requires Inv(d) && Covered(d, keys) && NoRepeat(keys) && DecideAll(d, now, cs).Ok?
    ensures Covered(DecideAll(d, now, cs).value, keys + AcceptedBy(d, now, cs))
    ensures NoRepeat(keys + AcceptedBy(d, now, cs))
    decreases |cs|
  {
    hide Inv, RegisterMessage, Keeps, Covered, NoRepeat;
    if cs == [] {
      assert keys + [] == keys;
    } else {
      var d1 := Decide(d, now, cs[0]).value;
      DecisionKeeps(d, now, cs[0]);
      KeepsInv(d, d1);
      var rest := AcceptedBy(d1, now, cs[1..]);
      if cs[0].DoRegisterMessage? && !RegisterMessage(d, now, cs[0].env).value.1 {
        var k := KeyOf(cs[0].env);
        AcceptedIsNew(d, now, cs[0].env, keys);
        AcceptedByIsNew(d1, now, cs[1..], keys + [k]);
        assert (keys + [k]) + rest == keys + ([k] + rest);
      } else {
        KeepsMessages(d, d1);
        CoveredGrows(d, d1, keys);
        AcceptedByIsNew(d1, now, cs[1..], keys);
      }
    }
  }

  lemma KeepsMessages(d: Data, d': Data)
    requires Keeps(d, d')
    ensures Grows(d.messages, d'.messages) && d'.messageFloor == d.messageFloor
  {
    hide Inv, AttemptsAge, ActivesAge, OutcomesStay, ClosedTasksStay, OperationsEvolve, AttemptsEvolve;
  }

  /** Collection forgets only messages issued below the floor it persists. */
  lemma CollectCovers(d: Data, o: Retention.GCOptions, keys: seq<Key>)
    requires Inv(d) && Covered(d, keys) && Retention.LegalBudget(o)
    ensures Retention.Collect(d, o).Ok? && Covered(Retention.Collect(d, o).value.0, keys)
  {
    hide Inv, Rows, Retention.Collect, WholeGraphs, Fair, Orphan;
    CollectAccounts(d, o);
    CollectSpares(d, o);
    var d' := Retention.Collect(d, o).value.0;
    forall k | k in keys
      ensures Remembered(d', k)
    {
      assert Remembered(d, k);
      if k.id in d.messages && k.id in d'.messages {
        assert d'.messages[k.id] == d.messages[k.id];
      }
    }
  }

  lemma EventAcceptsNew(d: Data, e: Event, keys: seq<Key>)
    requires Inv(d) && Covered(d, keys) && NoRepeat(keys)
    ensures Covered(Step(d, e), keys + Accepted(d, e)) && NoRepeat(keys + Accepted(d, e))
  {
    hide Inv, RegisterMessage, DecideAll, Retention.Collect, Covered, NoRepeat, AcceptedBy, Keeps;
    if !e.commits || Attempted(d, e).Err? {
      assert keys + [] == keys;
    } else {
      match e
      case Write(now, cs, _) => AcceptedByIsNew(d, now, cs, keys);
      case Process(now, env, cs, _) =>
        var (d1, duplicate) := RegisterMessage(d, now, env).value;
        RegisterMessageKeeps(d, now, env);
        KeepsInv(d, d1);
        if duplicate {
          KeepsMessages(d, d1);
          CoveredGrows(d, d1, keys);
          assert keys + [] == keys;
        } else {
          AcceptedIsNew(d, now, env, keys);
          AcceptedByIsNew(d1, now, cs, keys + [KeyOf(env)]);
          assert (keys + [KeyOf(env)]) + AcceptedBy(d1, now, cs) == keys + ([KeyOf(env)] + AcceptedBy(d1, now, cs));
        }
      case Gc(o, _) =>
        LegalIfOk(d, o);
        CollectCovers(d, o, keys);
        assert keys + [] == keys;
    }
  }

  lemma {:induction false} LogNeverRepeats(d: Data, events: seq<Event>, keys: seq<Key>)
    requires Inv(d) && Covered(d, keys) && NoRepeat(keys)
    ensures NoRepeat(keys + Log(d, events))
    decreases |events|
  {
    hide Inv, Step, Accepted, Covered, NoRepeat;
    if events == [] {
      assert keys + [] == keys;
    } else {
      var d1 := Step(d, events[0]);
      StepKeepsInv(d, events[0]);
      EventAcceptsNew(d, events[0], keys);
      LogNeverRepeats(d1, events[1..], keys + Accepted(d, events[0]));
      assert (keys + Accepted(d, events[0])) + Log(d1, events[1..]) == keys + Log(d, events);
    }
  }

  /** Over any run of deliveries, writes and collections under arbitrary clock
      readings, no message key is accepted twice. */
  lemma AtMostOnce(events: seq<Event>)
    ensures NoRepeat(Log(EMPTY, events))
  {
    hide Log;
    EmptyInv();
    LogNeverRepeats(EMPTY, events, []);
    assert [] + Log(EMPTY, events) == Log(EMPTY, events);
  }

  // ---- redelivery -----------------------------------------------------------

  /** An accepted envelope is still stored as it was, or lies below the floor. */
  predicate Settled(d: Data, env: Envelope) {
    (env.messageId in d.messages && d.messages[env.messageId].digest == V1(env)) || Unix(env.issuedAt) < d.messageFloor
  }

  lemma AcceptedSettles(d: Data, now: Time, env: Envelope)
    requires RegisterMessage(d, now, env).Ok? && !RegisterMessage(d, now, env).value.1
    ensures Settled(RegisterMessage(d, now, env).value.0, env)
  {
    hide ValidEnvelope, Acceptable;
  }

  lemma SettledGrows(d: Data, d': Data, env: Envelope)
    requires Settled(d, env) && Grows(d.messages, d'.messages) && d'.messageFloor >= d.messageFloor
    ensures Settled(d', env)
  {
  }

  lemma CollectSettles(d: Data, o: Retention.GCOptions, env: Envelope)
    requires Inv(d) && Settled(d, env) && Retention.LegalBudget(o)
    ensures Retention.Collect(d, o).Ok? && Settled(Retention.Collect(d, o).value.0, env)
  {
    hide TasksOk, OperationsOk, WorkOk, GraphInv, RecordInv, ReservationsSound, ReservationsComplete, Rows, Retention.Collect,
         WholeGraphs, Fair, Orphan;
    CollectAccounts(d, o);
    CollectSpares(d, o);
    if env.messageId in d.messages && d.messages[env.messageId].digest == V1(env) {
      assert MessageOk(env.messageId, d.messages[env.messageId]);
    }
  }

  lemma EventSettles(d: Data, e: Event, env: Envelope)
    requires Inv(d) && Settled(d, env)
    ensures Settled(Step(d, e), env)
  {
    hide Inv, Settled, ProcessMessage, DecideAll, Retention.Collect, Keeps;
    if e.commits && Attempted(d, e).Ok? {
      match e
      case Write(now, cs, _) =>
        DecisionsKeep(d, now, cs);
        KeepsMessages(d, DecideAll(d, now, cs).value);
        SettledGrows(d, DecideAll(d, now, cs).value, env);
      case Process(now, other, cs, _) =>
        ProcessKeeps(d, now, other, cs);
        KeepsMessages(d, ProcessMessage(d, now, other, cs).value.0);
        SettledGrows(d, ProcessMessage(d, now, other, cs).value.0, env);
      case Gc(o, _) =>
        LegalIfOk(d, o);
        CollectSettles(d, o, env);
    }
  }

  lemma {:induction false} RunSettles(d: Data, events: seq<Event>, env: Envelope)
    requires Inv(d) && Settled(d, env)
    ensures Settled(Run(d, events), env)
    decreases |events|
  {
    hide Inv, Settled, Step;
    if events != [] {
      StepKeepsInv(d, events[0]);
      EventSettles(d, events[0], env);
      RunSettles(Step(d, events[0]), events[1..], env);
    }
  }

  /** What a settled envelope meets when it is delivered again, and what a different
      one meets under the same identifier while the first is stored. */
  lemma SettledAnswers(d: Data, now: Time, env: Envelope, other: Envelope)
    requires Settled(d, env) && ValidEnvelope(env)
    ensures RegisterMessage(d, now, env) ==
            if Unix(env.issuedAt) >= Unix(now - REPLAY_WINDOW) && Unix(env.issuedAt) >= d.messageFloor
               && env.issuedAt <= now + CLOCK_SKEW
            then Ok((d, true)) else Err(ExpiredMessage)
    ensures env.messageId in d.messages && d.messages[env.messageId].digest == V1(env)
            && other.messageId == env.messageId && other != env ==>
              RegisterMessage(d, now, other) in {Err(InvalidEnvelope), Err(ExpiredMessage), Err(MessageIdCollision)}
    ensures env.messageId in d.messages && d.messages[env.messageId].digest == V1(env)
            && other.messageId == env.messageId && other != env && ValidEnvelope(other) && Acceptable(d, now, other) ==>
              RegisterMessage(d, now, other) == Err(MessageIdCollision)
  {
    hide ValidEnvelope;
  }

  lemma AcceptedValid(d: Data, now: Time, env: Envelope)
    requires RegisterMessage(d, now, env).Ok?
    ensures ValidEnvelope(env)
  {
    hide ValidEnvelope, Acceptable;
  }

  /** Once an envelope has been accepted and committed, delivering it again after any
      run is answered as a duplicate, without its callback and without any change,
      as long as it is inside the window; outside, it is refused as expired. */
  lemma RedeliveryIsDuplicate(d: Data, now: Time, env: Envelope, cs: seq<Decision>, events: seq<Event>, later: Time,
                              more: seq<Decision>)
    requires Inv(d) && ProcessMessage(d, now, env, cs).Ok? && !ProcessMessage(d, now, env, cs).value.1
    ensures var d' := Run(ProcessMessage(d, now, env, cs).value.0, events);
            ProcessMessage(d', later, env, more) ==
            if Unix(env.issuedAt) >= Unix(later - REPLAY_WINDOW) && Unix(env.issuedAt) >= d'.messageFloor
               && env.issuedAt <= later + CLOCK_SKEW
            then Ok((d', true)) else Err(ExpiredMessage)
  {
    hide Inv, Settled, RegisterMessage, DecideAll, Keeps, ValidEnvelope, Run;
    var d1 := RegisterMessage(d, now, env).value.0;
    var d2 := DecideAll(d1, now, cs).value;
    AcceptedValid(d, now, env);
    AcceptedSettles(d, now, env);
    RegisterMessageKeeps(d, now, env);
    KeepsInv(d, d1);
    DecisionsKeep(d1, now, cs);
    KeepsMessages(d1, d2);
    SettledGrows(d1, d2, env);
    KeepsInv(d1, d2);
    RunSettles(d2, events, env);
    SettledAnswers(Run(d2, events), later, env, env);
  }

  /** While an accepted envelope is stored, no other envelope gets through under its
      identifier, whatever its callback would do. */
  lemma ReuseIsCollision(d: Data, now: Time, env: Envelope, d': Data, later: Time, other: Envelope, cs: seq<Decision>)
    requires RegisterMessage(d, now, env).Ok? && !RegisterMessage(d, now, env).value.1
    requires Grows(RegisterMessage(d, now, env).value.0.messages, d'.messages)
    requires other.messageId == env.messageId && other != env
    ensures ProcessMessage(d', later, other, cs).Err?
    ensures ValidEnvelope(other) && Acceptable(d', later, other) ==>
              ProcessMessage(d', later, other, cs) == Err(MessageIdCollision)
  {
    hide DecideAll, ValidEnvelope, Acceptable;
  }

  /** A new message is accepted exactly when it is valid, inside its window, unknown,
      about the work it names, and its task is still open. */
  lemma AcceptedExactly(d: Data, now: Time, env: Envelope)
    ensures (RegisterMessage(d, now, env).Ok? && !RegisterMessage(d, now, env).value.1) <==>
            && ValidEnvelope(env)
            && Unix(env.issuedAt) >= Unix(now - 7 * DAY) && Unix(env.issuedAt) >= d.messageFloor
            && env.issuedAt <= now + 300 * SECOND
            && env.messageId !in d.messages
            && (env.operationId in d.ops && env.operationId != "" ==> d.ops[env.operationId].descriptor.taskId == env.taskId)
            && (env.attemptId in d.attempts && env.attemptId != "" ==> d.attempts[env.attemptId].operationId == env.operationId)
            && (env.taskId in d.tasks ==> !Terminal(d.tasks[env.taskId].state))
  {
    hide ValidEnvelope;
  }

  /** An accepted message stays stored through any collection whose clock has not
      passed the replay window of the acceptance. */
  lemma WindowIsKept(d: Data, now: Time, env: Envelope, d': Data, o: Retention.GCOptions)
    requires RegisterMessage(d, now, env).Ok? && !RegisterMessage(d, now, env).value.1
    requires Inv(d') && Retention.LegalBudget(o) && Grows(RegisterMessage(d, now, env).value.0.messages, d'.messages)
    requires Unix(o.now) <= Unix(now + REPLAY_WINDOW)
    ensures Retention.Collect(d', o).Ok? && env.messageId in Retention.Collect(d', o).value.0.messages
  {
    hide Inv, Rows, Retention.Collect, WholeGraphs, Fair, Orphan, ValidEnvelope, Acceptable;
    CollectAccounts(d', o);
    CollectSpares(d', o);
  }
}
