/** The operation state machine: pure functions from one operation value to the
    next. */
module Machine {
  import opened Basics
  import opened Records

  function Allowed(from: OperationState): set<OperationState> {
    match from
    case Planned => {Ready, OperationCancelled}
    case Ready => {Executing, OperationCancelled}
    case Executing => {Verifying, Ready, UnknownOutcome}
    case Verifying => {Succeeded, Ready, Failed, UnknownOutcome}
    case UnknownOutcome => {Verifying}
    case Succeeded => {}
    case Failed => {}
    case OperationCancelled => {}
  }

  function Transition(op: Operation, expected: nat, to: OperationState, now: Time): (r: Result<Operation>)
    ensures r.Ok? ==>
      && op.revision == expected && 1 <= op.revision < MAX_INT64
      && to in Allowed(op.state)
      && r.value.descriptor == op.descriptor && r.value.generation == op.generation
      && (r.value.active == op.active || (!InFlight(to) && r.value.active == ""))
  {
    if op.revision != expected then Err(RevisionConflict)
    else if op.revision == 0 || op.revision >= MAX_INT64 then Err(Invalid)
    else if now == ZERO_TIME then Err(Invalid)
    else if to !in Allowed(op.state) then Err(InvalidTransition)
    else
      var active := if to in {Ready, Succeeded, Failed, OperationCancelled} then "" else op.active;
      Ok(op.(state := to, revision := op.revision + 1, updatedAt := now, active := active))
  }

  function StartAttempt(op: Operation, expected: nat, attemptId: Id, now: Time): Result<(Operation, Attempt)> {
    if attemptId == "" then Err(Invalid)
    else
      var next :- Transition(op, expected, Executing, now);
      if next.generation >= MAX_INT64 then Err(Invalid)
      else
        var started := next.(generation := next.generation + 1, active := attemptId);
        var attempt := Attempt(attemptId, op.descriptor.id, "", started.generation, "", "", Running, now, now);
        Ok((started, attempt))
  }

  /** Withdraws authority without implying that the executor stopped; an already
      unknown operation still advances its revision. */
  function LoseExecutionCertainty(op: Operation, expected: nat, now: Time): Result<Operation> {
    if op.state != UnknownOutcome then Transition(op, expected, UnknownOutcome, now)
    else if op.revision != expected then Err(RevisionConflict)
    else if now == ZERO_TIME || op.revision == 0 || op.revision >= MAX_INT64 then Err(Invalid)
    else Ok(op.(revision := op.revision + 1, updatedAt := now))
  }
}
