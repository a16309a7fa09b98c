/** The repository with its copy-on-write commit, and the store operations that
    run on it: writes, message processing, collection and recovery inspection. */
module Store {
  import opened Basics
  import opened Records
  import opened Storage
  import opened Decisions
  import opened Invariant
  import opened Memory
  import opened Core
  import opened Retention
  import opened Collecting
  import Collector
  import History
  import Recovery

  class Repository {
    var d: Data
    var closed: bool

    constructor ()
      ensures d == EMPTY && !closed
    {
      d := EMPTY;
      closed := false;
    }

    method Close()
      modifies this
      ensures closed && d == old(d)
    {
      closed := true;
    }

    /** The first half of `run`: a transaction on a private copy. */
    method Begin(write: bool, cancelled: bool) returns (r: Result<Tx>)
      ensures cancelled ==> r == Err(Cancelled)
      ensures !cancelled && closed ==> r == Err(Closed)
      ensures !cancelled && !closed ==> r.Ok? && fresh(r.value) && r.value.d == d && r.value.write == write
    {
      if cancelled {
        return Err(Cancelled);
      }
      if closed {
        return Err(Closed);
      }
      var tx := new Tx(d, write);
      return Ok(tx);
    }

    /** The second half: the copy replaces the store only after a successful write
        callback whose context is still alive. */
    method Finish(tx: Tx, result: Outcome, cancelled: bool) returns (r: Outcome)
      modifies this
      ensures result.Fail? ==> r == result
      ensures result.Pass? && cancelled ==> r == Fail(Cancelled)
      ensures result.Pass? && !cancelled ==> r == Pass
      ensures d == if r == Pass && tx.write then tx.d else old(d)
      ensures closed == old(closed)
    {
      if result.Fail? {
        return result;
      }
      if cancelled {
        return Fail(Cancelled);
      }
      if tx.write {
        d := tx.d;
      }
      return Pass;
    }

    /** `writeValue`: the callback issues its decisions, may ignore their errors,
        and may fail on its own. All of them are committed, or none. */
    method WriteValue(now: Time, decisions: seq<Decision>, callback: Outcome, cancelled: bool, lateCancel: bool)
      returns (r: Outcome)
      modifies this
      ensures cancelled ==> r == Fail(Cancelled)
      ensures !cancelled && old(closed) ==> r == Fail(Closed)
      ensures !cancelled && !old(closed) ==>
                (r == Pass <==> DecideAll(old(d), now, decisions).Ok? && callback == Pass && !lateCancel)
      ensures closed == old(closed)
      ensures d == if r == Pass then DecideAll(old(d), now, decisions).value else old(d)
      ensures d == History.Step(old(d), History.Write(now, decisions, !cancelled && !old(closed) && callback == Pass && !lateCancel))
    {
      var b := Begin(true, cancelled);
      if b.Err? {
        return Fail(b.error);
      }
      var tx := b.value;
      var t := new Transaction(tx, now);
      var o := RunDecisions(t, decisions);
      var result := callback;
      if result == Pass && t.failed.Some? {
        result := Fail(t.failed.value);
      }
      r := Finish(tx, result, lateCancel);
    }

    /** A callback that goes on after errors: the poison flag ends up set exactly
        when the composition of its decisions fails. */
    method RunDecisions(t: Transaction, decisions: seq<Decision>) returns (last: Outcome)
      requires t.tx.write && t.failed == None
      modifies t, t.tx
      ensures match DecideAll(old(t.tx.d), t.now, decisions)
              case Ok(d') => t.failed == None && t.tx.d == d'
              case Err(e) => t.failed == Some(e)
    {
      hide Decide;
      last := Pass;
      for i := 0 to |decisions|
        invariant t.failed == None ==>
                    DecideAll(t.tx.d, t.now, decisions[i..]) == DecideAll(old(t.tx.d), t.now, decisions)
        invariant t.failed.Some? ==> DecideAll(old(t.tx.d), t.now, decisions) == Err(t.failed.value)
      {
        assert decisions[i..] == [decisions[i]] + decisions[i + 1..];
        last := t.Perform(decisions[i]);
      }
    }

    /** `ProcessMessage`: registration and callback in one transaction; a duplicate
        skips the callback. */
    method ProcessMessage(now: Time, env: Envelope, decisions: seq<Decision>, callback: Outcome, cancelled: bool, lateCancel: bool)
      returns (r: Result<bool>)
      requires !closed
      modifies this
      ensures cancelled ==> r == Err(Cancelled)
      ensures r.Ok? <==> !cancelled && !lateCancel && RegisterMessage(old(d), now, env).Ok? &&
                         (RegisterMessage(old(d), now, env).value.1
                          || (callback == Pass && History.ProcessMessage(old(d), now, env, decisions).Ok?))
      ensures r.Ok? ==> (d, r.value) == History.ProcessMessage(old(d), now, env, decisions).value
      ensures r.Err? ==> d == old(d)
      ensures !closed
    {
      hide RegisterMessage;
      var b := Begin(true, cancelled);
      if b.Err? {
        return Err(b.error);
      }
      var tx := b.value;
      var t := new Transaction(tx, now);
      var duplicate := t.RegisterMessage(env);
      if duplicate.Err? {
        var o := Finish(tx, Fail(duplicate.error), lateCancel);
        return Err(duplicate.error);
      }
      if duplicate.value {
        var o := Finish(tx, Pass, lateCancel);
        DuplicateChangesNothing(old(d), now, env);
        return if lateCancel then Err(Cancelled) else Ok(true);
      }
      var last := RunDecisions(t, decisions);
      var result := callback;
      if result == Pass && t.failed.Some? {
        result := Fail(t.failed.value);
      }
      var o := Finish(tx, result, lateCancel);
      if o.Fail? {
        return Err(o.error);
      }
      return Ok(false);
    }

    /** A read transaction: whatever its callback writes, the store stays as it is. */
    method View(writes: seq<TxWrite>, callback: Outcome, lateCancel: bool) returns (r: Outcome)
      modifies this
      ensures d == old(d) && closed == old(closed)
      ensures !closed && callback == Pass && !lateCancel ==> r == Pass
    {
      var b := Begin(false, false);
      if b.Err? {
        return Fail(b.error);
      }
      var tx := b.value;
      RefuseWrites(tx, writes);
      r := Finish(tx, callback, lateCancel);
    }

    // ---- collection and inspection ------------------------------------------

    method Collect(o: GCOptions, lateCancel: bool) returns (r: Result<GCResult>)
      requires !closed
      modifies this
      ensures r.Ok? <==> Retention.Collect(old(d), o).Ok? && !lateCancel
      ensures r.Ok? ==> (d, r.value) == Retention.Collect(old(d), o).value
      ensures r.Err? ==> d == old(d)
      ensures d == History.Step(old(d), History.Gc(o, !lateCancel))
    {
      hide Retention.Collect;
      var b := Begin(true, false);
      var tx := b.value;
      r := Collector.CollectIn(tx, o);
      var f := Finish(tx, if r.Ok? then Pass else Fail(r.error), lateCancel);
      if f.Fail? {
        return Err(f.error);
      }
    }

    method InspectRecovery(after: Id, limit: int) returns (r: Result<Recovery.RecoveryPage>)
      requires !closed
      modifies this
      ensures d == old(d) && r == Recovery.InspectRecovery(d, after, limit)
    {
      hide Recovery.InspectRecovery;
      var b := Begin(false, false);
      r := Recovery.InspectPage(b.value, after, limit);
      var f := Finish(b.value, if r.Ok? then Pass else Fail(r.error), false);
    }
  }

  /** The write primitives of a transaction, as a callback may call them. */
  datatype TxWrite =
    | PutTask(task: Task)
    | PutOperation(op: Operation)
    | SwapOperation(op: Operation, expected: nat)
    | PutAttempt(attempt: Attempt)
    | SetAttempt(attempt: Attempt)
    | PutEvidence(record: Evidence)
    | PutVerification(v: Verification)
    | PutRevocation(revocation: Revocation)
    | PutMessage(message: Message)
    | TakeScope(reservation: Reservation)
    | FreeScopes(id: Id)
    | SwapTask(task: Task, revision: nat)
    | DropGraph(id: Id)
    | DropMessages(ids: seq<Id>)
    | DropTask(id: Id)
    | RaiseFloor(floor: int)

  method Write(tx: Tx, w: TxWrite) returns (r: Outcome)
    modifies tx
    ensures !tx.write ==> r.Fail? && tx.d == old(tx.d)
  {
    match w {
      case PutTask(task) => r := tx.InsertTask(task);
      case PutOperation(op) => r := tx.InsertOperation(op);
      case SwapOperation(op, expected) => r := tx.UpdateOperation(op, expected);
      case PutAttempt(attempt) => r := tx.InsertAttempt(attempt);
      case SetAttempt(attempt) => r := tx.UpdateAttempt(attempt);
      case PutEvidence(record) => r := tx.InsertEvidence(record);
      case PutVerification(v) => r := tx.InsertVerification(v);
      case PutRevocation(revocation) => r := tx.InsertRevocation(revocation);
      case PutMessage(message) => r := tx.InsertMessage(message);
      case TakeScope(reservation) => r := tx.Reserve(reservation);
      case FreeScopes(id) => r := tx.Release(id);
      case SwapTask(task, revision) => r := tx.UpdateTask(task, revision);
      case DropGraph(id) => r := tx.DeleteOperationGraph(id);
      case DropMessages(ids) => r := tx.DeleteMessages(ids);
      case DropTask(id) => r := tx.DeleteTask(id);
      case RaiseFloor(floor) => r := tx.SetMessageFloor(floor);
    }
  }

  /** Through a read transaction every write fails and even the copy is untouched. */
  method RefuseWrites(tx: Tx, writes: seq<TxWrite>)
    requires !tx.write
    modifies tx
    ensures tx.d == old(tx.d)
  {
    for i := 0 to |writes|
      invariant tx.d == old(tx.d)
    {
      var r := Write(tx, writes[i]);
      assert r.Fail?;
    }
  }

  lemma DuplicateChangesNothing(d: Data, now: Time, env: Envelope)
    requires RegisterMessage(d, now, env).Ok? && RegisterMessage(d, now, env).value.1
    ensures RegisterMessage(d, now, env).value.0 == d
  {
    hide ValidEnvelope;
  }
}
