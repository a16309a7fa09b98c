/** The collector as it runs: counters updated in place, deletions through one
    write transaction. Each method is proved against Retention. */
module Collector {
  import opened Basics
  import opened Records
  import opened Storage
  import opened Memory
  import opened Retention

  /** The zeros of a summary, which is all the collector looks at. */
  lemma SummaryZeros(d: Data, task: Id, s: TaskSummary)
    requires IsSummary(d, task, s)
    ensures s.pending > 0 <==> HasPending(d, task)
    ensures s.operations > 0 <==> OperationsOf(d, task) != {}
  {
    hide HasPending, OperationsOf;
  }

  class Batch {
    const tx: Tx
    const o: GCOptions
    const floor: int
    var remaining: nat
    var out: GCResult
    var deferred: bool

    constructor (tx: Tx, o: GCOptions)
      requires tx.write && LegalBudget(o)
      modifies tx
      ensures this.tx == tx && this.o == o && floor == Floor(old(tx.d), o)
      ensures Now(false) == Opening(old(tx.d), o)
    {
      this.tx := tx;
      this.o := o;
      var floor := tx.d.messageFloor;
      if Unix(o.now - REPLAY_WINDOW) > floor {
        floor := Unix(o.now - REPLAY_WINDOW);
      }
      this.floor := floor;
      remaining := o.maxRows;
      out := GCResult(0, 0, 0, 0, 0, 0, o.after, false);
      deferred := false;
      new;
      var r := tx.SetMessageFloor(floor);
    }

    /** The batch as the specification sees it. */
    function Now(stopped: bool): Sweep
      reads this, tx
    {
      Sweep(tx.d, out, remaining, deferred, stopped)
    }

    ghost predicate Ready()
    {
      tx.write && LegalBudget(o)
    }

    method PruneMessages(task: Id, orphan: bool) returns (r: Outcome)
      requires Ready()
      modifies this, tx
      ensures match Prune(old(Now(false)), task, orphan, Unix(o.now), floor)
              case Ok(s) => r == Pass && Now(false) == s
              case Err(e) => r == Fail(e)
    {
      var ids := tx.ExpiredMessages(task, orphan, Unix(o.now), floor, remaining);
      if ids.Err? {
        return Fail(ids.error);
      }
      r := tx.DeleteMessages(ids.value);
      remaining := remaining - |ids.value|;
      out := out.(messages := out.messages + |ids.value|, rows := out.rows + |ids.value|);
    }

    /** The inner loop over the operations of one task. */
    method VisitOperations(ids: seq<Id>) returns (r: Result<bool>)
      requires Ready()
      modifies this, tx
      ensures match SweepOperations(old(Now(false)), o.maxRows, ids)
              case Ok(s) => r.Ok? && Now(r.value) == s
              case Err(e) => r == Err(e)
    {
      hide GraphRows, Storage.DeleteOperationGraph;
      for i := 0 to |ids|
        invariant SweepOperations(Now(false), o.maxRows, ids[i..]) == SweepOperations(old(Now(false)), o.maxRows, ids)
      {
        assert ids[i..] == [ids[i]] + ids[i + 1..];
        var n := tx.OperationRows(ids[i], o.maxRows + 1);
        if n.Err? {
          return Err(n.error);
        }
        if n.value > o.maxRows {
          out := out.(oversized := out.oversized + 1);
          deferred := true;
        } else if n.value > remaining {
          out := out.(more := true);
          return Ok(true);
        } else {
          var e := tx.DeleteOperationGraph(ids[i]);
          if e.Fail? {
            return Err(e.error);
          }
          remaining := remaining - n.value;
          out := out.(rows := out.rows + n.value, operations := out.operations + 1);
        }
      }
      return Ok(false);
    }

    /** One round of the outer loop; the result says whether the batch ends. */
    method VisitTask(task: Id) returns (r: Result<bool>)
      requires Ready()
      modifies this, tx
      ensures match SweepTask(old(Now(false)), o, floor, task)
              case Ok(s) => r.Ok? && Now(r.value) == s
              case Err(e) => r == Err(e)
    {
      hide SweepOperations, Prune, HasPending, MessagesSafe, HasMessages, Sorted, InState, Storage.DeleteTask, IsSummary, OperationsOf;
      var summary := tx.TaskSummary(task);
      SummaryZeros(tx.d, task, summary);
      var safe := tx.TaskMessagesSafe(task, Unix(o.now), floor);
      if summary.pending != 0 || !safe {
        out := out.(deferred := out.deferred + 1, next := task);
        return Ok(false);
      }
      var ids := tx.TaskOperations(task, o.maxRows);
      deferred := false;
      var swept := VisitOperations(ids.value);
      if swept.Err? || swept.value {
        return swept;
      }
      var left := tx.TaskSummary(task);
      SummaryZeros(tx.d, task, left);
      if left.operations > 0 {
        if deferred {
          out := out.(deferred := out.deferred + 1, next := task);
          return Ok(false);
        }
        out := out.(more := true);
        return Ok(true);
      }
      if remaining == 0 {
        out := out.(more := true);
        return Ok(true);
      }
      var e := PruneMessages(task, false);
      if e.Fail? {
        return Err(e.error);
      }
      var has := tx.TaskHasMessages(task);
      if has || remaining == 0 {
        out := out.(more := true);
        return Ok(true);
      }
      e := tx.DeleteTask(task);
      if e.Fail? {
        return Err(e.error);
      }
      remaining := remaining - 1;
      out := out.(rows := out.rows + 1, tasks := out.tasks + 1, next := task);
      if remaining == 0 {
        out := out.(more := true);
        return Ok(true);
      }
      return Ok(false);
    }

    method VisitTasks(tasks: seq<Id>) returns (r: Result<bool>)
      requires Ready()
      modifies this, tx
      ensures match SweepTasks(old(Now(false)), o, floor, tasks)
              case Ok(s) => r.Ok? && Now(r.value) == s
              case Err(e) => r == Err(e)
    {
      hide SweepTask;
      for i := 0 to |tasks|
        invariant SweepTasks(Now(false), o, floor, tasks[i..]) == SweepTasks(old(Now(false)), o, floor, tasks)
      {
        assert tasks[i..] == [tasks[i]] + tasks[i + 1..];
        var stopped := VisitTask(tasks[i]);
        if stopped.Err? || stopped.value {
          return stopped;
        }
      }
      return Ok(false);
    }
  }

  /** One batch inside a write transaction. */
  method CollectIn(tx: Tx, o: GCOptions) returns (r: Result<GCResult>)
    requires tx.write
    modifies tx
    ensures match Retention.Collect(old(tx.d), o)
            case Ok(v) => r == Ok(v.1) && tx.d == v.0
            case Err(e) => r == Err(e)
  {
    hide SweepTasks, Prune, Sorted;
    if o.now == ZERO_TIME || o.maxTasks < 1 || o.maxTasks > MAX_PAGE_SIZE || o.maxRows < 1 || o.maxRows > MAX_GC_ROWS {
      return Err(Invalid);
    }
    var b := new Batch(tx, o);
    var e := b.PruneMessages("", true);
    if e.Fail? {
      return Err(e.error);
    }
    if b.remaining == 0 {
      return Ok(b.out.(more := true));
    }
    var tasks := tx.TerminalTasksAfter(o.after, Deadline(o), o.maxTasks);
    var stopped := b.VisitTasks(tasks.value);
    if stopped.Err? {
      return Err(stopped.error);
    }
    if stopped.value {
      return Ok(b.out);
    }
    var more := |tasks.value| == o.maxTasks;
    return Ok(b.out.(more := more, next := if more then b.out.next else ""));
  }
}
