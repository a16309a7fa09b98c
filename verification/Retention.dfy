/** The garbage collector as a function: a budgeted sweep over old terminal tasks
    that removes whole operation graphs and can be resumed from a cursor. */
module Retention {
  import opened Basics
  import opened Records
  import opened Storage

  datatype GCOptions = GCOptions(now: Time, after: Id, maxTasks: int, maxRows: int)

  datatype GCResult = GCResult(
    rows: nat, operations: nat, tasks: nat, messages: nat, deferred: nat, oversized: nat, next: Id, more: bool)

  predicate LegalBudget(o: GCOptions) {
    o.now != ZERO_TIME && 1 <= o.maxTasks <= MAX_PAGE_SIZE && 1 <= o.maxRows <= MAX_GC_ROWS
  }

  function Floor(d: Data, o: GCOptions): int {
    Max(d.messageFloor, Unix(o.now - REPLAY_WINDOW))
  }

  function Deadline(o: GCOptions): int {
    Unix(o.now - TERMINAL_RETENTION)
  }

  /** A batch under way: `skipped` says that the current task keeps an operation
      larger than the whole budget, `stopped` that the batch has ended early. */
  datatype Sweep = Sweep(d: Data, out: GCResult, remaining: nat, skipped: bool, stopped: bool)

  function Min(a: nat, b: nat): nat {
    if a <= b then a else b
  }

  ghost function SweepOperations(s: Sweep, maxRows: nat, ids: seq<Id>): Result<Sweep>
    decreases |ids|
  {
    if ids == [] then Ok(s)
    else if ids[0] !in s.d.ops then Err(NotFound)
    else
      var n := Min(|GraphRows(s.d, ids[0])|, maxRows + 1);
      if n > maxRows then
        SweepOperations(s.(out := s.out.(oversized := s.out.oversized + 1), skipped := true), maxRows, ids[1..])
      else if n > s.remaining then Ok(Stop(s))
      else
        var d1 :- DeleteOperationGraph(s.d, ids[0]);
        SweepOperations(
          s.(d := d1, remaining := s.remaining - n,
             out := s.out.(rows := s.out.rows + n, operations := s.out.operations + 1)),
          maxRows, ids[1..])
  }

  function Stop(s: Sweep): Sweep {
    s.(out := s.out.(more := true), stopped := true)
  }

  /** At most `remaining` lapsed messages, the lowest identifiers first. */
  function Prune(s: Sweep, task: Id, orphan: bool, now: int, floor: int): Result<Sweep> {
    if s.remaining < 1 || s.remaining > MAX_GC_ROWS then Err(Integrity)
    else
      var ids := First(Sorted(Expired(s.d, task, orphan, now, floor)), s.remaining);
      Ok(s.(d := DeleteMessages(s.d, Members(ids)), remaining := s.remaining - |ids|,
            out := s.out.(messages := s.out.messages + |ids|, rows := s.out.rows + |ids|)))
  }

  function Members(ids: seq<Id>): set<Id> {
    set k | k in ids
  }

  function Defer(s: Sweep, task: Id): Sweep {
    s.(out := s.out.(deferred := s.out.deferred + 1, next := task))
  }

  ghost function SweepTask(s: Sweep, o: GCOptions, floor: int, task: Id): Result<Sweep>
    requires LegalBudget(o)
  {
    if HasPending(s.d, task) || !MessagesSafe(s.d, task, Unix(o.now), floor) then Ok(Defer(s, task))
    else
      var ids := First(Sorted(OperationsOf(s.d, task)), o.maxRows);
      var s1 :- SweepOperations(s.(skipped := false), o.maxRows, ids);
      if s1.stopped then Ok(s1)
      else if OperationsOf(s1.d, task) != {} then
        if s1.skipped then Ok(Defer(s1, task)) else Ok(Stop(s1))
      else if s1.remaining == 0 then Ok(Stop(s1))
      else
        var s2 :- Prune(s1, task, false, Unix(o.now), floor);
        if HasMessages(s2.d, task) || s2.remaining == 0 then Ok(Stop(s2))
        else
          var d3 :- DeleteTask(s2.d, task);
          var s3 := s2.(d := d3, remaining := s2.remaining - 1,
                        out := s2.out.(rows := s2.out.rows + 1, tasks := s2.out.tasks + 1, next := task));
          Ok(if s3.remaining == 0 then Stop(s3) else s3)
  }

  ghost function SweepTasks(s: Sweep, o: GCOptions, floor: int, tasks: seq<Id>): Result<Sweep>
    requires LegalBudget(o)
    decreases |tasks|
  {
    if tasks == [] then Ok(s)
    else
      var s1 :- SweepTask(s, o, floor, tasks[0]);
      if s1.stopped then Ok(s1) else SweepTasks(s1, o, floor, tasks[1..])
  }

  function Candidates(d: Data, o: GCOptions): seq<Id>
    requires LegalBudget(o)
  {
    First(Sorted(TasksAfter(d, o.after, Deadline(o))), o.maxTasks)
  }

  function Opening(d: Data, o: GCOptions): Sweep
    requires LegalBudget(o)
  {
    Sweep(SetMessageFloor(d, Floor(d, o)), GCResult(0, 0, 0, 0, 0, 0, o.after, false), o.maxRows, false, false)
  }

  ghost function Collect(d: Data, o: GCOptions): Result<(Data, GCResult)> {
    if !LegalBudget(o) then Err(Invalid)
    else
      var floor := Floor(d, o);
      var s1 :- Prune(Opening(d, o), "", true, Unix(o.now), floor);
      if s1.remaining == 0 then Ok((s1.d, s1.out.(more := true)))
      else
        var tasks := Candidates(s1.d, o);
        var s2 :- SweepTasks(s1, o, floor, tasks);
        if s2.stopped then Ok((s2.d, s2.out))
        else
          var more := |tasks| == o.maxTasks;
          Ok((s2.d, s2.out.(more := more, next := if more then s2.out.next else "")))
  }
}
