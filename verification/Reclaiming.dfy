/** What a collection must deliver: lapsed messages of nobody go, retired tasks go,
    and the counters of a batch say what left and what was passed over. */
module Reclaiming {
  import opened Basics
  import opened Records
  import opened Storage
  import opened Invariant
  import opened Shrinking
  import opened Retention
  import opened Collecting
  import Decisions

  // ---- messages of nobody ---------------------------------------------------

  /** Outside every replay window the batch knows of. */
  predicate PastWindow(d: Data, o: GCOptions, m: Message) {
    m.expiresAt < Unix(o.now) && (Unix(m.issuedAt) < d.messageFloor || Unix(m.issuedAt) < Unix(o.now - REPLAY_WINDOW))
  }

  /** A stored message whose task, operation and attempt are not stored. */
  predicate Nobodys(d: Data, k: Id) {
    && k in d.messages && d.messages[k].taskId !in d.tasks
    && d.messages[k].operationId !in d.ops && d.messages[k].attemptId !in d.attempts
  }

  /** A batch deletes it, or asks to be continued. */
  lemma OrphanCollected(d: Data, o: GCOptions, k: Id)
    requires Inv(d) && LegalBudget(o) && Nobodys(d, k) && PastWindow(d, o, d.messages[k])
    ensures Collect(d, o).Ok?
    ensures k !in Collect(d, o).value.0.messages || Collect(d, o).value.1.more
  {
    hide Inv, Rows, WholeGraphs, Spared, LoopDone, Charged, Collect, Candidates;
    var s1, s2 := CollectRun(d, o);
    if s1.remaining > 0 {
      assert k in Expired(Opening(d, o).d, "", true, Unix(o.now), Floor(d, o));
      assert k !in s1.d.messages;
    }
  }

  /** Until then it stays as it is, and stays nobody's. */
  lemma StillNobodys(d: Data, d': Data, o: GCOptions, o': GCOptions, k: Id)
    requires Shrunk(d.(messageFloor := d'.messageFloor), d') && d'.messageFloor >= d.messageFloor
    requires o' == o.(after := o'.after) && Nobodys(d, k) && PastWindow(d, o, d.messages[k]) && k in d'.messages
    ensures Nobodys(d', k) && PastWindow(d', o', d'.messages[k])
  {
  }

  lemma FloorRises(d: Data, o: GCOptions)
    ensures Floor(d, o) >= d.messageFloor
  {
  }

  /** A full pass, from any cursor, leaves no such message. */
  lemma {:induction false} PassForgets(d: Data, o: GCOptions, k: Id)
    requires Inv(d) && LegalBudget(o) && Nobodys(d, k) && PastWindow(d, o, d.messages[k])
    ensures k !in CollectPass(d, o).messages
    decreases |Rows(d)|, |TasksPast(d, o.after)|
  {
    hide Inv, Rows, Collect, TasksPast, Shrunk, Nobodys, PastWindow;
    CollectAccounts(d, o);
    PassDecreases(d, o);
    FloorRises(d, o);
    OrphanCollected(d, o, k);
    var (d', out) := Collect(d, o).value;
    var o' := o.(after := out.next);
    if out.more {
      if k in d'.messages {
        StillNobodys(d, d', o, o', k);
        PassForgets(d', o', k);
      } else {
        PassDropsMessages(d', o');
      }
    }
  }

  lemma {:induction false} PassDropsMessages(d: Data, o: GCOptions)
    requires Inv(d) && LegalBudget(o)
    ensures Sub(d.messages, CollectPass(d, o).messages)
    decreases |Rows(d)|, |TasksPast(d, o.after)|
  {
    hide Inv, Rows, Collect, TasksPast, WholeGraphs;
    CollectAccounts(d, o);
    PassDecreases(d, o);
    var (d', out) := Collect(d, o).value;
    if out.more {
      PassDropsMessages(d', o.(after := out.next));
    }
  }

  /** The record of an accepted message: what it is about, and an expiry at the later
      end of the two windows, around its issue and around its acceptance. */
  lemma AcceptedRecord(d: Data, now: Time, env: Envelope)
    requires Decisions.RegisterMessage(d, now, env).Ok? && !Decisions.RegisterMessage(d, now, env).value.1
    ensures var d' := Decisions.RegisterMessage(d, now, env).value.0;
            && env.messageId in d'.messages
            && var m := d'.messages[env.messageId];
            && m.taskId == env.taskId && m.operationId == env.operationId && m.attemptId == env.attemptId
            && m.issuedAt == env.issuedAt && m.digest == V1(env)
            && m.expiresAt >= Unix(now + REPLAY_WINDOW) && m.expiresAt >= Unix(env.issuedAt + REPLAY_WINDOW)
            && m.expiresAt <= Unix(now + CLOCK_SKEW + REPLAY_WINDOW)
  {
    hide ValidEnvelope;
  }

  /** One window and the clock skew after its acceptance, a message is outside every
      window, and so a full pass forgets it if it is nobody's. */
  lemma AcceptedLapses(d: Data, now: Time, env: Envelope, d': Data, o: GCOptions)
    requires Decisions.RegisterMessage(d, now, env).Ok? && !Decisions.RegisterMessage(d, now, env).value.1
    requires Inv(d') && LegalBudget(o) && Nobodys(d', env.messageId)
    requires d'.messages[env.messageId] == Decisions.RegisterMessage(d, now, env).value.0.messages[env.messageId]
    requires o.now >= now + CLOCK_SKEW + REPLAY_WINDOW + SECOND
    ensures env.messageId !in CollectPass(d', o).messages
  {
    hide Inv, Decisions.RegisterMessage, CollectPass, Nobodys;
    AcceptedRecord(d, now, env);
    AcceptedInTime(d, now, env);
    LaterSecond(now + CLOCK_SKEW + REPLAY_WINDOW, o.now);
    LaterSecond(env.issuedAt, o.now - REPLAY_WINDOW);
    PassForgets(d', o, env.messageId);
  }

  lemma AcceptedInTime(d: Data, now: Time, env: Envelope)
    requires Decisions.RegisterMessage(d, now, env).Ok?
    ensures env.issuedAt <= now + CLOCK_SKEW
  {
    hide ValidEnvelope;
  }

  lemma LaterSecond(a: Time, b: Time)
    requires b >= a + SECOND
    ensures Unix(a) < Unix(b)
  {
  }

  // ---- retired tasks --------------------------------------------------------

  /** No message protects the task: each is past every window and names no stored work
      of another task. */
  ghost predicate Unprotected(d: Data, o: GCOptions, task: Id) {
    forall k :: k in d.messages && d.messages[k].taskId == task ==>
      var m := d.messages[k];
      && PastWindow(d, o, m)
      && (m.operationId in d.ops ==> d.ops[m.operationId].descriptor.taskId == task)
      && (m.attemptId in d.attempts ==>
            && d.attempts[m.attemptId].operationId in d.ops
            && d.ops[d.attempts[m.attemptId].operationId].descriptor.taskId == task)
  }

  /** Closed for longer than the retention time, not protected, and made of operations
      that fit a batch. */
  ghost predicate Retired(d: Data, o: GCOptions, task: Id) {
    && task in d.tasks && d.tasks[task].state in {TaskCompleted, TaskFailed, TaskCancelled}
    && Unix(d.tasks[task].updatedAt) < Unix(o.now - 30 * DAY)
    && Unprotected(d, o, task)
    && forall k :: k in d.ops && d.ops[k].descriptor.taskId == task ==> |GraphRows(d, k)| <= o.maxRows
  }

  lemma UnprotectedSafe(d: Data, o: GCOptions, task: Id)
    requires Unprotected(d, o, task)
    ensures MessagesSafe(d, task, Unix(o.now), Floor(d, o))
  {
  }

  lemma RetiredDue(d: Data, o: GCOptions, task: Id)
    requires Retired(d, o, task)
    ensures Due(d, o, task)
  {
    hide GraphRows, MessagesSafe, PastWindow;
    UnprotectedSafe(d, o, task);
  }

  lemma OpsHaveTasks(d: Data)
    requires Inv(d)
    ensures forall k :: k in d.ops ==> d.ops[k].descriptor.taskId in d.tasks
  {
    hide TasksOk, WorkOk, GraphInv, RecordInv, ReservationsSound, ReservationsComplete, MessagesOk, ValidDescriptor;
    forall k | k in d.ops
      ensures d.ops[k].descriptor.taskId in d.tasks
    {
      assert OperationOk(d.tasks, k, d.ops[k]);
    }
  }

  /** A full pass from the start removes every retired task with all its operations. */
  lemma PassReclaims(d: Data, o: GCOptions, task: Id)
    requires Inv(d) && LegalBudget(o) && o.after == "" && Retired(d, o, task)
    ensures task !in CollectPass(d, o).tasks
    ensures forall k :: k in CollectPass(d, o).ops ==> CollectPass(d, o).ops[k].descriptor.taskId != task
  {
    hide Inv, Retired, Due, CollectPass, Sub;
    RetiredDue(d, o, task);
    FullPassComplete(d, o);
    PassShrinks(d, o);
    OpsHaveTasks(CollectPass(d, o));
  }

  // ---- the counters of a batch ----------------------------------------------

  ghost predicate Counts(s: Sweep, s': Sweep) {
    && |s'.d.ops| + s'.out.operations == |s.d.ops| + s.out.operations
    && |s'.d.tasks| + s'.out.tasks == |s.d.tasks| + s.out.tasks
    && |s'.d.messages| + s'.out.messages == |s.d.messages| + s.out.messages
    && s'.out.oversized >= s.out.oversized
  }

  lemma OneLess<V>(m: map<Id, V>, k: Id)
    requires k in m
    ensures |m - {k}| + 1 == |m|
  {
    assert (m - {k}).Keys == m.Keys - {k};
  }

  /** What happens to everything a graph's deletion does not concern. */
  ghost predicate OnlyCounted(s: Sweep, s': Sweep) {
    && Counts(s, s') && s'.out.deferred == s.out.deferred && s'.d.tasks == s.d.tasks && s'.out.tasks == s.out.tasks
    && (s'.out.oversized == s.out.oversized ==> s'.skipped == s.skipped)
  }

  lemma OnlyCountedTransitive(s: Sweep, s1: Sweep, s2: Sweep)
    requires OnlyCounted(s, s1) && OnlyCounted(s1, s2)
    ensures OnlyCounted(s, s2)
  {
  }

  lemma GraphCounted(s: Sweep, op: Id, n: nat)
    requires op in s.d.ops && n <= s.remaining
    ensures OnlyCounted(s, s.(d := WithoutGraph(s.d, op), remaining := s.remaining - n,
                              out := s.out.(rows := s.out.rows + n, operations := s.out.operations + 1)))
  {
    OneLess(s.d.ops, op);
    GraphAlone(s.d, op);
    hide WithoutGraph;
  }

  lemma GraphAlone(d: Data, op: Id)
    ensures var d' := WithoutGraph(d, op); d'.ops == d.ops - {op} && d'.tasks == d.tasks && d'.messages == d.messages
  {
  }

  lemma NothingVisited(s: Sweep)
    ensures OnlyCounted(s, s) && OnlyCounted(s, Stop(s))
    ensures OnlyCounted(s, s.(out := s.out.(oversized := s.out.oversized + 1), skipped := true))
  {
  }

  /** Visiting operations counts each deletion, and each operation too large to visit
      is counted as oversized. */
  lemma {:induction false} OperationsCounted(s: Sweep, maxRows: nat, ids: seq<Id>)
    requires SweepOperations(s, maxRows, ids).Ok?
    ensures OnlyCounted(s, SweepOperations(s, maxRows, ids).value)
    decreases |ids|
  {
    hide GraphRows, Reserved, WithoutGraph, OnlyCounted, Stop;
    NothingVisited(s);
    if ids != [] && ids[0] in s.d.ops {
      var n := Min(|GraphRows(s.d, ids[0])|, maxRows + 1);
      if n > maxRows {
        var s1 := s.(out := s.out.(oversized := s.out.oversized + 1), skipped := true);
        OperationsCounted(s1, maxRows, ids[1..]);
        OnlyCountedTransitive(s, s1, SweepOperations(s1, maxRows, ids[1..]).value);
      } else if n <= s.remaining {
        GraphCounted(s, ids[0], n);
        var s1 := s.(d := WithoutGraph(s.d, ids[0]), remaining := s.remaining - n,
                     out := s.out.(rows := s.out.rows + n, operations := s.out.operations + 1));
        OperationsCounted(s1, maxRows, ids[1..]);
        OnlyCountedTransitive(s, s1, SweepOperations(s1, maxRows, ids[1..]).value);
      }
    }
  }

  /** Unless the budget ends it, a visit counts each operation once: as deleted or as
      oversized. */
  lemma {:induction false} VisitedAreCounted(s: Sweep, maxRows: nat, ids: seq<Id>)
    requires SweepOperations(s, maxRows, ids).Ok? && !SweepOperations(s, maxRows, ids).value.stopped
    ensures var s' := SweepOperations(s, maxRows, ids).value;
            s'.out.operations + s'.out.oversized == s.out.operations + s.out.oversized + |ids|
    decreases |ids|
  {
    hide GraphRows, Reserved, WithoutGraph;
    if ids != [] {
      var n := Min(|GraphRows(s.d, ids[0])|, maxRows + 1);
      if n > maxRows {
        VisitedAreCounted(s.(out := s.out.(oversized := s.out.oversized + 1), skipped := true), maxRows, ids[1..]);
      } else {
        VisitedAreCounted(s.(d := WithoutGraph(s.d, ids[0]), remaining := s.remaining - n,
                             out := s.out.(rows := s.out.rows + n, operations := s.out.operations + 1)), maxRows, ids[1..]);
      }
    }
  }

  lemma MessagesCounted(s: Sweep, task: Id, orphan: bool, now: int, floor: int)
    requires Prune(s, task, orphan, now, floor).Ok?
    ensures OnlyCounted(s, Prune(s, task, orphan, now, floor).value)
    ensures Prune(s, task, orphan, now, floor).value.stopped == s.stopped
    ensures Prune(s, task, orphan, now, floor).value.out.oversized == s.out.oversized
  {
    hide Sorted, Expired;
    var ids := First(Sorted(Expired(s.d, task, orphan, now, floor)), s.remaining);
    FirstOfExpired(s.d, task, orphan, now, floor, s.remaining);
    Fewer(s.d.messages, Members(ids));
  }

  lemma FirstOfExpired(d: Data, task: Id, orphan: bool, now: int, floor: int, limit: nat)
    ensures var ids := First(Sorted(Expired(d, task, orphan, now, floor)), limit);
            |Members(ids)| == |ids| && Members(ids) <= d.messages.Keys
  {
    var all := Expired(d, task, orphan, now, floor);
    assert all <= d.messages.Keys;
    MembersOfPrefix(all, First(Sorted(all), limit));
  }

  lemma Fewer<V>(m: map<Id, V>, ids: set<Id>)
    requires ids <= m.Keys
    ensures |m - ids| + |ids| == |m|
  {
    assert (m - ids).Keys == m.Keys - ids;
  }

  /** A task that is passed is either deleted or deferred, and counted as such; it is
      deferred only if it is pending, protected, or has an oversized operation. */
  lemma TaskCounted(s: Sweep, o: GCOptions, floor: int, task: Id)
    requires LegalBudget(o) && SweepTask(s, o, floor, task).Ok? && task in s.d.tasks && !s.stopped
    ensures var s' := SweepTask(s, o, floor, task).value;
            && Counts(s, s')
            && (!s'.stopped ==> s'.out.deferred + s'.out.tasks == s.out.deferred + s.out.tasks + 1)
            && (forall k :: k in s.d.tasks && k !in s'.d.tasks ==> k == task)
            && (!s'.stopped && s'.out.oversized == s.out.oversized && !HasPending(s.d, task)
                && MessagesSafe(s.d, task, Unix(o.now), floor)
                ==> task !in s'.d.tasks)
  {
    hide SweepOperations, Prune, HasPending, MessagesSafe, HasMessages, OperationsOf, Sorted, Counts;
    if !HasPending(s.d, task) && MessagesSafe(s.d, task, Unix(o.now), floor) {
      var s0 := s.(skipped := false);
      var ids := First(Sorted(OperationsOf(s.d, task)), o.maxRows);
      OperationsCounted(s0, o.maxRows, ids);
      var s1 := SweepOperations(s0, o.maxRows, ids).value;
      SameCounts(s0, s1, s, s1);
      if !s1.stopped && OperationsOf(s1.d, task) == {} && s1.remaining > 0 {
        MessagesCounted(s1, task, false, Unix(o.now), floor);
        var s2 := Prune(s1, task, false, Unix(o.now), floor).value;
        CountsTransitive(s, s1, s2);
        SameCounts(s, s2, s, Stop(s2));
        if !HasMessages(s2.d, task) && s2.remaining != 0 {
          TaskDeleted(s, s2, SweepTask(s, o, floor, task).value, task);
        }
      } else {
        SameCounts(s, s1, s, Stop(s1));
        SameCounts(s, s1, s, Defer(s1, task));
      }
    } else {
      NothingCounted(s, Defer(s, task));
    }
  }

  lemma NothingCounted(s: Sweep, s': Sweep)
    requires s'.d == s.d && s'.out == s.out.(deferred := s'.out.deferred, next := s'.out.next, more := s'.out.more)
    ensures Counts(s, s')
  {
  }

  lemma SameCounts(s: Sweep, s': Sweep, t: Sweep, t': Sweep)
    requires Counts(s, s') && t.d == s.d && t'.d == s'.d
    requires t.out == s.out && t'.out == s'.out.(deferred := t'.out.deferred, next := t'.out.next, more := t'.out.more)
    ensures Counts(t, t')
  {
  }

  lemma CountsTransitive(s: Sweep, s1: Sweep, s2: Sweep)
    requires Counts(s, s1) && Counts(s1, s2)
    ensures Counts(s, s2)
  {
  }

  lemma TaskDeleted(s: Sweep, s2: Sweep, s3: Sweep, task: Id)
    requires Counts(s, s2) && task in s2.d.tasks && DeleteTask(s2.d, task) == Ok(s3.d)
    requires s3.out == s2.out.(rows := s3.out.rows, tasks := s2.out.tasks + 1, next := task, more := s3.out.more)
    ensures Counts(s, s3) && s3.d.tasks == s2.d.tasks - {task}
  {
    hide OperationsOf, HasMessages;
    OneLess(s2.d.tasks, task);
  }

  /** A loop that was not stopped has deleted or deferred each of its tasks. */
  lemma {:induction false} TasksCounted(s: Sweep, o: GCOptions, floor: int, tasks: seq<Id>)
    requires LegalBudget(o) && Inv(s.d) && s.remaining <= o.maxRows && !s.stopped && !s.out.more
    requires Queue(s.d, o, s.out.next, tasks)
    ensures SweepTasks(s, o, floor, tasks).Ok?
    ensures var s' := SweepTasks(s, o, floor, tasks).value;
            && Counts(s, s') && Shrunk(s.d, s'.d) && (s'.stopped ==> s'.out.more)
            && (!s'.stopped ==> s'.out.deferred + s'.out.tasks == s.out.deferred + s.out.tasks + |tasks|)
            && (forall k :: k in s.d.tasks && k !in s'.d.tasks ==> k in tasks)
            && (!s'.stopped && s'.out.oversized == s.out.oversized ==>
                  forall t :: t in tasks && MessagesSafe(s.d, t, Unix(o.now), floor) ==> t !in s'.d.tasks)
    decreases |tasks|
  {
    hide Inv, Shrunk, Rows, Charged, TaskSwept, SweepTask, Counts, MessagesSafe, HasPending, Spared, LoopDone;
    SweepTasksStep(s, o, floor, tasks);
    LoopFacts(s, SweepTasks(s, o, floor, tasks).value, o, floor, tasks);
    LoopStops(s, SweepTasks(s, o, floor, tasks).value, o, floor, tasks);
    if tasks == [] {
      NothingCounted(s, s);
    } else {
      assert Old(s.d, o, tasks[0]);
      SweepTaskStep(s, o, floor, tasks[0]);
      SettledTask(s.d, tasks[0]);
      TaskCounted(s, o, floor, tasks[0]);
      var s1 := SweepTask(s, o, floor, tasks[0]).value;
      TaskSweptCharged(s, s1, o, floor, tasks[0]);
      if !s1.stopped {
        QueueTail(s, s1, o, floor, tasks);
        TasksCounted(s1, o, floor, tasks[1..]);
        var s' := SweepTasks(s1, o, floor, tasks[1..]).value;
        CountsTransitive(s, s1, s');
        OversizedGrows(s, s1);
        OversizedGrows(s1, s');
        StillSafe(s, s1, o, floor, tasks);
        if tasks[0] !in s1.d.tasks {
          TaskGone(s1.d, s'.d, tasks[0]);
        }
      }
    }
  }

  lemma LoopStops(s: Sweep, s': Sweep, o: GCOptions, floor: int, tasks: seq<Id>)
    requires LoopDone(s, s', o, floor, tasks)
    ensures s'.stopped ==> s'.out.more
  {
    hide Charged, Spared, Removable;
  }

  lemma OversizedGrows(s: Sweep, s': Sweep)
    requires Counts(s, s')
    ensures s'.out.oversized >= s.out.oversized
  {
  }

  lemma StillSafe(s: Sweep, s1: Sweep, o: GCOptions, floor: int, tasks: seq<Id>)
    requires Inv(s.d) && Shrunk(s.d, s1.d) && tasks != []
    ensures forall t :: t in tasks && t != tasks[0] && MessagesSafe(s.d, t, Unix(o.now), floor) ==>
                          t in tasks[1..] && MessagesSafe(s1.d, t, Unix(o.now), floor)
  {
    hide TasksOk, OperationsOk, WorkOk, ReservationsSound, ReservationsComplete, MessagesOk,
         AttemptsOk, LeasesUnique, GenerationsUnique, GenerationsComplete, ActivesOk, SettledOk,
         EvidenceOk, VerificationsOk, RevocationsOk, ProofsOk, MessagesSafe, Owned, Shrunk;
    InvOwned(s.d);
    forall t | t in tasks && t != tasks[0] && MessagesSafe(s.d, t, Unix(o.now), floor)
      ensures t in tasks[1..] && MessagesSafe(s1.d, t, Unix(o.now), floor)
    {
      AscendingOrHead(tasks, t);
      SafeShrinks(s.d, s1.d, t, Unix(o.now), floor);
    }
  }

  lemma OpeningCounted(s: Sweep, s': Sweep, d: Data, o: GCOptions)
    requires LegalBudget(o) && s == Opening(d, o) && Counts(s, s')
    ensures && |d.ops| == |s'.d.ops| + s'.out.operations
            && |d.tasks| == |s'.d.tasks| + s'.out.tasks
            && |d.messages| == |s'.d.messages| + s'.out.messages
  {
    FloorFactsOpening(d, o);
  }

  lemma AllCandidates(d: Data, o: GCOptions)
    requires LegalBudget(o) && |Candidates(d, o)| < o.maxTasks
    ensures |Candidates(d, o)| == |TasksAfter(d, o.after, Deadline(o))|
    ensures forall t :: t in Candidates(d, o) <==> t in TasksAfter(d, o.after, Deadline(o))
  {
    hide Sorted, TasksAfter;
  }

  lemma CandidatesBounded(d: Data, o: GCOptions)
    requires LegalBudget(o)
    ensures |Candidates(d, o)| <= o.maxTasks
  {
    hide Sorted, TasksAfter;
  }

  lemma Gone<V>(m: map<Id, V>, m': map<Id, V>, n: nat)
    requires Sub(m, m') && |m| == |m'| + n
    ensures |m.Keys - m'.Keys| == n
  {
    assert m'.Keys == m.Keys - (m.Keys - m'.Keys);
  }

  lemma OldTasksLeft(d: Data, d': Data, after: Id, cutoff: int)
    requires Sub(d.tasks, d'.tasks)
    ensures TasksAfter(d', after, cutoff) == TasksAfter(d, after, cutoff) - (d.tasks.Keys - d'.tasks.Keys)
  {
  }

  /** The old tasks left are those that were deferred. */
  lemma TasksLeft(s1: Sweep, s2: Sweep, o: GCOptions)
    requires LegalBudget(o) && |Candidates(s1.d, o)| < o.maxTasks
    requires Counts(s1, s2) && Sub(s1.d.tasks, s2.d.tasks) && s1.out.deferred == 0 && s1.out.tasks == 0
    requires s2.out.deferred + s2.out.tasks == |Candidates(s1.d, o)|
    requires forall k :: k in s1.d.tasks && k !in s2.d.tasks ==> k in Candidates(s1.d, o)
    ensures s2.out.deferred == |TasksAfter(s2.d, o.after, Deadline(o))|
  {
    hide Candidates, TasksAfter, Sub;
    AllCandidates(s1.d, o);
    Gone(s1.d.tasks, s2.d.tasks, s2.out.tasks);
    OldTasksLeft(s1.d, s2.d, o.after, Deadline(o));
    var removed := s1.d.tasks.Keys - s2.d.tasks.Keys;
    assert removed <= TasksAfter(s1.d, o.after, Deadline(o));
  }

  lemma ProtectedLeft(d: Data, s1: Sweep, s2: Sweep, o: GCOptions)
    requires Inv(d) && LegalBudget(o) && |Candidates(s1.d, o)| < o.maxTasks
    requires Shrunk(d.(messageFloor := Floor(d, o)), s1.d) && Sub(s1.d.tasks, s2.d.tasks)
    requires s2.out.oversized == 0 ==>
               forall t :: t in Candidates(s1.d, o) && MessagesSafe(s1.d, t, Unix(o.now), Floor(d, o)) ==> t !in s2.d.tasks
    ensures s2.out.oversized == 0 ==> forall t :: t in TasksAfter(s2.d, o.after, Deadline(o)) ==> !Unprotected(d, o, t)
  {
    hide Inv, Shrunk, Candidates, Unprotected, MessagesSafe;
    AllCandidates(s1.d, o);
    forall t | t in TasksAfter(s2.d, o.after, Deadline(o)) && Unprotected(d, o, t)
      ensures s2.out.oversized != 0
    {
      assert t in TasksAfter(s1.d, o.after, Deadline(o));
      UnprotectedSafe(d, o, t);
      SafeAfterOpening(d, s1.d, t, o);
    }
  }

  lemma SafeAfterOpening(d: Data, d1: Data, task: Id, o: GCOptions)
    requires Inv(d) && MessagesSafe(d, task, Unix(o.now), Floor(d, o))
    requires Shrunk(d.(messageFloor := Floor(d, o)), d1)
    ensures MessagesSafe(d1, task, Unix(o.now), Floor(d, o))
  {
    hide Shrunk, Lapsed, TasksOk, OperationsOk, WorkOk, ReservationsSound, ReservationsComplete, MessagesOk,
         AttemptsOk, LeasesUnique, GenerationsUnique, GenerationsComplete, ActivesOk, SettledOk,
         EvidenceOk, VerificationsOk, RevocationsOk, ProofsOk, Owned;
    var e := d.(messageFloor := Floor(d, o));
    FloorInv(d, Floor(d, o));
    InvOwned(e);
    assert MessagesSafe(e, task, Unix(o.now), Floor(d, o)) by {
      assert forall k :: k in e.messages ==>
        UnsafeMessage(e, task, Unix(o.now), Floor(d, o), e.messages[k]) == UnsafeMessage(d, task, Unix(o.now), Floor(d, o), d.messages[k]);
    }
    SafeShrinks(e, d1, task, Unix(o.now), Floor(d, o));
  }

  lemma PrunedShrunk(s: Sweep, s1: Sweep, now: int, floor: int)
    requires Pruned(s, s1, "", true, now, floor)
    ensures Inv(s1.d) && Shrunk(s.d, s1.d) && s1.remaining <= s.remaining
    ensures s1.out.next == s.out.next && s1.out.more == s.out.more && s1.stopped == s.stopped
  {
    hide Inv, Shrunk, Rows, Expired;
  }

  lemma ShrunkTasks(d: Data, d': Data)
    requires Shrunk(d, d')
    ensures Sub(d.tasks, d'.tasks)
  {
    hide WholeGraphs;
  }

  lemma CountersKept(s: Sweep, s1: Sweep)
    requires OnlyCounted(s, s1)
    ensures Counts(s, s1) && s1.out.deferred == s.out.deferred && s1.out.tasks == s.out.tasks
  {
  }

  /** The counters of a batch are the differences of the tables. A batch that ends the
      pass has deferred exactly the old closed tasks that are left past its cursor, and
      without an oversized operation each of them is protected by a message. */
  lemma CollectCounts(d: Data, o: GCOptions)
    requires Inv(d) && LegalBudget(o)
    ensures Collect(d, o).Ok?
    ensures var (d', out) := Collect(d, o).value;
            && |d.ops| == |d'.ops| + out.operations
            && |d.tasks| == |d'.tasks| + out.tasks
            && |d.messages| == |d'.messages| + out.messages
    ensures var (d', out) := Collect(d, o).value;
            !out.more ==>
              && out.deferred == |TasksAfter(d', o.after, Deadline(o))|
              && (out.oversized == 0 ==> forall t :: t in TasksAfter(d', o.after, Deadline(o)) ==> !Unprotected(d, o, t))
  {
    hide Inv, Rows, Shrunk, Charged, Counts, OnlyCounted, Pruned, SweepTasks, Prune, Candidates, TasksAfter, Unprotected, Queue,
         MessagesSafe, Sub;
    var s := Opening(d, o);
    FloorKeepsInv(d, Floor(d, o));
    FloorFactsOpening(d, o);
    PruneStep(s, "", true, Unix(o.now), Floor(d, o));
    MessagesCounted(s, "", true, Unix(o.now), Floor(d, o));
    var s1 := Prune(s, "", true, Unix(o.now), Floor(d, o)).value;
    PrunedShrunk(s, s1, Unix(o.now), Floor(d, o));
    CountersKept(s, s1);
    OpeningCounted(s, s1, d, o);
    if s1.remaining > 0 {
      CandidateQueue(s1.d, o);
      CandidatesBounded(s1.d, o);
      TasksCounted(s1, o, Floor(d, o), Candidates(s1.d, o));
      var s2 := SweepTasks(s1, o, Floor(d, o), Candidates(s1.d, o)).value;
      CountsTransitive(s, s1, s2);
      OpeningCounted(s, s2, d, o);
      if !s2.stopped && |Candidates(s1.d, o)| < o.maxTasks {
        ShrunkTasks(s1.d, s2.d);
        TasksLeft(s1, s2, o);
        ProtectedLeft(d, s1, s2, o);
      }
    }
  }

  /** A consistent store is collected exactly when the clock is set, at most 100 tasks
      and 10000 rows are asked for, and at least one of each. */
  lemma CollectsExactly(d: Data, o: GCOptions)
    requires Inv(d)
    ensures Collect(d, o).Ok? <==> o.now != ZERO_TIME && 1 <= o.maxTasks <= 100 && 1 <= o.maxRows <= 10000
    ensures Collect(d, o).Err? ==> Collect(d, o) == Err(Invalid)
  {
    hide Inv, Rows, WholeGraphs, SweepTasks, Prune, Candidates;
    if LegalBudget(o) {
      CollectAccounts(d, o);
    }
  }
}
