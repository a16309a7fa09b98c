# The control plane, modelled and proved

This project models the transactional core of an agent control plane: tasks, operations,
attempts, leases, scope reservations, evidence and verification, together with the
protocols that stand on it. It proves what the core promises in every state a run can
reach, under arbitrary clock readings, failed or abandoned transactions, lost
acknowledgements and interleavings.

`dafny verify dfyconfig.toml` checks the whole project.

## How it is laid out

| files | what they hold |
|---|---|
| `Basics`, `Records`, `Machine` | identifiers and their order, time, errors; the records and their validation; the operation state machine |
| `Storage`, `Decisions` | the stored data as a value, its primitives, and every orchestration decision as a function on it |
| `Invariant`, `Preservation`, `Dispatching` | the inductive invariant (everything the SQL schema declares, and more) and the proof that each decision keeps it and forgets nothing |
| `Exactness`, `Primitives` | when each decision succeeds and everything it leaves behind; the laws of competing writes on the primitives |
| `Retention`, `Shrinking`, `Collecting`, `Reclaiming` | the garbage collector as a function, and its accounting, safety, progress and completeness; what a pass must have removed and what its counters mean |
| `History`, `Guarantees`, `Theorems` | whole runs, deduplication, authority, retries, mutual exclusion, outcomes; the headline results over every reachable state |
| `Memory`, `Core`, `Collector`, `Recovery`, `RecoveryClasses`, `Store` | the classes with their loops and in-place updates (transaction, poisoning wrapper, collection batch, repository with copy-on-write commit), each proved equal to the functions above |
| `Runner`, `Delivering`, `Addressing`, `Execution` | the dispatching runner as a step system with any number of interleaved calls; exactly when its offers, heartbeats, reports and withdrawals go through and the retry rule; one call as an object that refines it |
| `Framing`, `UniqueJson`, `Exchange`, `Slots` | the process transport: frames over short writes, the duplicate-name check, the dialogue of controller and child, slot and idle counters |
| `LocalCheck`, `LocalStore`, `CrashSafety`, `Driving`, `LocalGuarantees`, `LocalNames`, `LocalDelivery`, `Service` | the local check: durable steps on store and receipt file with crashes between them, its invariant, its guarantees, the names it uses, the proof that an undisturbed check delivers, and the service as an object |

A decision is written once, as a function from stored data to stored data or an error. The
classes perform the same decision step by step on mutable fields and are proved against that
function, so a theorem about the functions is a theorem about the objects. `Inv` is the
invariant of the stored data; `Keeps(d, d')` says that a decision from `d` left it intact and
that nothing was forgotten or revived: evidence, verifications, revocations and messages only
grow, no dead attempt lives again, outcomes and closed tasks stay.

A callback is the list of decisions it goes on to issue, which covers callbacks that choose
adaptively, because the statements hold for every list. Time is an integer number of
nanoseconds and is an input of every decision; cancellation and lost acknowledgements are
choices of the environment.

## Where the code says less, or something else, than one may expect

- Replay identity is the message identifier together with the second of its issue time: an
  old identifier with a newer issue time can be new again after collection. `AtMostOnce` is
  about that pair.
- The core accepts any attempt of the same operation as `RetryOf`; that a retry names the
  current generation is checked by the runner before its transaction (`Runner.RetryDenied`),
  not inside it. What protects a retry is that every earlier attempt carries a stored
  retry-safe verification (`RetriesAreProven`, `StartNeedsProof`).
- That check of the runner and the offer are two steps. `Addressing.RetryRuleBetween` gives
  the condition: the rule holds of an accepted offer when no attempt of the operation began
  in between; otherwise `Delivering.OfferActs` alone decides.
- The generation-exhausted branch of the state machine is dead: the revision would run out
  first (`GenerationNeverExhausted`).
- No core method enters `cancelled`, so the invariant excludes it for operations and tasks.
- A heartbeat whose very message is already stored passes the gate without an authority
  check, because a duplicate skips the callback. `GateChecksAuthority` states this exactly.
- `pending` in the memory backend counts an operation twice when it is unresolved and reserved; its users test only zero or non-zero.
- Scopes are compared as exact strings when they are reserved; trimming happens only in the
  duplicate check of one descriptor.
- Recovery of a local check works only while the receipt's finish time is inside the replay
  window: the verdict message is issued at that time. `RecoveredExactly` gives the exact
  condition on the clock, in both directions.

## Model

| member | source | states |
|---|---|---|
| `Theorems.SchemaHolds` | internal/persistence/sqlite/migrations/001_initial.sql:1-62 | every state a run reaches satisfies the constraints the schema declares: state against active attempt, unique leases and generations, every reference resolving inside one operation and attempt |
| `Theorems.MutationsNeverOverlap` | internal/core/store.go:218-224 | in every reachable state a scope is reserved iff a mutation in flight holds it, by exactly one operation, bound to that operation's active attempt and generation |
| `Theorems.RetriesNeedProof` | internal/core/store.go:191-229 | each generation from 1 to the lease generation has exactly one attempt, and every one but the current (and the current once ready again) has a stored retry-safe verification |
| `Theorems.OutcomesNeedProof` | internal/core/store.go:306-359 | succeeded or failed only with a stored verification of the last attempt under the operation's own policy and with all its evidence |
| `Theorems.AuthorityIsMonotone` | internal/core/store.go:360-387 | a claim that has authority later had it at every earlier moment since its attempt was stored, and names the live attempt |
| `Theorems.CollectionIsSafe` | internal/persistence/retention.go:28-159 | on every reachable state and legal budget a batch succeeds, charges exactly the rows it deletes and no more than allowed, removes whole graphs only, leaves reservations alone, and touches only terminal, old tasks without pending work and without a message that may be replayed or that names the work of another task still stored |
| `Theorems.CollectionIsComplete` | internal/persistence/retention.go:28-159 | following the cursor from the start ends and removes every task that was due when the pass began |
| `Theorems.RecoveryListsEverything` | internal/core/recovery.go:40-105 | inspection never fails on a legal page, and following the pages lists every operation once in ascending order |
| `History.AtMostOnce` | internal/core/store.go:89-154 | over any run of deliveries, writes and collections with any clocks, no (message, second) pair is accepted as new twice |
| `History.CollectCovers` | internal/persistence/retention.go:34-57 | collection forgets an accepted message only if it was issued below the floor it persists |
| `History.AcceptedIsNew` | internal/core/store.go:95-118 | a message is accepted as new only if its key is neither stored nor below the floor |
| `History.AcceptedExactly` | internal/core/store.go:89-154 | a message is new iff it is valid, inside its window, unknown, about the work it names, and its task is open |
| `History.RedeliveryIsDuplicate` | internal/core/store.go:111-120 | an accepted envelope delivered again after any run, collections included, is a duplicate that changes nothing while inside the window, and expired outside it |
| `History.ReuseIsCollision` | internal/core/store.go:111-120 | while an accepted envelope is stored, no other envelope gets through under its identifier: a valid one in the window is a collision |
| `History.WindowIsKept` | internal/core/store.go:136-153 | an accepted message survives every collection whose clock is within the replay window of its acceptance |
| `History.RunKeepsInv` | internal/core/store.go:46-62 | every event of a run, committed or not, keeps the invariant |
| `History.ProcessKeeps` | internal/core/store.go:75-88 | a processed message with its callback keeps the invariant and forgets nothing |
| `Guarantees.AuthorityExact` | internal/core/store.go:360-387 | the long check amounts to: the claim names a stored attempt that is still live |
| `Guarantees.AuthorityUnique` | internal/core/store.go:360-387 | at most one claim has authority over an operation |
| `Guarantees.AuthorityNeverReturns` | internal/core/store.go:360-387 | authority that is gone stays gone through any events while the attempt is stored |
| `Guarantees.InvalidationEndsAuthority` | internal/core/recovery.go:124-177 | withdrawing an attempt ends the authority of every claim that names it |
| `Guarantees.LateReportOnlyAddsEvidence` | internal/core/worker.go:17-55 | a report without authority is accepted iff it is in scope and its record is, and then adds that record and changes nothing else |
| `Guarantees.ReportAppliesExactly` | internal/core/worker.go:17-55 | a report advances its operation iff it is in scope, new, on time, and its attempt is live in an executing operation |
| `Guarantees.GenerationsExact` | internal/core/store.go:191-229 | the attempts of an operation are numbered 1 to its lease generation without gap or repetition |
| `Guarantees.RetriesAreProven` | internal/core/store.go:338-359 | superseded attempts have a retry-safe verification; retry links stay in the operation and point to smaller generations |
| `Guarantees.StartNeedsProof` | internal/core/store.go:191-229 | whenever an attempt starts, every earlier attempt of the operation had been proven retryable |
| `Guarantees.GenerationNeverExhausted` | internal/state/machine.go:65-87 | twice the generation plus one never exceeds the revision, so the overflow branch is never taken |
| `Guarantees.ReservationsExact` | internal/core/store.go:248-252 | the reservation table is exactly the scopes of mutations in flight, each with the active attempt, lease and generation |
| `Guarantees.MutationsDisjoint` | internal/core/store.go:218-224 | two mutations in flight share no scope |
| `Guarantees.StartsExactly` | internal/core/store.go:191-229 | an attempt starts iff its request is fresh and current and no operation in flight holds a scope it needs |
| `Guarantees.OutcomesAreProven` | internal/core/store.go:338-359 | a verdict state implies a stored, complete proof about the current generation |
| `Guarantees.OutcomesAreFinal` | internal/core/store.go:338-359 | no decision undoes an outcome, reopens a task or loses a proof |
| `Guarantees.ClosedTasksAreDone` | internal/core/retention.go:20-59 | a closed task has no pending work in any reachable state, and a completed one only succeeded operations |
| `Guarantees.FinalizesExactly` | internal/core/retention.go:20-59 | a task closes iff it is open, current, non-empty, and every operation has a verdict |
| `Guarantees.FinalizedVerdict` | internal/core/retention.go:20-59 | it closes as failed iff some operation failed, and nothing but the task changes |
| `Exactness.VerdictExactly` | internal/core/store.go:306-359 | each of the four verdicts: applied iff the verification is admissible, the caller current and the state allows it; satisfied gives succeeded, terminal failed, retryable ready, each without active attempt or scope; inconclusive gives unknown with both kept |
| `Exactness.NotStartedExactly` | internal/core/store.go:329-359 | an attempt is marked as not started iff the verification is admissible, retryable and retry-safe; the operation is then ready and its scopes are free |
| `Exactness.ReadyExactly` | internal/core/store.go:180-190 | an operation becomes ready iff it is planned and the caller current; nothing else changes |
| `Exactness.VerificationBeginsExactly` | internal/core/store.go:258-268 | verification begins iff the operation executes or is unknown; attempt and scopes stay, an executing attempt becomes reported |
| `Exactness.UnknownExactly` | internal/core/store.go:269-275 | certainty is lost iff the operation executes or is being verified; attempt and scopes stay |
| `Exactness.StartLeaves` | internal/core/store.go:191-229 | a start leaves the next generation running under its lease and owner, and reserves exactly the scopes of a mutation for it |
| `Exactness.ConflictRefused` | internal/core/store.go:218-224 | a fresh and current start is refused iff a mutation in flight holds one of its scopes, with that error |
| `Exactness.EvidenceExactly` | internal/core/store.go:276-305 | evidence is accepted iff it is valid, new, about stored work of one open task, and is the only thing added |
| `Exactness.InvalidatesExactly` | internal/core/recovery.go:124-177 | a withdrawal succeeds iff the attempt is active, not withdrawn before, the caller current and the observation new and about it; the whole state after it, with reason and observation in the revocation |
| `Exactness.ReportAnswersExactly` | internal/core/worker.go:17-55 | what a report in scope is told: kept as evidence only without authority or after the operation moved on, refused when late, otherwise applied, with the whole state after it |
| `Exactness.LostAuthorityIsStale` | internal/core/store.go:360-387 | without authority over a stored operation the answer is stale ownership |
| `Exactness.TaskCreatedExactly` | internal/core/store.go:155-161 | a task is created iff it is named, dated and unknown |
| `Exactness.OperationCreatedExactly` | internal/core/store.go:162-179 | an operation is created iff its descriptor is valid, it is unknown and its task is open |
| `Exactness.DecisionsTakeEffect` | internal/core/store.go:155-387 | every decision that goes through does what its name says, from a state in which it may |
| `Dispatching.DecisionKeeps` | internal/core/store.go:155-359 | every decision keeps the invariant and all that must be remembered |
| `Dispatching.StartAttemptKeeps` | internal/core/store.go:191-229 | starting an attempt with its reservations keeps the invariant |
| `Dispatching.InvalidateAttemptKeeps` | internal/core/recovery.go:124-177 | invalidation keeps the invariant, makes the operation unknown and stores the revocation |
| `Dispatching.FinalizeTaskKeeps` | internal/core/retention.go:20-59 | closing a task keeps the invariant |
| `Dispatching.RegisterMessageKeeps` | internal/core/store.go:89-154 | registering a message keeps the invariant |
| `Dispatching.ReserveAllExact` | internal/core/store.go:218-224 | reserving a list of scopes succeeds iff all are free, and then adds exactly these |
| `Preservation.TransitionKeeps` | internal/core/store.go:230-257 | a justified transition of operation, attempt and reservations keeps the invariant |
| `Preservation.ApplyKeeps` | internal/core/store.go:338-359 | applying a verdict stores the verification that justifies the new state |
| `Machine.Transition` | internal/state/machine.go:42-63 | a transition succeeds only on the current revision along the table, keeps descriptor and generation, and drops the active attempt only on leaving flight |
| `Shrinking.ShrinkKeepsInv` | internal/persistence/memory/retention.go:172-203 | removing whole graphs of settled operations keeps the invariant |
| `Shrinking.GraphRemovalRows` | internal/persistence/memory/retention.go:102-129 | deleting a graph removes exactly the rows counted for it |
| `Collecting.CollectAccounts` | internal/persistence/retention.go:69-148 | a batch never exceeds its budget, and its row count is the drop in stored rows |
| `Collecting.CollectSpares` | internal/persistence/retention.go:69-148 | every operation, task and message that left belonged to an old terminal task whose messages have all lapsed and name no operation or attempt of another task still stored (or was a lapsed message of nobody) |
| `Collecting.CollectProgresses` | internal/persistence/retention.go:44-153 | a batch that asks to be continued deleted a row or advanced the cursor |
| `Collecting.PassDecreases` | internal/persistence/retention.go:44-153 | continuing makes the pair of stored rows and tasks past the cursor smaller, so a pass ends |
| `Collecting.CollectReaches` | internal/persistence/retention.go:64-153 | a due task is removed or still lies past the cursor of a batch that must be continued |
| `Collecting.FullPassComplete` | internal/persistence/retention.go:44-153 | a full pass removes every due task |
| `Reclaiming.CollectsExactly` | internal/persistence/retention.go:28-31 | a consistent store is collected iff the clock is set and the budget is from 1 to 100 tasks and 1 to 10000 rows |
| `Reclaiming.AcceptedRecord` | internal/core/store.go:146-153 | the record of an accepted message names its work and expires at the later end of its two windows |
| `Reclaiming.AcceptedLapses` | internal/persistence/retention.go:44-63 | one window and the clock skew after its acceptance, a full pass forgets a message that is nobody's |
| `Reclaiming.OrphanCollected` | internal/persistence/retention.go:44-63 | a batch deletes a lapsed message whose task, operation and attempt are unknown, or asks to be continued |
| `Reclaiming.PassForgets` | internal/persistence/retention.go:44-63 | a full pass leaves no such message |
| `Reclaiming.PassReclaims` | internal/persistence/retention.go:64-153 | a full pass from the start removes every task closed beyond retention that no message protects and whose operations fit a batch, with all its operations |
| `Reclaiming.VisitedAreCounted` | internal/persistence/retention.go:87-110 | unless the budget ends it, a visit counts each operation once, as deleted or as oversized |
| `Reclaiming.CollectCounts` | internal/persistence/retention.go:69-153 | the counters are the drops in operations, tasks and messages; a batch that ends the pass deferred exactly the old tasks left past its cursor, and without an oversized operation each of them is protected by a message |
| `Memory.Tx.InsertTask` | internal/persistence/memory/memory.go:158 | inserts or refuses a duplicate, and refuses on a read transaction |
| `Memory.Tx.InsertOperation` | internal/persistence/memory/memory.go:159-164 | needs its task, refuses a duplicate |
| `Memory.Tx.UpdateOperation` | internal/persistence/memory/memory.go:165-183 | compare-and-swap on the revision with an immutable descriptor |
| `Memory.Tx.InsertAttempt` | internal/persistence/memory/memory.go:184-191 | the loop over leases refuses a lease that is in use |
| `Memory.Tx.UpdateAttempt` | internal/persistence/memory/memory.go:192-205 | the identity of an attempt never changes |
| `Memory.Tx.Reserve` | internal/persistence/memory/memory.go:213-218 | a scope is reserved once |
| `Memory.Tx.Release` | internal/persistence/memory/memory.go:219-229 | the loop removes exactly the reservations of one operation |
| `Memory.Tx.OperationsAfter` | internal/persistence/memory/memory.go:231-250 | the first identifiers past the cursor, ascending |
| `Memory.Tx.UpdateTask` | internal/persistence/memory/retention.go:24-40 | compare-and-swap on the task revision |
| `Memory.Tx.TaskSummary` | internal/persistence/memory/retention.go:41-65 | the counting loop over an unordered map: operations, failures, cancellations, and pending as unresolved plus reserving operations, positive iff something is pending |
| `Memory.Tx.TerminalTasksAfter` | internal/persistence/memory/retention.go:66-85 | the first old terminal tasks past the cursor, ascending |
| `Memory.Tx.TaskOperations` | internal/persistence/memory/retention.go:86-101 | the first operations of a task, ascending |
| `Memory.Tx.OperationRows` | internal/persistence/memory/retention.go:102-129 | the number of rows of a graph, capped one above the limit |
| `Memory.Tx.ExpiredMessages` | internal/persistence/memory/retention.go:130-152 | the first lapsed messages of a task, or of no task, ascending |
| `Memory.Tx.TaskHasMessages` | internal/persistence/memory/retention.go:153-160 | whether a task still has messages |
| `Memory.Tx.TaskMessagesSafe` | internal/persistence/memory/retention.go:161-171 | whether every message of a task may be dropped |
| `Memory.Tx.DeleteOperationGraph` | internal/persistence/memory/retention.go:172-203 | removes the whole graph in place, or nothing when a reservation is left |
| `Memory.Tx.DeleteMessages` | internal/persistence/memory/retention.go:204-212 | removes exactly the listed messages |
| `Memory.Tx.DeleteTask` | internal/persistence/memory/retention.go:213-230 | removes a task without operations and messages |
| `Memory.Tx.SetMessageFloor` | internal/persistence/memory/retention.go:12-20 | the floor only rises |
| `Primitives.FirstUpdateWins` | internal/persistence/memory/memory.go:165-183 | of two updates that saw the same revision the second is refused; the descriptor never changes |
| `Primitives.FirstTaskUpdateWins` | internal/persistence/memory/retention.go:24-40 | the same for tasks |
| `Primitives.IdentityIsFixed` | internal/persistence/memory/memory.go:192-205 | an attempt can be updated iff operation, lease, generation and owner stay |
| `Primitives.LeaseIsTakenOnce` | internal/persistence/memory/memory.go:184-191 | once taken, neither the lease nor the identifier of an attempt is given again |
| `Primitives.RecordsAreInsertedOnce` | internal/persistence/memory/memory.go:206-212 | no evidence, verification, revocation or message is replaced by an insertion |
| `Primitives.WorkIsInsertedOnce` | internal/persistence/memory/memory.go:158-164 | nor a task or an operation, which needs its task |
| `Primitives.ReleasesExactly` | internal/persistence/memory/memory.go:219-229 | releasing frees exactly the scopes of its operation |
| `Primitives.ReservedUntilReleased` | internal/persistence/memory/memory.go:213-229 | a scope has one holder until that holder, and no other, releases it |
| `Primitives.FloorIsHighest` | internal/persistence/memory/retention.go:12-20 | the message floor is the highest ever set, in any order |
| `Core.Transaction.RegisterMessage` | internal/core/store.go:89-154 | the decision on messages performed in place, equal to its function |
| `Core.Transaction.CreateOperation` | internal/core/store.go:162-179 | creation under an open task, with the descriptor check |
| `Core.Transaction.Transition` | internal/core/store.go:230-257 | operation, active attempt and reservations move together |
| `Core.Transaction.StartAttempt` | internal/core/store.go:191-229 | attempt, reservations and operation written in the source's order, equal to the function |
| `Core.Transaction.ReserveAll` | internal/core/store.go:218-224 | the reservation loop ends with all scopes reserved, or with the error of the first one that is taken |
| `Core.Transaction.RegisterEvidence` | internal/core/store.go:276-305 | evidence stays inside one task, operation and attempt |
| `Core.Transaction.ValidateVerification` | internal/core/store.go:306-328 | the loop over references with its `seen` map |
| `Core.Transaction.Apply` | internal/core/store.go:338-359 | the verdict and the transition it causes |
| `Core.Transaction.CheckActive` | internal/core/store.go:360-387 | the authority check, without any write |
| `Core.Transaction.RecordWorkerReport` | internal/core/worker.go:17-55 | active and late reports |
| `Core.Transaction.InvalidateAttempt` | internal/core/recovery.go:124-177 | evidence, revocation, attempt and operation in one decision |
| `Core.Transaction.FinalizeTask` | internal/core/retention.go:20-59 | the summary decides whether and how a task closes |
| `Core.Transaction.Perform` | internal/core/store.go:449-579 | every wrapper poisons the transaction on the first error and refuses from then on |
| `Records.CheckScopes` | internal/protocol/validate.go:35-67 | the scope loop accepts exactly the lists without blank or, after trimming, equal scopes |
| `Collector.Batch.PruneMessages` | internal/persistence/retention.go:44-57 | pruning within the remaining budget |
| `Collector.Batch.VisitOperations` | internal/persistence/retention.go:92-123 | the inner loop over operations with its three exits |
| `Collector.Batch.VisitTask` | internal/persistence/retention.go:69-148 | one task, with every exit of the loop body |
| `Collector.CollectIn` | internal/persistence/retention.go:28-159 | the whole batch in place equals the specification function |
| `Store.Repository.WriteValue` | internal/core/store.go:46-62 | commits the composition of all decisions or nothing, even when the callback ignores errors, fails on its own, or its context is cancelled before or during the call |
| `Store.Repository.ProcessMessage` | internal/core/store.go:75-88 | registration and callback commit together, a duplicate skips the callback, a context cancelled before or during the call commits nothing |
| `Store.Repository.View` | internal/persistence/memory/memory.go:63-97 | whatever a read callback writes, the store stays as it is |
| `Store.Repository.Finish` | internal/persistence/memory/memory.go:84-97 | the private copy replaces the store only after success with a live context |
| `Store.Repository.Collect` | internal/persistence/retention.go:28-159 | collection on the repository commits its result or nothing |
| `Store.Repository.InspectRecovery` | internal/core/recovery.go:40-105 | inspection returns the specified page and changes nothing |
| `Recovery.InspectPage` | internal/core/recovery.go:40-105 | the loop over a page, with its integrity checks, equals its function |
| `Recovery.InspectRecoverySucceeds` | internal/core/recovery.go:40-105 | on a consistent store no integrity branch is reachable, and each item describes its operation truthfully |
| `Recovery.PageExactly` | internal/core/recovery.go:40-105 | on any store, sound or damaged, a page is delivered iff its limit is from 1 to 100 and each of its operations agrees with its task, its attempt and its reservations |
| `RecoveryClasses.ClassSaysWhatIsOpen` | internal/core/recovery.go:53-70 | the class tells which decisions are open: pending may become ready, ready may start, one to evaluate may lose certainty, an unknown one may only be verified; cancelled never occurs |
| `RecoveryClasses.ClassSaysWhatIsProven` | internal/core/recovery.go:53-70 | pending has no attempt; evaluate and unknown have the attempt in flight, unknown nobody with authority; completed and failed have a stored proof of that verdict and no further move |
| `Recovery.ListingIsSorted` | internal/core/recovery.go:40-105 | the pages concatenate to the ascending list past the cursor |
| `Recovery.ListingIsComplete` | internal/core/recovery.go:40-105 | from the empty cursor the pages list the whole store |
| `Runner.ActKeeps` | internal/execution/runner.go:98-255 | every step of any interleaving keeps the invariant of the store |
| `Runner.OfferInserts` | internal/execution/runner.go:142-164 | an accepted offer inserted its own attempt, which did not exist before |
| `Runner.StepKeeps` | internal/execution/runner.go:98-303 | the system invariant (each call owns its attempt, starts are unique) is inductive |
| `Runner.StartedAtMostOnce` | internal/execution/runner.go:96-255 | in any interleaving with lost acknowledgements a worker starts at most once per attempt and only after the attempt was committed |
| `Runner.StartedMutationsDisjoint` | internal/execution/runner.go:142-164 | two started mutation attempts that nothing has settled share no scope |
| `Runner.UnreconciledIsActive` | internal/execution/runner.go:282-303 | an attempt that nothing settled is the active one of an operation in flight |
| `Runner.UnknownMeansWithdrawn` | internal/execution/runner.go:282-303 | an unknown outcome without an error means that this call's own commit revoked the attempt and set the operation unknown |
| `Runner.WithdrawnStaysWithdrawn` | internal/execution/runner.go:282-303 | and the attempt stays revoked and without authority for the rest of the run |
| `Runner.GateChecksAuthority` | internal/execution/runner.go:172-208 | the gate passes only with authority before and after, unless that heartbeat message was already stored |
| `Delivering.OfferExactly` | internal/execution/runner.go:132-164 | an offer is accepted as new iff it is valid, in the window, unknown, its attempt fresh and current and its scopes free; everything it leaves |
| `Delivering.OfferActs` | internal/execution/runner.go:132-164 | an acknowledged offer that was not denied is accepted iff it fits, and the job has the next generation |
| `Delivering.OfferedAgain` | internal/execution/runner.go:156-158 | the same offer again is a duplicate: no attempt begins and nothing is stored |
| `Delivering.DenialActs` | internal/execution/runner.go:132-164 | a denied offer stores its message and a record without attempt, and is answered as rejected, iff it is welcome |
| `Delivering.CheckExactly` | internal/execution/runner.go:109-131 | the check passes iff nobody refuses and, for an operation ready again, the request names the attempt of the generation seen |
| `Delivering.RetryNamesPredecessor` | internal/execution/runner.go:109-164 | read, checked and offered without a step in between, an operation ready again gets generation g+1 only for a request that names its attempt of generation g, which the new attempt records |
| `Delivering.RetryIsAccepted` | internal/execution/runner.go:109-164 | and a request that names it is accepted iff it fits the store |
| `Addressing.RetryRuleBetween` | internal/execution/runner.go:109-164 | with any steps of other calls between check and offer the rule holds when no attempt of the operation began meanwhile |
| `Addressing.JobsAreAddressed` | internal/execution/runner.go:109-164 | in every interleaving an accepted job is about a stored operation under its own descriptor |
| `Delivering.BeatNamesDiffer` | internal/execution/runner.go:172-205 | no heartbeat takes the name of another, of the acceptance, the result or the loss |
| `Delivering.BeatExactly` | internal/execution/runner.go:172-205 | a heartbeat is stored iff the claim has authority, its clock is in the window and its name fresh |
| `Delivering.GateActs` | internal/execution/runner.go:206-209 | a gate with a fresh name passes iff its heartbeat fits, and otherwise the attempt is given up |
| `Delivering.BeatActs` | internal/execution/runner.go:172-205 | a heartbeat of a running worker is counted iff it is stored; otherwise nothing changes |
| `Delivering.ReportExactly` | internal/execution/runner.go:264-281 | a report is applied iff it is on time, in the window, new and its claim live in an executing operation; everything it leaves |
| `Delivering.ReportActs` | internal/execution/runner.go:232-255 | an acknowledged report tells its call that it was applied iff it was |
| `Delivering.ReportIsLostOrDuplicate` | internal/execution/runner.go:232-255 | a report whose commit fails or is not acknowledged gives the attempt up with an error; one stored before is a duplicate |
| `Delivering.SetbacksAreLosses` | internal/execution/runner.go:206-255 | a refused gate, a failed worker and a refused report lead to giving the attempt up, with an error only for the report |
| `Delivering.StillMine` | internal/execution/runner.go:282-290 | a call that gives up an attempt which is still active goes on to withdraw it at the revision it read |
| `Delivering.LossIsWithdrawn` | internal/execution/runner.go:282-303 | giving up an attempt that is still active ends with the outcome unknown iff the clock is set, it was not withdrawn before and the observation is new |
| `Delivering.WithdrawActs` | internal/execution/runner.go:282-303 | the withdrawal succeeds iff the operation has not moved since it was read; the whole state after it, with the reason |
| `Execution.Call.Heartbeat` | internal/execution/runner.go:172-205 | the closure refuses when closed, cancelled, late, denied or exhausted, and otherwise commits one heartbeat |
| `Execution.Call.Prepare` | internal/execution/runner.go:109-131 | reading and checking are steps of the system, including a failing read of the operation or of the prior attempt |
| `Execution.Call.Offer` | internal/execution/runner.go:132-164 | the offer is the offer step with its three outcomes, for every fate of the commit and its acknowledgement |
| `Execution.Call.Gate` | internal/execution/runner.go:206-209 | the gate is the gate step |
| `Execution.Call.Run` | internal/execution/runner.go:210-250 | the worker is started exactly once, heartbeats and end are steps of the system, and the closure ends closed |
| `Execution.Call.Report` | internal/execution/runner.go:264-281 | the report is the report step |
| `Execution.Call.Uncertain` | internal/execution/runner.go:282-303 | a failing read gives up; otherwise withdrawal happens only while the attempt is active, and is the withdraw step |
| `Execution.Call.Execute` | internal/execution/runner.go:98-255 | a whole call, with any failing read, lost commit or lost acknowledgement, is a run of the interleaved system, ends in a final phase and starts its worker at most once |
| `Framing.WriteAll` | internal/transport/process/wire.go:57-69 | all bytes are delivered in order iff every answer of the writer fits, otherwise a prefix and an error |
| `Framing.WriteFrame` | internal/transport/process/wire.go:71-85 | a frame gets out, header and body, iff its size is legal and every answer of the writer fits; otherwise at most a prefix of it |
| `Framing.WriteFrames` | internal/transport/process/wire.go:57-125 | a list of frames gets out iff all are legal and every answer fits, however little is taken each time; a reader of the stream then gets the same list and a clean end |
| `Framing.ReceiveBody` | internal/transport/process/wire.go:87-107 | reading equals the specification of the stream: a body, a clean end, or a wire error |
| `Framing.AnyChunkingDelivers` | internal/transport/process/wire.go:57-69 | whatever positive number of bytes a writer takes per call, its answers let every list of legal frames through |
| `Framing.LengthRoundTrip` | internal/transport/process/wire.go:77-90 | the big-endian length reads back |
| `Framing.RoundTrip` | internal/transport/process/wire.go:87-107 | the bytes of any list of legal frames read back as that list, followed by a clean end |
| `Framing.CutStream` | internal/transport/process/wire.go:87-107 | a stream cut anywhere yields the complete frames, then a clean end exactly at a boundary and a wire error elsewhere |
| `Framing.CutPosition` | internal/transport/process/wire.go:87-107 | every cut position lies in exactly one frame |
| `UniqueJson.CheckUnique` | internal/transport/process/wire.go:127-175 | the recursive descent over the decoder with its `seen` map equals the scan, and stops right after the value |
| `UniqueJson.ScanExact` | internal/transport/process/wire.go:127-175 | on the tokens of a value it succeeds iff names are unique after case folding at every level and nothing is too deep, and consumes exactly the value |
| `UniqueJson.FrameCheckExact` | internal/transport/process/wire.go:113-120 | at the top: unique names at every level and at most 32 containers around any value |
| `Exchange.Converse` | internal/transport/process/worker.go:196-259 | the controller's loop equals the specification of the dialogue |
| `Exchange.ClaimExact` | internal/transport/process/worker.go:196-259 | a claim is returned iff the stream is at most 32 heartbeats, one result within limits and a clean end, all bound to the job, with every call and write succeeding and one continue frame per heartbeat |
| `Exchange.FaultExact` | internal/transport/process/worker.go:196-259 | the conversation ends with an error class other than a wire error iff answered heartbeats are followed by a refused heartbeat, a result beyond its limits, or an error frame with that known reason |
| `Exchange.Serve` | internal/transport/process/serve.go:95-128 | the child's side with its heartbeat counter |
| `Exchange.ServedExact` | internal/transport/process/serve.go:95-128 | the child sends one heartbeat per checkpoint while each is answered, and then its outcome, the exceeded budget after 32, or a provider failure when an answer is missing or wrong |
| `Exchange.DialogueIsJoint` | internal/transport/process/serve.go:95-128 | the dialogue, successful or not, is what both ends do on each other's output: the child reads the continue frames the controller sent, the controller what the child sends in return |
| `Exchange.JointIsDialogue` | internal/transport/process/serve.go:95-128 | the two ends fit together in no other way |
| `Exchange.DialogueDelivers` | internal/transport/process/worker.go:196-259 | undisturbed, the dialogue ends with the provider's own claim or the class of its error |
| `Exchange.EndsDeliver` | internal/transport/process/worker.go:196-259 | the controller's and the child's own loops, joined and undisturbed, fit with exactly one number of continue frames, and the controller then ends with the provider's own claim or the class of its error |
| `Exchange.DialogueHonest` | internal/transport/process/worker.go:196-259 | whatever goes wrong in the dialogue, a claim that arrives is the provider's own and within limits |
| `Exchange.EndsHonest` | internal/transport/process/worker.go:196-259 | the same for the two loops, whatever the child reads and however its stream ends |
| `Slots.Worker.Acquire` | internal/transport/process/worker.go:132-145 | takes a slot iff one is free and counts the run |
| `Slots.Worker.Release` | internal/transport/process/worker.go:147-155 | uncounts the run, closes the idle channel at zero, frees the slot |
| `Slots.Worker.Run` | internal/transport/process/worker.go:263-380 | an exit before asking for a slot changes nothing; on every later exit the slot is released here or handed over, never both |
| `Slots.SlotSafety` | internal/transport/process/worker.go:120-155 | under every interleaving active <= slots <= maximum, the idle channel is closed iff nothing is active and never twice, each run releases once, and a waiter that returned saw zero |
| `Slots.WaitersWake` | internal/transport/process/worker.go:120-155 | a waiter can wake iff the counter has been zero since it began to wait, so no idle moment is missed |
| `Slots.RefusedOnlyWhenFull` | internal/transport/process/worker.go:132-145 | a run is refused iff every slot is held |
| `Slots.AdmittedRunsProgress` | internal/transport/process/worker.go:263-380 | an admitted run is never stuck and gets nearer to having released |
| `LocalCheck.FindProof` | internal/localcheck/service.go:246-258 | the evidence loop finds intent and report iff they are there |
| `LocalStore.DecisionAdds` | internal/localcheck/service.go:161-191 | what each decision of a check may add, and the one way an operation may move |
| `LocalStore.VerdictCommit` | internal/localcheck/service.go:266-277 | the verdict transaction closes the operation, stores its one verification with the observation, and leaves every other reported check alone |
| `CrashSafety.FileAppears` | internal/localcheck/service.go:102-121 | a file that appears where there was none disturbs nothing |
| `CrashSafety.JudgeStep` | internal/localcheck/service.go:259-277 | committing a verdict, acknowledged or not, keeps the invariant |
| `Driving.DriveStep` | internal/localcheck/service.go:190-215 | every step of the runner inside a check keeps the invariant |
| `Driving.ReportSettles` | internal/localcheck/service.go:196-212 | a check whose report was applied is settled: reported, with its record stored, and no call left that could withdraw it |
| `LocalGuarantees.StepKeeps` | internal/localcheck/service.go:143-291 | the invariant of the crash-prone system is inductive over every step |
| `LocalGuarantees.CommandRunsAtMostOnce` | internal/localcheck/service.go:143-221 | over any interleaving of checks, recoveries and crashes a task's command is launched at most once, and only for a committed attempt |
| `LocalGuarantees.VerdictMeansOwnReceipt` | internal/localcheck/service.go:223-279 | a verdict exists only if the command exited and the receipt on file is its own; succeeded iff that receipt says exit 0 and inputs match |
| `LocalGuarantees.RecoveredExactly` | internal/localcheck/service.go:346-359 | from a saved receipt a recovery gets through iff its clock allows, and then reaches the final state of that receipt |
| `LocalGuarantees.RecoveryFinishes` | internal/localcheck/service.go:346-359 | from every state reachable after a complete receipt, whatever crashed, recovery on time reaches the same final task and operation state and status; recovering again changes nothing |
| `LocalGuarantees.RecoveryRuns` | internal/localcheck/service.go:223-291 | that recovery is what an undisturbed call does step by step in the system |
| `LocalGuarantees.JudgedExactly` | internal/localcheck/service.go:259-277 | the verdict commits iff its clock is set and the receipt is inside the replay window |
| `LocalGuarantees.FinalizedExactly` | internal/localcheck/service.go:281-291 | closing the task needs only a clock, is idempotent, and gives the operation's verdict |
| `LocalGuarantees.OutcomeBased` | internal/localcheck/service.go:306-327 | behind a closed operation stands the receipt on file, its worker report and its observation |
| `LocalGuarantees.StatusExactly` | internal/localcheck/service.go:293-330 | on any store, a status is given iff task and operation are stored and a verdict comes with a good receipt and the controller's observation of it |
| `LocalGuarantees.RecoveryNeedsProof` | internal/localcheck/service.go:223-262 | on any store, recovery brings a waiting operation on only with a good receipt of the attempt that holds its lease, the intent for its configuration and the worker's report of it |
| `LocalNames.ReachedNames` | internal/localcheck/service.go:143-221 | in every reachable world each record and message bears the name of its task, which is a valid identifier |
| `LocalNames.UnknownIsFresh` | internal/localcheck/service.go:155-191 | so an unknown task has left no name behind |
| `LocalDelivery.CheckDelivers` | internal/localcheck/service.go:143-221 | from every reachable world in which the task is unknown, its workspace free and no file in the way, an undisturbed check on time launches its command, saves the receipt of that run, and ends with operation, task and status as the receipt says |
| `LocalDelivery.Concludes` | internal/localcheck/service.go:223-291 | with the receipt saved and the report applied the same call reaches the verdict |
| `Service.LocalService.SaveReceipt` | internal/localcheck/service.go:102-121 | a receipt file is never replaced, not even a torn one |
| `Service.LocalService.CloseTask` | internal/localcheck/service.go:281-291 | closing on the repository equals its function |
| `Service.LocalService.Verify` | internal/localcheck/service.go:223-279 | verification on the repository equals the recovery function; on an error the store is as before or has the verdict only |
| `Service.LocalService.Recover` | internal/localcheck/service.go:346-359 | recovery followed by the canonical status |

## Left out

- The SQLite backend, its SQL, migrations and pragmas: only its schema is used, as the source of constraints.
- Operating-system processes, pipes, signals, environments, paths and flags: a child is a stream of frames, the receipt directory a create-once map.
- SHA-256 and the JSON codec: message digests are an injective constructor, receipt digests a function assumed injective only where the lemma says so, and frame bodies are given to the dialogue already decoded, so an oversize child frame is not modelled there.
- Random identifiers, real timers and context machinery: identifiers and clock readings are inputs, cancellation is a choice.
- The grants, limits and capabilities of a policy: one flag says whether a check refuses.
- The sensitive-field filter of payloads: a payload carries the filter's answer.
- Standard-error limits, statistics, `Prepare`, `Load`, providers and reference verification: flat conditions without state.
- A callback's own control flow: it is the list of decisions it issues, and for reads the list of raw writes it attempts.
- Concurrency inside one repository: a transaction is one step, as the repository's lock makes it; the runner, the slots and the local check interleave such steps.
- What a worker does between heartbeats: a run is a list of heartbeat calls and an end.
- `Runner.StartedAtMostOnce`: holds while nothing is collected, because a collected attempt identifier may be used again.
- `LocalGuarantees.CommandRunsAtMostOnce`: likewise without collection; the collection of old receipts is not modelled.
- `Framing.ReceiveBody`: ends with the body of a frame; its UTF-8 check and strict decoding are left to the codec, its name check is `UniqueJson`.
- `Execution.Call.Execute`: one call by itself; other calls between its steps are in the step system of `Runner`.
- The input hashes and program checks of a local check: `inputsMatch` is an input, and a refused start is a failed run.
