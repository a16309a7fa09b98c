/** The memory backend. `Data` is the value of its maps; every primitive of the
    transaction is a function on `Data`, and `Tx` is the object that performs it
    in place. */
module Storage {
  import opened Basics
  import opened Records

  datatype Data = Data(
    messageFloor: int,
    revocations: map<Id, Revocation>,
    tasks: map<Id, Task>,
    ops: map<Id, Operation>,
    attempts: map<Id, Attempt>,
    evidence: map<Id, Evidence>,
    verifications: map<Id, Verification>,
    messages: map<Id, Message>,
    reservations: map<string, Reservation>)

  const EMPTY := Data(0, map[], map[], map[], map[], map[], map[], map[], map[])

  // ---- lookups --------------------------------------------------------------

  function Get<V>(m: map<Id, V>, k: Id): Result<V> {
    if k in m then Ok(m[k]) else Err(NotFound)
  }

  // ---- inserts and updates --------------------------------------------------

  function InsertTask(d: Data, v: Task): Result<Data> {
    if v.id in d.tasks then Err(DuplicateId) else Ok(d.(tasks := d.tasks[v.id := v]))
  }

  function InsertOperation(d: Data, v: Operation): Result<Data> {
    var _ :- Get(d.tasks, v.descriptor.taskId);
    if v.descriptor.id in d.ops then Err(DuplicateId) else Ok(d.(ops := d.ops[v.descriptor.id := v]))
  }

  /** Compare-and-swap on the revision; the descriptor is immutable. */
  function UpdateOperation(d: Data, v: Operation, expected: nat): Result<Data> {
    var prior :- Get(d.ops, v.descriptor.id);
    if prior.revision != expected then Err(RevisionConflict)
    else if v.revision != expected + 1 then Err(Integrity)
    else Ok(d.(ops := d.ops[v.descriptor.id := v.(descriptor := prior.descriptor)]))
  }

  predicate LeaseTaken(attempts: map<Id, Attempt>, lease: Id) {
    exists k :: k in attempts && attempts[k].leaseId == lease
  }

  function InsertAttempt(d: Data, v: Attempt): Result<Data> {
    if LeaseTaken(d.attempts, v.leaseId) then Err(DuplicateId)
    else if v.id in d.attempts then Err(DuplicateId)
    else Ok(d.(attempts := d.attempts[v.id := v]))
  }

  function UpdateAttempt(d: Data, v: Attempt): Result<Data> {
    var prior :- Get(d.attempts, v.id);
    if prior.operationId != v.operationId || prior.leaseId != v.leaseId || prior.generation != v.generation || prior.owner != v.owner
    then Err(Integrity)
    else Ok(d.(attempts := d.attempts[v.id := v]))
  }

  function InsertEvidence(d: Data, v: Evidence): Result<Data> {
    if v.id in d.evidence then Err(DuplicateId) else Ok(d.(evidence := d.evidence[v.id := v]))
  }

  function InsertVerification(d: Data, v: Verification): Result<Data> {
    if v.id in d.verifications then Err(DuplicateId) else Ok(d.(verifications := d.verifications[v.id := v]))
  }

  function InsertRevocation(d: Data, v: Revocation): Result<Data> {
    if v.attemptId in d.revocations then Err(DuplicateId) else Ok(d.(revocations := d.revocations[v.attemptId := v]))
  }

  function InsertMessage(d: Data, v: Message): Result<Data> {
    if v.id in d.messages then Err(DuplicateId) else Ok(d.(messages := d.messages[v.id := v]))
  }

  function Reserve(d: Data, v: Reservation): Result<Data> {
    if v.scope in d.reservations then Err(ConflictScope)
    else Ok(d.(reservations := d.reservations[v.scope := v]))
  }

  function Released(reservations: map<string, Reservation>, id: Id): map<string, Reservation> {
    map s | s in reservations && reservations[s].operationId != id :: reservations[s]
  }

  function Release(d: Data, id: Id): Data {
    d.(reservations := Released(d.reservations, id))
  }

  function UpdateTask(d: Data, v: Task, revision: nat): Result<Data> {
    var prior :- Get(d.tasks, v.id);
    if prior.revision != revision then Err(RevisionConflict)
    else if v.revision != revision + 1 then Err(Integrity)
    else Ok(d.(tasks := d.tasks[v.id := v]))
  }

  // ---- reads over whole maps ------------------------------------------------

  predicate OfTask(ops: map<Id, Operation>, task: Id, id: Id) {
    id in ops && ops[id].descriptor.taskId == task
  }

  function OperationsOf(d: Data, task: Id): set<Id> {
    set id | id in d.ops && OfTask(d.ops, task, id)
  }

  function InState(d: Data, task: Id, s: OperationState): set<Id> {
    set id | id in d.ops && OfTask(d.ops, task, id) && d.ops[id].state == s
  }

  predicate Reserved(reservations: map<string, Reservation>, op: Id) {
    exists s :: s in reservations && reservations[s].operationId == op
  }

  /** Some operation of the task is unresolved or still holds a reservation. */
  predicate HasPending(d: Data, task: Id) {
    exists id :: id in d.ops && OfTask(d.ops, task, id) &&
      (d.ops[id].state !in {Succeeded, Failed, OperationCancelled} || Reserved(d.reservations, id))
  }

  predicate Open(s: OperationState) {
    s !in {Succeeded, Failed, OperationCancelled}
  }

  function UnresolvedOf(d: Data, task: Id): set<Id> {
    set id | id in d.ops && OfTask(d.ops, task, id) && Open(d.ops[id].state)
  }

  function ReservingOf(d: Data, task: Id): set<Id> {
    set id | id in d.ops && OfTask(d.ops, task, id) && Reserved(d.reservations, id)
  }

  datatype TaskSummary = TaskSummary(operations: nat, pending: nat, failed: nat, cancelled: nat)

  /** What a summary says about the stored data. `pending` counts an operation
      twice when it is unresolved and reserved. */
  ghost predicate IsSummary(d: Data, task: Id, s: TaskSummary) {
    && s.operations == |OperationsOf(d, task)|
    && s.failed == |InState(d, task, Failed)|
    && s.cancelled == |InState(d, task, OperationCancelled)|
    && s.pending == |UnresolvedOf(d, task)| + |ReservingOf(d, task)|
    && (s.pending > 0 <==> HasPending(d, task))
  }

  function TasksAfter(d: Data, after: Id, cutoff: int): set<Id> {
    set id | id in d.tasks && Less(after, id) && Terminal(d.tasks[id].state) && Unix(d.tasks[id].updatedAt) < cutoff
  }

  function First<T>(xs: seq<T>, limit: nat): (ys: seq<T>)
    ensures ys <= xs
  {
    if |xs| > limit then xs[..limit] else xs
  }

  function OperationIdsAfter(d: Data, after: Id): set<Id> {
    set id | id in d.ops && Less(after, id)
  }

  predicate MatchesMessage(d: Data, task: Id, orphan: bool, v: Message) {
    if orphan then v.taskId !in d.tasks && v.operationId !in d.ops && v.attemptId !in d.attempts
    else v.taskId == task
  }

  predicate Lapsed(v: Message, now: int, floor: int) {
    v.expiresAt < now && Unix(v.issuedAt) < floor
  }

  function Expired(d: Data, task: Id, orphan: bool, now: int, floor: int): set<Id> {
    set k | k in d.messages && MatchesMessage(d, task, orphan, d.messages[k]) && Lapsed(d.messages[k], now, floor)
  }

  predicate HasMessages(d: Data, task: Id) {
    exists k :: k in d.messages && d.messages[k].taskId == task
  }

  /** A missing operation or attempt reads as its zero value, whose task is "". */
  function TaskOfOperation(d: Data, op: Id): Id {
    if op in d.ops then d.ops[op].descriptor.taskId else ""
  }

  predicate UnsafeMessage(d: Data, task: Id, now: int, floor: int, v: Message) {
    && v.taskId == task
    && (!Lapsed(v, now, floor)
        || (v.operationId in d.ops && TaskOfOperation(d, v.operationId) != task)
        || (v.attemptId in d.attempts && TaskOfOperation(d, d.attempts[v.attemptId].operationId) != task))
  }

  predicate MessagesSafe(d: Data, task: Id, now: int, floor: int) {
    forall k :: k in d.messages ==> !UnsafeMessage(d, task, now, floor, d.messages[k])
  }

  // ---- stored rows ----------------------------------------------------------

  /** One key per stored row; `operation_scopes` and `verification_evidence` rows
      are counted like the others, reservations and the floor are not. */
  datatype Row =
    | TaskRow(id: Id)
    | OpRow(id: Id)
    | ScopeRow(id: Id, ordinal: nat)
    | AttemptRow(id: Id)
    | EvidenceRow(id: Id)
    | VerificationRow(id: Id)
    | LinkRow(id: Id, ordinal: nat)
    | RevocationRow(id: Id)
    | MessageRow(id: Id)

  function ScopeRows(id: Id, n: nat): (s: set<Row>)
    ensures |s| == n
    ensures forall r :: r in s <==> r.ScopeRow? && r.id == id && r.ordinal < n
  {
    if n == 0 then {} else ScopeRows(id, n - 1) + {ScopeRow(id, n - 1)}
  }

  function LinkRows(id: Id, n: nat): (s: set<Row>)
    ensures |s| == n
    ensures forall r :: r in s <==> r.LinkRow? && r.id == id && r.ordinal < n
  {
    if n == 0 then {} else LinkRows(id, n - 1) + {LinkRow(id, n - 1)}
  }

  function AttemptsOf(d: Data, op: Id): set<Id> {
    set k | k in d.attempts && d.attempts[k].operationId == op
  }

  function EvidenceOf(d: Data, op: Id): set<Id> {
    set k | k in d.evidence && d.evidence[k].operationId == op
  }

  /** The operation a row belongs to, if any. */
  function Owner(d: Data, r: Row): Option<Id> {
    match r
    case TaskRow(_) => None
    case MessageRow(_) => None
    case OpRow(id) => Some(id)
    case ScopeRow(id, _) => Some(id)
    case AttemptRow(id) => if id in d.attempts then Some(d.attempts[id].operationId) else None
    case EvidenceRow(id) => if id in d.evidence then Some(d.evidence[id].operationId) else None
    case VerificationRow(id) => if id in d.verifications then Some(d.verifications[id].operationId) else None
    case LinkRow(id, _) => if id in d.verifications then Some(d.verifications[id].operationId) else None
    case RevocationRow(id) => if id in d.revocations then Some(d.revocations[id].operationId) else None
  }

  predicate HasRow(d: Data, r: Row) {
    match r
    case TaskRow(id) => id in d.tasks
    case OpRow(id) => id in d.ops
    case ScopeRow(id, n) => id in d.ops && n < |d.ops[id].descriptor.conflictScope|
    case AttemptRow(id) => id in d.attempts
    case EvidenceRow(id) => id in d.evidence
    case VerificationRow(id) => id in d.verifications
    case LinkRow(id, n) => id in d.verifications && n < |d.verifications[id].evidenceIds|
    case RevocationRow(id) => id in d.revocations
    case MessageRow(id) => id in d.messages
  }

  ghost function AllScopeRows(ops: map<Id, Operation>): (s: set<Row>)
    ensures forall r :: r in s <==> r.ScopeRow? && r.id in ops && r.ordinal < |ops[r.id].descriptor.conflictScope|
  {
    set id, n | id in ops && 0 <= n < |ops[id].descriptor.conflictScope| :: ScopeRow(id, n)
  }

  ghost function AllLinkRows(verifications: map<Id, Verification>): (s: set<Row>)
    ensures forall r :: r in s <==> r.LinkRow? && r.id in verifications && r.ordinal < |verifications[r.id].evidenceIds|
  {
    set id, n | id in verifications && 0 <= n < |verifications[id].evidenceIds| :: LinkRow(id, n)
  }

  ghost function WorkRows(d: Data): (s: set<Row>)
    ensures forall r :: r in s <==> (r.TaskRow? || r.OpRow? || r.ScopeRow? || r.AttemptRow?) && HasRow(d, r)
  {
    (set id | id in d.tasks :: TaskRow(id))
    + (set id | id in d.ops :: OpRow(id))
    + AllScopeRows(d.ops)
    + (set id | id in d.attempts :: AttemptRow(id))
  }

  ghost function RecordRows(d: Data): (s: set<Row>)
    ensures forall r :: r in s <==> (r.EvidenceRow? || r.VerificationRow? || r.LinkRow?) && HasRow(d, r)
  {
    (set id | id in d.evidence :: EvidenceRow(id))
    + (set id | id in d.verifications :: VerificationRow(id))
    + AllLinkRows(d.verifications)
  }

  ghost function Rows(d: Data): (s: set<Row>)
    ensures forall r :: r in s <==> HasRow(d, r)
  {
    WorkRows(d) + RecordRows(d)
    + (set id | id in d.revocations :: RevocationRow(id))
    + (set id | id in d.messages :: MessageRow(id))
  }

  /** The rows that leave with an operation. */
  ghost function GraphRows(d: Data, op: Id): (s: set<Row>)
    ensures forall r :: r in s <==> HasRow(d, r) && Owner(d, r) == Some(op)
  {
    set r | r in Rows(d) && Owner(d, r) == Some(op)
  }

  // ---- deletions ------------------------------------------------------------

  function WithoutGraph(d: Data, op: Id): Data {
    d.(revocations := map k | k in d.revocations && d.revocations[k].operationId != op :: d.revocations[k],
       verifications := map k | k in d.verifications && d.verifications[k].operationId != op :: d.verifications[k],
       evidence := map k | k in d.evidence && d.evidence[k].operationId != op :: d.evidence[k],
       attempts := map k | k in d.attempts && d.attempts[k].operationId != op :: d.attempts[k],
       ops := d.ops - {op})
  }

  function DeleteOperationGraph(d: Data, op: Id): Result<Data> {
    if Reserved(d.reservations, op) then Err(Integrity) else Ok(WithoutGraph(d, op))
  }

  function DeleteMessages(d: Data, ids: set<Id>): Data {
    d.(messages := d.messages - ids)
  }

  function DeleteTask(d: Data, task: Id): Result<Data> {
    if OperationsOf(d, task) != {} || HasMessages(d, task) then Err(Integrity)
    else Ok(d.(tasks := d.tasks - {task}))
  }

  function SetMessageFloor(d: Data, v: int): Data {
    if v > d.messageFloor then d.(messageFloor := v) else d
  }
}
