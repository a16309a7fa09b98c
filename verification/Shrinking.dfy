/** What deletion may do to the stored data: whole operation graphs, tasks and
    messages leave, and whatever stays is untouched. */
module Shrinking {
  import opened Basics
  import opened Records
  import opened Storage
  import opened Invariant

  ghost predicate Sub<V>(m: map<Id, V>, m': map<Id, V>) {
    forall k :: k in m' ==> k in m && m'[k] == m[k]
  }

  function AttemptsWithin(m: map<Id, Attempt>, ops: set<Id>): map<Id, Attempt> {
    map k | k in m && m[k].operationId in ops :: m[k]
  }

  function EvidenceWithin(m: map<Id, Evidence>, ops: set<Id>): map<Id, Evidence> {
    map k | k in m && m[k].operationId in ops :: m[k]
  }

  function VerificationsWithin(m: map<Id, Verification>, ops: set<Id>): map<Id, Verification> {
    map k | k in m && m[k].operationId in ops :: m[k]
  }

  function RevocationsWithin(m: map<Id, Revocation>, ops: set<Id>): map<Id, Revocation> {
    map k | k in m && m[k].operationId in ops :: m[k]
  }

  /** The attempts, evidence, verifications and revocations are exactly those of
      the operations that stay. */
  ghost predicate WholeGraphs(d: Data, d': Data) {
    && d'.attempts == AttemptsWithin(d.attempts, d'.ops.Keys)
    && d'.evidence == EvidenceWithin(d.evidence, d'.ops.Keys)
    && d'.verifications == VerificationsWithin(d.verifications, d'.ops.Keys)
    && d'.revocations == RevocationsWithin(d.revocations, d'.ops.Keys)
  }

  ghost predicate Shrunk(d: Data, d': Data) {
    && d'.messageFloor == d.messageFloor && d'.reservations == d.reservations
    && Sub(d.tasks, d'.tasks) && Sub(d.ops, d'.ops) && Sub(d.messages, d'.messages)
    && WholeGraphs(d, d')
  }

  // ---- shrinking is a preorder ----------------------------------------------

  /** Every row of a graph names an operation that is stored. */
  ghost predicate Owned(d: Data) {
    && (forall k :: k in d.attempts ==> d.attempts[k].operationId in d.ops)
    && (forall k :: k in d.evidence ==> d.evidence[k].operationId in d.ops)
    && (forall k :: k in d.verifications ==> d.verifications[k].operationId in d.ops)
    && (forall k :: k in d.revocations ==> d.revocations[k].operationId in d.ops)
  }

  lemma InvOwned(d: Data)
    requires AttemptsOk(d.ops, d.attempts) && EvidenceOk(d.ops, d.attempts, d.evidence)
    requires VerificationsOk(d.ops, d.attempts, d.evidence, d.verifications)
    requires RevocationsOk(d.attempts, d.evidence, d.revocations)
    ensures Owned(d)
  {
    hide ValidEvidence, ValidVerification;
    forall k | k in d.attempts
      ensures d.attempts[k].operationId in d.ops
    {
      assert AttemptOk(d.ops, d.attempts, k, d.attempts[k]);
    }
    forall k | k in d.evidence
      ensures d.evidence[k].operationId in d.ops
    {
      assert EvidenceRecordOk(d.ops, d.attempts, k, d.evidence[k]);
    }
    forall k | k in d.verifications
      ensures d.verifications[k].operationId in d.ops
    {
      assert VerificationRecordOk(d.ops, d.attempts, d.evidence, k, d.verifications[k]);
    }
    forall k | k in d.revocations
      ensures d.revocations[k].operationId in d.ops
    {
      assert RevocationOk(d.attempts, d.evidence, k, d.revocations[k]);
    }
  }

  lemma SubKeys<V>(m: map<Id, V>, m': map<Id, V>)
    requires Sub(m, m')
    ensures m'.Keys <= m.Keys
  {
  }

  lemma ShrunkReflexive(d: Data)
    requires Owned(d)
    ensures Shrunk(d, d)
  {
    assert d.attempts == AttemptsWithin(d.attempts, d.ops.Keys);
    assert d.evidence == EvidenceWithin(d.evidence, d.ops.Keys);
    assert d.verifications == VerificationsWithin(d.verifications, d.ops.Keys);
    assert d.revocations == RevocationsWithin(d.revocations, d.ops.Keys);
  }

  lemma ShrunkTransitive(d: Data, d1: Data, d2: Data)
    requires Shrunk(d, d1) && Shrunk(d1, d2)
    ensures Shrunk(d, d2)
  {
    GraphsTransitive(d, d1, d2);
  }

  lemma GraphsTransitive(d: Data, d1: Data, d2: Data)
    requires Sub(d1.ops, d2.ops) && WholeGraphs(d, d1) && WholeGraphs(d1, d2)
    ensures WholeGraphs(d, d2)
  {
    hide Sub;
    assert d2.ops.Keys <= d1.ops.Keys by {
      SubKeys(d1.ops, d2.ops);
    }
    assert d2.attempts == AttemptsWithin(d.attempts, d2.ops.Keys);
    assert d2.evidence == EvidenceWithin(d.evidence, d2.ops.Keys);
    assert d2.verifications == VerificationsWithin(d.verifications, d2.ops.Keys);
    assert d2.revocations == RevocationsWithin(d.revocations, d2.ops.Keys);
  }

  lemma GraphRemovalShrinks(d: Data, op: Id)
    requires Owned(d)
    ensures Shrunk(d, WithoutGraph(d, op))
  {
    var d' := WithoutGraph(d, op);
    assert d'.attempts == AttemptsWithin(d.attempts, d'.ops.Keys);
    assert d'.evidence == EvidenceWithin(d.evidence, d'.ops.Keys);
    assert d'.verifications == VerificationsWithin(d.verifications, d'.ops.Keys);
    assert d'.revocations == RevocationsWithin(d.revocations, d'.ops.Keys);
  }

  // ---- the invariant survives -----------------------------------------------

  lemma AttemptsShrink(ops: map<Id, Operation>, ops': map<Id, Operation>, attempts: map<Id, Attempt>)
    requires AttemptsOk(ops, attempts) && LeasesUnique(attempts) && GenerationsUnique(attempts) && Sub(ops, ops')
    ensures var attempts' := AttemptsWithin(attempts, ops'.Keys);
            AttemptsOk(ops', attempts') && LeasesUnique(attempts') && GenerationsUnique(attempts')
  {
    var attempts' := AttemptsWithin(attempts, ops'.Keys);
    forall k | k in attempts'
      ensures AttemptOk(ops', attempts', k, attempts'[k])
    {
      assert AttemptOk(ops, attempts, k, attempts[k]);
    }
    forall a, b | a in attempts' && b in attempts' && SameGeneration(attempts'[a], attempts'[b])
      ensures a == b
    {
      assert SameGeneration(attempts[a], attempts[b]);
    }
  }

  lemma GenerationsShrink(ops: map<Id, Operation>, ops': map<Id, Operation>, attempts: map<Id, Attempt>)
    requires GenerationsComplete(ops, attempts) && ActivesOk(ops, attempts) && SettledOk(ops, attempts) && Sub(ops, ops')
    ensures var attempts' := AttemptsWithin(attempts, ops'.Keys);
            GenerationsComplete(ops', attempts') && ActivesOk(ops', attempts') && SettledOk(ops', attempts')
  {
    var attempts' := AttemptsWithin(attempts, ops'.Keys);
    forall k, g: nat | k in ops' && 1 <= g <= ops'[k].generation
      ensures HasGeneration(attempts', k, g)
    {
      assert HasGeneration(attempts, k, g);
      var a :| a in attempts && attempts[a].operationId == k && attempts[a].generation == g;
      assert a in attempts';
    }
    forall k | k in ops'
      ensures ActiveOk(attempts', k, ops'[k])
    {
      assert ActiveOk(attempts, k, ops[k]);
    }
  }

  lemma NoEmptyAttempt(ops: map<Id, Operation>, attempts: map<Id, Attempt>)
    requires AttemptsOk(ops, attempts)
    ensures "" !in attempts
  {
    forall k | k in attempts
      ensures k != ""
    {
      assert AttemptOk(ops, attempts, k, attempts[k]);
    }
  }

  lemma ReservationsShrink(ops: map<Id, Operation>, ops': map<Id, Operation>, attempts: map<Id, Attempt>,
                           reservations: map<string, Reservation>)
    requires ReservationsSound(ops, attempts, reservations) && ReservationsComplete(ops, reservations)
    requires ActivesOk(ops, attempts) && Sub(ops, ops') && "" !in attempts
    requires forall s :: s in reservations ==> reservations[s].operationId in ops'
    ensures ReservationsSound(ops', AttemptsWithin(attempts, ops'.Keys), reservations)
    ensures ReservationsComplete(ops', reservations)
  {
    var attempts' := AttemptsWithin(attempts, ops'.Keys);
    forall s | s in reservations
      ensures ReservationOk(ops', attempts', s, reservations[s])
    {
      assert ReservationOk(ops, attempts, s, reservations[s]);
      assert ActiveOk(attempts, reservations[s].operationId, ops[reservations[s].operationId]);
    }
  }

  lemma EvidenceShrink(ops: map<Id, Operation>, ops': map<Id, Operation>, attempts: map<Id, Attempt>, evidence: map<Id, Evidence>)
    requires EvidenceOk(ops, attempts, evidence) && Sub(ops, ops')
    ensures EvidenceOk(ops', AttemptsWithin(attempts, ops'.Keys), EvidenceWithin(evidence, ops'.Keys))
  {
    hide ValidEvidence;
    var attempts', evidence' := AttemptsWithin(attempts, ops'.Keys), EvidenceWithin(evidence, ops'.Keys);
    forall k | k in evidence'
      ensures EvidenceRecordOk(ops', attempts', k, evidence'[k])
    {
      assert EvidenceRecordOk(ops, attempts, k, evidence[k]);
    }
  }

  lemma VerificationsShrink(ops: map<Id, Operation>, ops': map<Id, Operation>, attempts: map<Id, Attempt>,
                            evidence: map<Id, Evidence>, verifications: map<Id, Verification>)
    requires VerificationsOk(ops, attempts, evidence, verifications) && Sub(ops, ops')
    ensures VerificationsOk(ops', AttemptsWithin(attempts, ops'.Keys), EvidenceWithin(evidence, ops'.Keys),
                            VerificationsWithin(verifications, ops'.Keys))
  {
    hide ValidVerification;
    var attempts', evidence' := AttemptsWithin(attempts, ops'.Keys), EvidenceWithin(evidence, ops'.Keys);
    var verifications' := VerificationsWithin(verifications, ops'.Keys);
    forall k | k in verifications'
      ensures VerificationRecordOk(ops', attempts', evidence', k, verifications'[k])
    {
      assert VerificationRecordOk(ops, attempts, evidence, k, verifications[k]);
    }
  }

  lemma RevocationsShrink(ops': map<Id, Operation>, attempts: map<Id, Attempt>, evidence: map<Id, Evidence>,
                          revocations: map<Id, Revocation>)
    requires RevocationsOk(attempts, evidence, revocations)
    ensures RevocationsOk(AttemptsWithin(attempts, ops'.Keys), EvidenceWithin(evidence, ops'.Keys),
                          RevocationsWithin(revocations, ops'.Keys))
  {
    var revocations' := RevocationsWithin(revocations, ops'.Keys);
    forall k | k in revocations'
      ensures RevocationOk(AttemptsWithin(attempts, ops'.Keys), EvidenceWithin(evidence, ops'.Keys), k, revocations'[k])
    {
      assert RevocationOk(attempts, evidence, k, revocations[k]);
    }
  }

  lemma VerdictShrinks(verifications: map<Id, Verification>, ops: set<Id>, op: Id, attempt: Id, verdict: Verdict)
    requires HasVerdict(verifications, op, attempt, verdict) && op in ops
    ensures HasVerdict(VerificationsWithin(verifications, ops), op, attempt, verdict)
  {
    var v :| v in verifications && Decided(verifications[v], op, attempt, verdict);
    assert v in VerificationsWithin(verifications, ops);
  }

  lemma ProofsShrink(ops: map<Id, Operation>, ops': map<Id, Operation>, attempts: map<Id, Attempt>,
                     verifications: map<Id, Verification>)
    requires ProofsOk(ops, attempts, verifications) && Sub(ops, ops')
    ensures ProofsOk(ops', AttemptsWithin(attempts, ops'.Keys), VerificationsWithin(verifications, ops'.Keys))
  {
    hide HasVerdict;
    var attempts' := AttemptsWithin(attempts, ops'.Keys);
    forall k | k in attempts' && attempts'[k].operationId in ops'
      ensures Proven(ops'[attempts'[k].operationId], VerificationsWithin(verifications, ops'.Keys), attempts'[k])
    {
      var a := attempts[k];
      assert Proven(ops[a.operationId], verifications, a);
      forall verdict | HasVerdict(verifications, a.operationId, a.id, verdict)
        ensures HasVerdict(VerificationsWithin(verifications, ops'.Keys), a.operationId, a.id, verdict)
      {
        VerdictShrinks(verifications, ops'.Keys, a.operationId, a.id, verdict);
      }
    }
  }

  lemma TopShrink(d: Data, d': Data)
    requires TasksOk(d.tasks) && OperationsOk(d.tasks, d.ops) && WorkOk(d.tasks, d.ops) && MessagesOk(d.messages)
    requires Sub(d.tasks, d'.tasks) && Sub(d.ops, d'.ops) && Sub(d.messages, d'.messages)
    requires forall k :: k in d'.ops ==> d'.ops[k].descriptor.taskId in d'.tasks
    ensures TasksOk(d'.tasks) && OperationsOk(d'.tasks, d'.ops) && WorkOk(d'.tasks, d'.ops) && MessagesOk(d'.messages)
  {
    hide ValidDescriptor;
    forall k | k in d'.ops
      ensures OperationOk(d'.tasks, k, d'.ops[k])
    {
      assert OperationOk(d.tasks, k, d.ops[k]);
    }
  }

  /** Removing whole graphs keeps the invariant as long as no reservation loses
      its operation and no operation loses its task. */
  lemma ShrinkKeepsInv(d: Data, d': Data)
    requires Inv(d) && Shrunk(d, d')
    requires forall s :: s in d.reservations ==> d.reservations[s].operationId in d'.ops
    requires forall k :: k in d'.ops ==> d'.ops[k].descriptor.taskId in d'.tasks
    ensures Inv(d')
  {
    hide TasksOk, OperationsOk, WorkOk, ReservationsSound, ReservationsComplete, MessagesOk,
         AttemptsOk, LeasesUnique, GenerationsUnique, GenerationsComplete, ActivesOk, SettledOk,
         EvidenceOk, VerificationsOk, RevocationsOk, ProofsOk,
         Sub, AttemptsWithin, EvidenceWithin, VerificationsWithin, RevocationsWithin;
    TopShrink(d, d');
    AttemptsShrink(d.ops, d'.ops, d.attempts);
    GenerationsShrink(d.ops, d'.ops, d.attempts);
    NoEmptyAttempt(d.ops, d.attempts);
    ReservationsShrink(d.ops, d'.ops, d.attempts, d.reservations);
    EvidenceShrink(d.ops, d'.ops, d.attempts, d.evidence);
    VerificationsShrink(d.ops, d'.ops, d.attempts, d.evidence, d.verifications);
    RevocationsShrink(d'.ops, d.attempts, d.evidence, d.revocations);
    ProofsShrink(d.ops, d'.ops, d.attempts, d.verifications);
  }

  // ---- rows -----------------------------------------------------------------

  /** Removing a graph removes exactly its rows. */
  lemma GraphRemovalRows(d: Data, op: Id)
    requires Owned(d)
    ensures Rows(WithoutGraph(d, op)) == Rows(d) - GraphRows(d, op)
    ensures |Rows(WithoutGraph(d, op))| == |Rows(d)| - |GraphRows(d, op)|
  {
    hide Rows, GraphRows, HasRow, Owner, WithoutGraph, Owned;
    forall r
      ensures r in Rows(WithoutGraph(d, op)) <==> r in Rows(d) - GraphRows(d, op)
    {
      RowStays(d, op, r);
    }
    assert GraphRows(d, op) <= Rows(d);
  }

  lemma RowStays(d: Data, op: Id, r: Row)
    ensures HasRow(WithoutGraph(d, op), r) <==> HasRow(d, r) && Owner(d, r) != Some(op)
  {
  }

  ghost function MessageRows(ids: set<Id>): (s: set<Row>)
    ensures |s| == |ids|
    ensures forall r :: r in s <==> r.MessageRow? && r.id in ids
    decreases |ids|
  {
    if ids == {} then {}
    else
      var k :| k in ids;
      MessageRows(ids - {k}) + {MessageRow(k)}
  }

  lemma MessageRowStays(d: Data, ids: set<Id>, r: Row)
    ensures HasRow(DeleteMessages(d, ids), r) <==> HasRow(d, r) && r !in MessageRows(ids)
  {
    hide MessageRows;
  }

  lemma MessageRowPresent(d: Data, r: Row)
    requires r.MessageRow? && r.id in d.messages
    ensures HasRow(d, r)
  {
  }

  lemma MessageRemovalRows(d: Data, ids: set<Id>)
    requires ids <= d.messages.Keys
    ensures |Rows(DeleteMessages(d, ids))| == |Rows(d)| - |ids|
  {
    hide Rows, MessageRows, DeleteMessages, HasRow;
    forall r
      ensures r in Rows(DeleteMessages(d, ids)) <==> r in Rows(d) - MessageRows(ids)
    {
      MessageRowStays(d, ids, r);
    }
    forall r | r in MessageRows(ids)
      ensures r in Rows(d)
    {
      MessageRowPresent(d, r);
    }
    assert Rows(DeleteMessages(d, ids)) == Rows(d) - MessageRows(ids);
    assert MessageRows(ids) <= Rows(d);
  }

  lemma TaskRemovalRows(d: Data, task: Id)
    requires task in d.tasks
    ensures |Rows(d.(tasks := d.tasks - {task}))| == |Rows(d)| - 1
  {
    hide Rows;
    assert Rows(d.(tasks := d.tasks - {task})) == Rows(d) - {TaskRow(task)};
  }
}
