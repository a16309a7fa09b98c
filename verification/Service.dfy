/** The local check service on a repository and its receipt directory: the file that
    is created once, and the recovery that only verifies. */
module Service {
  import opened Basics
  import opened Records
  import opened Storage
  import opened Decisions
  import opened LocalCheck
  import History
  import Store

  /** `EvidenceForOperation`, in the order of identifiers. */
  function EvidenceOfOperation(d: Data, op: Id): (evs: seq<Evidence>)
    ensures forall e :: e in evs <==> exists k :: k in EvidenceOf(d, op) && d.evidence[k] == e
  {
    var ids := Sorted(EvidenceOf(d, op));
    var evs := seq(|ids|, i requires 0 <= i < |ids| => assert ids[i] in ids; d.evidence[ids[i]]);
    assert forall k :: k in EvidenceOf(d, op) ==> k in ids;
    assert forall i :: 0 <= i < |ids| ==> ids[i] in EvidenceOf(d, op) && evs[i] == d.evidence[ids[i]];
    evs
  }

  /** Looking through the list finds exactly what the store proves. */
  lemma ListedProof(d: Data, id: Id, r: Receipt, digest: string)
    ensures HasIntent(d.evidence, id, r) <==> exists e :: e in EvidenceOfOperation(d, Op(id)) && IsIntent(e, id, r)
    ensures HasReport(d.evidence, id, r, digest) <==> exists e :: e in EvidenceOfOperation(d, Op(id)) && IsReport(e, r, digest)
  {
    hide IsIntent, IsReport;
    var evs := EvidenceOfOperation(d, Op(id));
    if HasIntent(d.evidence, id, r) {
      var k :| k in d.evidence && d.evidence[k].operationId == Op(id) && IsIntent(d.evidence[k], id, r);
      assert k in EvidenceOf(d, Op(id)) && d.evidence[k] in evs;
    }
    if HasReport(d.evidence, id, r, digest) {
      var k :| k in d.evidence && d.evidence[k].operationId == Op(id) && IsReport(d.evidence[k], r, digest);
      assert k in EvidenceOf(d, Op(id)) && d.evidence[k] in evs;
    }
  }

  class LocalService {
    const store: Store.Repository
    const sum: Receipt -> string
    var files: map<Id, File>

    constructor (store: Store.Repository, sum: Receipt -> string)
      ensures this.store == store && this.sum == sum && files == map[]
    {
      this.store := store;
      this.sum := sum;
      files := map[];
    }

    /** `saveReceipt`: never replaces a file, not even a torn one. A crash or a failed
        write after the creation leaves a torn file. */
    method SaveReceipt(id: Id, r: Receipt, outcome: SaveOutcome) returns (ok: bool)
      modifies this`files
      ensures ok <==> id !in old(files) && outcome == Synced
      ensures id in old(files) ==> files == old(files)
      ensures id !in old(files) ==>
                files == match outcome
                         case Refused => old(files)
                         case TornWrite => old(files)[id := Torn]
                         case _ => old(files)[id := Whole(r)]
    {
      if id in files || outcome == Refused {
        return false;
      }
      files := files[id := Torn];
      if outcome == TornWrite {
        return false;
      }
      files := files[id := Whole(r)];
      return outcome == Synced;
    }

    /** `finalize`. */
    method CloseTask(id: Id, at: Time) returns (r: Result<()>)
      requires !store.closed
      modifies store
      ensures !store.closed
      ensures r.Ok? <==> Finalized(old(store.d), id, at).Ok?
      ensures store.d == if r.Ok? then Finalized(old(store.d), id, at).value else old(store.d)
    {
      if id !in store.d.tasks {
        return Err(NotFound);
      }
      var task := store.d.tasks[id];
      if task.state == TaskCompleted || task.state == TaskFailed || task.state == TaskCancelled {
        return Ok(());
      }
      var decisions := [DoFinalizeTask(id, task.revision, at)];
      History.OneDecision(store.d, at, decisions);
      var o := store.WriteValue(at, decisions, Pass, false, false);
      return if o.Pass? then Ok(()) else Err(o.error);
    }

    /** `verify`: it never launches anything, and what it leaves in the store is what
        the specification of a recovery says. */
    method Verify(id: Id, k: Clock) returns (r: Result<()>)
      requires !store.closed
      modifies store
      ensures !store.closed && files == old(files)
      ensures r.Ok? <==> Recovered(sum, old(store.d), files, id, k).Ok?
      ensures r.Ok? ==> store.d == Recovered(sum, old(store.d), files, id, k).value
      ensures r.Err? ==> store.d == old(store.d) || VerdictOnly(sum, old(store.d), store.d, files, id, k)
    {
      hide Finalized, FinalizeTask, History.ProcessMessage, VerdictDecisions, VerdictEnvelope, IsIntent, IsReport, Sound,
           RegisterMessage, DecideAll, OwnsLease, Awaits, DigestOf, EvidenceOfOperation, HasIntent, HasReport;
      var loaded := LoadReceipt(files, id, k.load);
      if loaded.Err? {
        return Err(loaded.error);
      }
      var receipt := loaded.value;
      if Op(id) !in store.d.ops {
        return Err(NotFound);
      }
      var op := store.d.ops[Op(id)];
      if op.state == Succeeded || op.state == Failed {
        r := CloseTask(id, k.close);
        return;
      }
      if !Awaits(op, id, receipt) {
        return Err(NoReceipt);
      }
      if !OwnsLease(store.d.attempts, receipt) {
        return Err(NoReceipt);
      }
      var digest := DigestOf(sum, receipt);
      var evs := EvidenceOfOperation(store.d, Op(id));
      var foundIntent, foundReport := FindProof(evs, id, receipt, digest);
      ListedProof(store.d, id, receipt, digest);
      if !foundIntent || !foundReport {
        return Err(NoReceipt);
      }
      var was := store.d;
      var sent := store.ProcessMessage(k.store, VerdictEnvelope(id, receipt, digest),
                                       VerdictDecisions(id, receipt, digest, op.revision, k.judge), Pass, false, false);
      Delivered(was, k.store, VerdictEnvelope(id, receipt, digest), VerdictDecisions(id, receipt, digest, op.revision, k.judge));
      if sent.Err? {
        return Err(sent.error);
      }
      r := CloseTask(id, k.close);
    }

    /** `Recover`: verify, then report the canonical state. */
    method Recover(id: Id, k: Clock, now: Time) returns (r: Result<Report>)
      requires !store.closed
      modifies store
      ensures r.Ok? ==>
                && Recovered(sum, old(store.d), files, id, k) == Ok(store.d)
                && r == Status(sum, store.d, files, id, now)
      ensures Recovered(sum, old(store.d), files, id, k).Ok? ==>
                r == Status(sum, Recovered(sum, old(store.d), files, id, k).value, files, id, now)
    {
      hide Recovered, Status, VerdictOnly;
      var verified := Verify(id, k);
      if verified.Err? {
        return Err(verified.error);
      }
      return Status(sum, store.d, files, id, now);
    }
  }

  /** The verdict went in and closing the task did not. */
  ghost predicate VerdictOnly(sum: Receipt -> string, d: Data, d': Data, files: map<Id, File>, id: Id, k: Clock) {
    && Op(id) in d.ops && LoadReceipt(files, id, k.load).Ok?
    && Judged(sum, d, id, LoadReceipt(files, id, k.load).value, d.ops[Op(id)].revision, k.judge, k.store) == Ok(d')
  }

  lemma Delivered(d: Data, now: Time, env: Envelope, cs: seq<Decision>)
    ensures History.ProcessMessage(d, now, env, cs).Ok? <==>
            && RegisterMessage(d, now, env).Ok?
            && (RegisterMessage(d, now, env).value.1 || DecideAll(RegisterMessage(d, now, env).value.0, now, cs).Ok?)
    ensures RegisterMessage(d, now, env).Ok? && RegisterMessage(d, now, env).value.1 ==>
              History.ProcessMessage(d, now, env, cs).Ok?
  {
    hide RegisterMessage, DecideAll;
  }
}
