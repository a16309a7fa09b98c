/** The main results, stated for every state that some run of the store can reach:
    from the empty store, through any decisions, messages, failed or abandoned
    transactions and collections, under any clock readings. */
module Theorems {
  import opened Basics
  import opened Records
  import opened Storage
  import opened Decisions
  import opened Invariant
  import opened Shrinking
  import opened Collecting
  import opened History
  import opened Guarantees
  import opened Preservation
  import opened Retention
  import Recovery

  /** Every constraint of the schema holds, although the memory backend checks
      almost none of them. */
  lemma SchemaHolds(events: seq<Event>)
    ensures Inv(Run(EMPTY, events))
  {
    hide Inv, Run;
    EmptyInv();
    RunKeepsInv(EMPTY, events);
  }

  /** Mutations in flight hold pairwise disjoint scopes, and the reservation table
      is exactly what they hold. */
  lemma MutationsNeverOverlap(events: seq<Event>, s: string)
    ensures var d := Run(EMPTY, events);
            && (s in d.reservations <==> exists id :: HeldBy(d, s, id))
            && (forall id1, id2 :: HeldBy(d, s, id1) && HeldBy(d, s, id2) ==> id1 == id2)
            && (forall id :: HeldBy(d, s, id) ==>
                  && s in d.reservations && d.reservations[s].attemptId == d.ops[id].active
                  && d.reservations[s].generation == d.ops[id].generation)
  {
    hide Inv, Run;
    SchemaHolds(events);
    var d := Run(EMPTY, events);
    ReservationsExact(d, s);
  }

  /** The attempts of an operation are its generations, one each; all but the
      current one, and that one too once the operation is ready again, were proven
      safe to retry. */
  lemma RetriesNeedProof(events: seq<Event>, op: Id, g: nat)
    requires op in Run(EMPTY, events).ops && 1 <= g <= Run(EMPTY, events).ops[op].generation
    ensures var d := Run(EMPTY, events);
            exists a :: && a in AttemptsOf(d, op) && d.attempts[a].generation == g
                        && (forall b :: b in AttemptsOf(d, op) && d.attempts[b].generation == g ==> a == b)
                        && (g < d.ops[op].generation || d.ops[op].state == Ready ==> RetryProven(d, d.attempts[a]))
  {
    hide Inv, Run, RetryProven;
    SchemaHolds(events);
    var d := Run(EMPTY, events);
    GenerationsExact(d, op, g);
    var a :| a in AttemptsOf(d, op) && d.attempts[a].generation == g;
    RetriesAreProven(d, a);
  }

  /** An operation is succeeded or failed only with a stored verification that says
      so of its last attempt, under its own policy and with all its evidence. */
  lemma OutcomesNeedProof(events: seq<Event>, id: Id)
    requires id in Run(EMPTY, events).ops
    ensures var d := Run(EMPTY, events);
            && (d.ops[id].state == Succeeded ==> OutcomeProven(d, id, Satisfied))
            && (d.ops[id].state == Failed ==> OutcomeProven(d, id, NotSatisfiedTerminal))
  {
    hide Inv, Run, OutcomeProven;
    SchemaHolds(events);
    OutcomesAreProven(Run(EMPTY, events), id);
  }

  /** Whoever has authority is the one owner of the live attempt; and a claim that
      once lacked it never gains it while its attempt is stored. */
  lemma AuthorityIsMonotone(before: seq<Event>, after: seq<Event>, c: Claim)
    requires StoredThroughout(Run(EMPTY, before), after, c.attemptId)
    requires HasAuthority(Run(Run(EMPTY, before), after), c)
    ensures HasAuthority(Run(EMPTY, before), c)
    ensures var a := Run(EMPTY, before).attempts[c.attemptId]; Names(c, a) && Live(a)
  {
    hide Inv, Run, HasAuthority;
    SchemaHolds(before);
    var d := Run(EMPTY, before);
    if !HasAuthority(d, c) {
      AuthorityNeverReturns(d, after, c);
    }
    AuthorityExact(d, c);
  }

  /** One batch of collection never fails on a legal budget, charges exactly the
      rows it deletes, removes whole operation graphs only, and touches nothing
      but terminal, retired tasks without pending work, live messages, or messages
      that name the work of another task still stored. */
  lemma CollectionIsSafe(events: seq<Event>, o: GCOptions)
    requires LegalBudget(o)
    ensures var d := Run(EMPTY, events);
            && Collect(d, o).Ok?
            && var (d', out) := Collect(d, o).value;
            && out.rows <= o.maxRows && |Rows(d)| == |Rows(d')| + out.rows
            && WholeGraphs(d, d') && d'.reservations == d.reservations
            && BatchSpared(d, d', o, Floor(d, o))
            && (forall t :: Fair(d, d', o, Floor(d, o), t) ==> !HasPending(d, t))
  {
    hide Inv, Run, Collect, Rows, BatchSpared, Fair, HasPending;
    SchemaHolds(events);
    CollectAccounts(Run(EMPTY, events), o);
    CollectSpares(Run(EMPTY, events), o);
    AnyFloor(Run(EMPTY, events), Collect(Run(EMPTY, events), o).value.0);
  }

  lemma AnyFloor(d: Data, d': Data)
    requires Shrunk(d.(messageFloor := d'.messageFloor), d')
    ensures WholeGraphs(d, d')
  {
  }

  /** Following the cursor from the start ends, and removes every task that was due
      when the pass began. */
  lemma CollectionIsComplete(events: seq<Event>, o: GCOptions, task: Id)
    requires LegalBudget(o) && o.after == "" && Due(Run(EMPTY, events), o, task)
    ensures Inv(Run(EMPTY, events)) && task !in CollectPass(Run(EMPTY, events), o).tasks
  {
    hide Inv, Run, Due, CollectPass;
    SchemaHolds(events);
    FullPassComplete(Run(EMPTY, events), o);
  }

  /** Recovery inspection delivers every legal page, and following the pages lists
      each stored operation once, in ascending order. */
  lemma RecoveryListsEverything(events: seq<Event>, after: Id, limit: int)
    requires 1 <= limit <= MAX_PAGE_SIZE
    ensures Inv(Run(EMPTY, events))
    ensures Recovery.InspectRecovery(Run(EMPTY, events), after, limit).Ok?
    ensures Recovery.Listing(Run(EMPTY, events), "", limit) == Sorted(Run(EMPTY, events).ops.Keys)
  {
    hide Inv, Run, Recovery.InspectRecovery, Recovery.Listing, Sorted;
    SchemaHolds(events);
    Recovery.InspectRecoverySucceeds(Run(EMPTY, events), after, limit);
    Recovery.ListingIsComplete(Run(EMPTY, events), limit);
  }
}
