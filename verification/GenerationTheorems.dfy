/** The guarantees of the generation protocol, read off its invariants: first
    those of every run, then those of every punctual run. */
module GenerationTheorems {
  import opened LedgerInvariant
  import opened GenerationModel
  import opened GenerationProtocol
  import opened GenerationSafety
  import opened GenerationTimed

  function End(ss: seq<System>): System
    requires |ss| > 0
  {
    ss[|ss| - 1]
  }

  ghost predicate Reachable(s: System, job: Job) {
    exists ss :: Behaviour(ss, job) && End(ss) == s
  }

  ghost predicate ReachableOnTime(s: System, job: Job) {
    exists ss :: PunctualBehaviour(ss, job) && End(ss) == s
  }

  /** What this generation has cost its owner so far, summed over the ledger. */
  function NetMove(w: World, job: Job): int {
    MovedUnder(w.ledger.entries, job.DebitKey()) + MovedUnder(w.ledger.entries, job.RefundKey())
  }

  lemma EndInv(ss: seq<System>, job: Job)
    requires Behaviour(ss, job) && job.price > 0
    ensures Inv(End(ss), job)
  {
    RunKeepsInv(ss, job, |ss| - 1);
  }

  lemma ReachableInv(s: System, job: Job)
    requires Reachable(s, job) && job.price > 0
    ensures Inv(s, job)
  {
    var ss :| Behaviour(ss, job) && End(ss) == s;
    EndInv(ss, job);
  }

  // Every run.

  /** SUCCEEDED and REFUNDED are never left, and no field of them changes. */
  lemma TerminalIsAbsorbing(ss: seq<System>, job: Job, m: nat, n: nat)
    requires Behaviour(ss, job) && m <= n < |ss| && job.price > 0
    requires StatusIs(ss[m].world, Succeeded) || StatusIs(ss[m].world, Refunded)
    ensures ss[n].world.doc == ss[m].world.doc
  {
    RunEvolves(ss, job, m, n);
  }

  /** A pending document was pending all along, and its lease only moved forward. */
  lemma LeasesOnlyGrow(ss: seq<System>, job: Job, m: nat, n: nat)
    requires Behaviour(ss, job) && m <= n < |ss| && job.price > 0
    requires ss[m].world.doc.Some? && StatusIs(ss[n].world, Pending)
    ensures StatusIs(ss[m].world, Pending)
    ensures var before, after := ss[m].world.doc.value.lease, ss[n].world.doc.value.lease;
            before.Some? && after.Some? && (before != after ==> before.value < after.value)
  {
    RunEvolves(ss, job, m, n);
  }

  /** At any moment at most one thread carries the lease that `finish` accepts. */
  lemma OneThreadMayFinish(s: System, job: Job, i: int, j: int)
    requires Reachable(s, job) && job.price > 0
    requires StatusIs(s.world, Pending) && i in s.threads && j in s.threads
    requires HeldBy(s.threads[i]) == HeldBy(s.threads[j]) == s.world.doc.value.lease
    ensures i == j
  {
    ReachableInv(s, job);
  }

  /** The provider runs at most once and at most one object is ever uploaded,
      however often the same request is repeated. */
  lemma ProviderRunsAtMostOnce(s: System, job: Job)
    requires Reachable(s, job) && job.price > 0
    ensures s.world.providerCalls <= 1 && s.world.uploads <= s.world.providerCalls
  {
    ReachableInv(s, job);
  }

  /** A success was paid for by exactly one debit of the price and was uploaded once. */
  lemma SuccessWasPaidAndUploaded(s: System, job: Job)
    requires Reachable(s, job) && job.price > 0 && StatusIs(s.world, Succeeded)
    ensures Occurrences(s.world.ledger.entries, job.DebitKey()) == 1
    ensures MovedUnder(s.world.ledger.entries, job.DebitKey()) == -job.price
    ensures s.world.uploads == 1
  {
    ReachableInv(s, job);
    KeyLabelsOneEntry(s.world.ledger, job.DebitKey());
    MovedUnderKey(s.world.ledger, job.DebitKey());
  }

  /** No generation is debited twice or refunded twice, in any state. */
  lemma AtMostOneEntryEach(s: System, job: Job)
    requires Reachable(s, job) && job.price > 0
    ensures Occurrences(s.world.ledger.entries, job.DebitKey()) <= 1
    ensures Occurrences(s.world.ledger.entries, job.RefundKey()) <= 1
    ensures -job.price <= NetMove(s.world, job) <= job.price
  {
    ReachableInv(s, job);
    KeyLabelsOneEntry(s.world.ledger, job.DebitKey());
    KeyLabelsOneEntry(s.world.ledger, job.RefundKey());
    MovedUnderKey(s.world.ledger, job.DebitKey());
    MovedUnderKey(s.world.ledger, job.RefundKey());
  }

  /** REFUNDED never leaves the user short: a debit was answered by exactly one
      equal refund. */
  lemma RefundedIsNeverShort(s: System, job: Job)
    requires Reachable(s, job) && job.price > 0 && StatusIs(s.world, Refunded)
    ensures NetMove(s.world, job) >= 0
    ensures Occurrences(s.world.ledger.entries, job.DebitKey()) == 1 ==>
              NetMove(s.world, job) == 0 && Occurrences(s.world.ledger.entries, job.RefundKey()) == 1
  {
    ReachableInv(s, job);
    KeyLabelsOneEntry(s.world.ledger, job.DebitKey());
    KeyLabelsOneEntry(s.world.ledger, job.RefundKey());
    MovedUnderKey(s.world.ledger, job.DebitKey());
    MovedUnderKey(s.world.ledger, job.RefundKey());
  }

  // Every run without the slip of a guarantee.

  lemma SteadyInv(g: Guarantee, ss: seq<System>, job: Job)
    requires Steady(g, ss, job) && job.price > 0
    ensures Inv(End(ss), job) && InvKept(g, End(ss), job)
  {
    RunKeepsInv(ss, job, |ss| - 1);
    RunKeeps(g, ss, job, |ss| - 1);
  }

  /** If no generation is taken over before it was paid for, a refund answers
      exactly one debit, and nobody gains a shard. */
  lemma RefundAnswersDebit(ss: seq<System>, job: Job)
    requires Steady(UnpaidRefund, ss, job) && job.price > 0
    ensures var w := End(ss).world;
            && Occurrences(w.ledger.entries, job.RefundKey()) <= Occurrences(w.ledger.entries, job.DebitKey())
            && NetMove(w, job) <= 0
  {
    SteadyInv(UnpaidRefund, ss, job);
    var l := End(ss).world.ledger;
    KeyLabelsOneEntry(l, job.DebitKey());
    KeyLabelsOneEntry(l, job.RefundKey());
    MovedUnderKey(l, job.DebitKey());
    MovedUnderKey(l, job.RefundKey());
  }

  /** If no object is stored after the grace while its generation is pending, and
      no worker loses the compare-and-set to a pending document, a success has
      exactly one debit, no refund, and its object is stored. */
  lemma SuccessIsExact(ss: seq<System>, job: Job)
    requires Steady(LateUpload, ss, job) && Steady(LostConfirmation, ss, job) && job.price > 0
    requires StatusIs(End(ss).world, Succeeded)
    ensures var w := End(ss).world;
            && Occurrences(w.ledger.entries, job.DebitKey()) == 1
            && Occurrences(w.ledger.entries, job.RefundKey()) == 0
            && NetMove(w, job) == -job.price
            && w.present
  {
    SteadyInv(LateUpload, ss, job);
    SteadyInv(LostConfirmation, ss, job);
    var l := End(ss).world.ledger;
    KeyLabelsOneEntry(l, job.DebitKey());
    KeyLabelsOneEntry(l, job.RefundKey());
    MovedUnderKey(l, job.DebitKey());
    MovedUnderKey(l, job.RefundKey());
  }

  /** The upload half alone: picture and refund are never together. */
  lemma NobodyHasBoth(ss: seq<System>, job: Job)
    requires Steady(LateUpload, ss, job) && job.price > 0
    ensures var w := End(ss).world;
            !(StatusIs(w, Succeeded) && w.present && Occurrences(w.ledger.entries, job.RefundKey()) > 0)
  {
    SteadyInv(LateUpload, ss, job);
    KeyLabelsOneEntry(End(ss).world.ledger, job.RefundKey());
  }

  /** The confirmation half alone: a success has its object. */
  lemma SuccessHasItsObject(ss: seq<System>, job: Job)
    requires Steady(LostConfirmation, ss, job) && job.price > 0 && StatusIs(End(ss).world, Succeeded)
    ensures End(ss).world.present
  {
    SteadyInv(LostConfirmation, ss, job);
  }

  /** If no object is stored after the grace, a refund leaves no object behind. */
  lemma RefundLeavesNoResult(ss: seq<System>, job: Job)
    requires Steady(LateObject, ss, job) && job.price > 0
    requires StatusIs(End(ss).world, Refunded) || Occurrences(End(ss).world.ledger.entries, job.RefundKey()) > 0
    ensures !End(ss).world.present
  {
    SteadyInv(LateObject, ss, job);
    KeyLabelsOneEntry(End(ss).world.ledger, job.RefundKey());
  }

  // Every punctual run.

  /** A worker that uploads and confirms only within the grace gives all of it. */
  lemma PunctualRunsAreExact(ss: seq<System>, job: Job)
    requires PunctualBehaviour(ss, job) && job.price > 0
    ensures var w := End(ss).world;
            && (StatusIs(w, Succeeded) ==> NetMove(w, job) == -job.price && w.present)
            && (StatusIs(w, Refunded) || Occurrences(w.ledger.entries, job.RefundKey()) > 0 ==>
                  !w.present && !StatusIs(w, Succeeded))
  {
    var w := End(ss).world;
    PunctualIsSteady(LateUpload, ss, job);
    PunctualIsSteady(LateObject, ss, job);
    PunctualIsSteady(LostConfirmation, ss, job);
    if StatusIs(w, Succeeded) {
      SuccessIsExact(ss, job);
    }
    if StatusIs(w, Refunded) || Occurrences(w.ledger.entries, job.RefundKey()) > 0 {
      RefundLeavesNoResult(ss, job);
    }
  }

  /** The delete of `_abandon` is never reached. */
  lemma AbandonNeverDeletes(s: System, job: Job, i: int)
    requires ReachableOnTime(s, job) && job.price > 0 && i in s.threads
    ensures !s.threads[i].AbandonRead? && !s.threads[i].AbandonDelete?
  {
    var ss :| PunctualBehaviour(ss, job) && End(ss) == s;
    PunctualIsSteady(Cleanup, ss, job);
    SteadyInv(Cleanup, ss, job);
    assert ThreadKeeps(Cleanup, s.world, s.threads[i], job);
  }
}
