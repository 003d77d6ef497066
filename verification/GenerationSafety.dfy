/** What holds in every run of the generation protocol, with no timing
    assumption at all: threads may be arbitrarily slow, overlap and crash. */
module GenerationSafety {
  import opened Wrappers
  import opened LedgerModel
  import opened LedgerInvariant
  import opened GenerationModel
  import opened GenerationProtocol

  /** The debit of this generation is in the ledger. */
  predicate Paid(w: World, job: Job) { job.DebitKey() in w.ledger.applied }

  /** The refund of this generation is in the ledger. */
  predicate PaidBack(w: World, job: Job) { job.RefundKey() in w.ledger.applied }

  /** The entries under this generation's two keys move exactly its price. */
  predicate KeyFacts(l: Ledger, job: Job) {
    && (job.DebitKey() in l.applied ==> l.applied[job.DebitKey()].delta == -job.price)
    && (job.RefundKey() in l.applied ==> l.applied[job.RefundKey()].delta == job.price)
  }

  predicate StatusIs(w: World, status: Status) { w.doc.Some? && w.doc.value.status == status }

  /** A lease a thread carries: it is no newer than the lease of a pending document. */
  predicate Held(w: World, lease: Option<int>) {
    && lease.Some? && w.doc.Some?
    && (w.doc.value.status.Pending? ==> w.doc.value.lease.Some? && lease.value <= w.doc.value.lease.value)
  }

  /** The invariant of the shared part. */
  predicate WorldOk(w: World, job: Job) {
    && KeyFacts(w.ledger, job)
    && w.providerCalls <= 1 && w.uploads <= 1
    && (w.present ==> w.uploads == 1)
    && (w.uploads == 1 ==> Paid(w, job) && w.providerCalls == 1)
    && (w.doc.None? ==> w.providerCalls == 0 && !Paid(w, job) && !PaidBack(w, job))
    && (w.doc.Some? ==>
          && w.doc.value.lease.Some? == w.doc.value.status.Pending?
          && (w.doc.value.status.Succeeded? ==> w.uploads == 1 && w.doc.value.hasResult)
          && (w.doc.value.status.Refunded? && Paid(w, job) ==> PaidBack(w, job)))
  }

  /** The invariant of one thread. `mine` says that it created the document. */
  predicate ThreadOk(w: World, pc: Pc, mine: bool, job: Job) {
    match pc
    case GenerateLook => true
    case GeneratePrepare => true
    case StatusLook => true
    case Done(_) => true
    case Creating(g) => g == Leased(g.created) && g.created <= w.clock
    case Debiting(lease) =>
      mine && Held(w, lease) && w.providerCalls == 0 && !Paid(w, job) && (StatusIs(w, Refunded) ==> PaidBack(w, job))
    case ClosingUnpaid(lease) => mine && Held(w, lease) && w.providerCalls == 0 && !Paid(w, job)
    case Providing(lease) => mine && Held(w, lease) && w.providerCalls == 0 && Paid(w, job)
    case Putting(lease) => mine && Held(w, lease) && w.providerCalls == 1 && w.uploads == 0 && Paid(w, job)
    case Finishing(lease) => mine && Held(w, lease) && w.uploads == 1
    case AbandonRead => mine && w.uploads == 1
    case AbandonDelete(_) => mine && w.uploads == 1
    case Refunding(lease, role) =>
      Held(w, lease) && (role.Worker? ==> mine && w.providerCalls == 1 && w.uploads == 0)
    case FailFinish(lease, role, refunded) =>
      && Held(w, lease) && (role.Worker? ==> mine && w.providerCalls == 1 && w.uploads == 0)
      && (refunded ==> PaidBack(w, job))
    case FailRead(role) => w.doc.Some? && (role.Worker? ==> mine && w.providerCalls == 1 && w.uploads == 0)
    case Resuming(seen) =>
      && w.doc.Some? && seen.created == w.doc.value.created
      && (seen.status.Failed? ==> StatusIs(w, Failed) || StatusIs(w, Refunded))
    case Stealing => w.doc.Some?
    case Checking(stolen) => Held(w, stolen.lease)
    case Recovering(lease) => Held(w, lease) && w.uploads == 1
    case ReadBack => w.doc.Some?
    case SweepLook(_) => StatusIs(w, Refunded)
    case SweepDelete(_) => StatusIs(w, Refunded)
    case Retrying(_) => StatusIs(w, Failed) || StatusIs(w, Refunded)
    case RetryFinish(_) => (StatusIs(w, Failed) || StatusIs(w, Refunded)) && PaidBack(w, job)
  }

  /** The lease a thread will present to `finish`. */
  function HeldBy(pc: Pc): Option<int> {
    match pc
    case Debiting(lease) => lease
    case ClosingUnpaid(lease) => lease
    case Providing(lease) => lease
    case Putting(lease) => lease
    case Finishing(lease) => lease
    case Refunding(lease, _) => lease
    case FailFinish(lease, _, _) => lease
    case Checking(stolen) => stolen.lease
    case Recovering(lease) => lease
    case _ => None
  }

  ghost predicate LeasesDistinct(threads: map<int, Pc>) {
    forall i, j :: i in threads && j in threads && i != j && HeldBy(threads[i]).Some? ==>
      HeldBy(threads[i]) != HeldBy(threads[j])
  }

  predicate Mine(s: System, i: int) { s.creator == Some(i) }

  ghost predicate Inv(s: System, job: Job) {
    && Core(s.world.ledger)
    && WorldOk(s.world, job)
    && (s.world.doc.None? <==> s.creator.None?)
    && (forall i :: i in s.threads ==> ThreadOk(s.world, s.threads[i], Mine(s, i), job))
    && LeasesDistinct(s.threads)
  }

  // The two ledger calls.

  lemma DebitedFacts(l: Ledger, job: Job)
    requires KeyFacts(l, job) && job.DebitKey() !in l.applied
    ensures var (after, r) := Debited(l, job);
            && KeyFacts(after, job)
            && (job.DebitKey() in after.applied <==> r.Success?)
            && (r.Failure? ==> after == l)
            && (job.RefundKey() in after.applied <==> job.RefundKey() in l.applied)
  {
  }

  lemma CreditedFacts(l: Ledger, job: Job)
    requires KeyFacts(l, job) && job.price > 0 && WalletOf(l, job.user).balance >= 0
    ensures KeyFacts(Credited(l, job), job)
    ensures job.RefundKey() in Credited(l, job).applied
    ensures job.DebitKey() in Credited(l, job).applied <==> job.DebitKey() in l.applied
  {
  }

  /** What another thread may see change between its own steps: the document only
      moves along its transitions with growing leases, ledger keys and history
      only grow, and the creator's own facts change by the creator alone. */
  ghost predicate Evolves(w: World, w': World, job: Job, creatorMoved: bool) {
    && w.clock <= w'.clock
    && (w.doc.Some? ==> w'.doc.Some? && w'.doc.value.created == w.doc.value.created)
    && (w.doc.Some? && w'.doc.value.status.Pending? ==>
          w.doc.value.status.Pending? && w.doc.value.lease.Some? && w'.doc.value.lease.Some? &&
          w.doc.value.lease.value <= w'.doc.value.lease.value)
    && (StatusIs(w, Refunded) ==> w'.doc == w.doc)
    && (StatusIs(w, Succeeded) ==> w'.doc == w.doc)
    && (StatusIs(w, Failed) ==> StatusIs(w', Failed) || StatusIs(w', Refunded))
    && (PaidBack(w, job) ==> PaidBack(w', job))
    && (Paid(w, job) ==> Paid(w', job))
    && w.uploads <= w'.uploads <= 1
    && (!creatorMoved ==> w'.providerCalls == w.providerCalls && w'.uploads == w.uploads &&
                          (Paid(w', job) ==> Paid(w, job)) &&
                          (StatusIs(w', Refunded) && !StatusIs(w, Refunded) ==> PaidBack(w', job)))
  }

  lemma OthersStayOk(w: World, w': World, pc: Pc, mine: bool, job: Job, creatorMoved: bool)
    requires ThreadOk(w, pc, mine, job) && Evolves(w, w', job, creatorMoved)
    requires mine ==> !creatorMoved
    ensures ThreadOk(w', pc, mine, job)
  {
  }

  /** Newer than the lease of the pending document there was, if any. */
  predicate NewerLease(w: World, lease: int) {
    w.doc.Some? ==> w.doc.value.status.Pending? && w.doc.value.lease.Some? && w.doc.value.lease.value < lease
  }

  /** One thread's step keeps the shared invariant and its own, changes the world
      only in ways other threads tolerate, and carries no stale lease forward. */
  ghost predicate StepGood(w: World, pc: Pc, w': World, pc': Pc, mine: bool, job: Job) {
    && WorldOk(w', job)
    && ThreadOk(w', pc', mine || Creates(w, pc), job)
    && Evolves(w, w', job, mine || Creates(w, pc))
    && (w'.doc.Some? <==> w.doc.Some? || Creates(w, pc))
    && (HeldBy(pc').Some? && HeldBy(pc') != HeldBy(pc) ==> NewerLease(w, HeldBy(pc').value))
  }

  lemma ReadStepIsGood(w: World, pc: Pc, mine: bool, job: Job, env: Env)
    requires !MovesShards(pc) && !WritesDocument(pc) && !TouchesOutside(pc)
    requires WorldOk(w, job) && ThreadOk(w, pc, mine, job)
    ensures StepGood(w, pc, w, ReadStep(w, pc, env), mine, job)
  {
  }

  /** The worker draws and uploads. */
  lemma MakingStepIsGood(w: World, pc: Pc, mine: bool, job: Job, env: Env)
    requires pc.Providing? || pc.Putting?
    requires WorldOk(w, job) && ThreadOk(w, pc, mine, job)
    ensures var (w', pc') := OutsideStep(w, pc, env); StepGood(w, pc, w', pc', mine, job)
  {
  }

  /** A reconciler looks for the object. */
  lemma CheckingStepIsGood(w: World, pc: Pc, mine: bool, job: Job, env: Env)
    requires pc.Checking?
    requires WorldOk(w, job) && ThreadOk(w, pc, mine, job)
    ensures var (w', pc') := OutsideStep(w, pc, env); StepGood(w, pc, w', pc', mine, job)
  {
  }

  /** The two ways to clean up. */
  lemma SweepingStepIsGood(w: World, pc: Pc, mine: bool, job: Job, env: Env)
    requires pc.AbandonDelete? || pc.SweepLook? || pc.SweepDelete?
    requires WorldOk(w, job) && ThreadOk(w, pc, mine, job)
    ensures var (w', pc') := OutsideStep(w, pc, env); StepGood(w, pc, w', pc', mine, job)
  {
  }

  lemma OutsideStepIsGood(w: World, pc: Pc, mine: bool, job: Job, env: Env)
    requires TouchesOutside(pc)
    requires WorldOk(w, job) && ThreadOk(w, pc, mine, job)
    ensures var (w', pc') := OutsideStep(w, pc, env); StepGood(w, pc, w', pc', mine, job)
  {
    if pc.Providing? || pc.Putting? {
      MakingStepIsGood(w, pc, mine, job, env);
    } else if pc.Checking? {
      CheckingStepIsGood(w, pc, mine, job, env);
    } else {
      SweepingStepIsGood(w, pc, mine, job, env);
    }
  }

  /** A success is written, or refused. */
  lemma ConfirmingStepIsGood(w: World, pc: Pc, mine: bool, job: Job)
    requires pc.Finishing? || pc.Recovering?
    requires WorldOk(w, job) && ThreadOk(w, pc, mine, job)
    ensures var (w', pc') := DocumentStep(w, pc); StepGood(w, pc, w', pc', mine, job)
  {
  }

  lemma ClosingStepIsGood(w: World, pc: Pc, mine: bool, job: Job)
    requires WritesDocument(pc) && !pc.Stealing? && !pc.Creating? && !pc.RetryFinish?
    requires WorldOk(w, job) && ThreadOk(w, pc, mine, job)
    ensures var (w', pc') := DocumentStep(w, pc); StepGood(w, pc, w', pc', mine, job)
  {
    if pc.Finishing? || pc.Recovering? { ConfirmingStepIsGood(w, pc, mine, job); }
  }

  lemma LeasingStepIsGood(w: World, pc: Pc, mine: bool, job: Job)
    requires pc.Stealing? || pc.Creating? || pc.RetryFinish?
    requires WorldOk(w, job) && ThreadOk(w, pc, mine, job)
    ensures var (w', pc') := DocumentStep(w, pc); StepGood(w, pc, w', pc', mine, job)
  {
  }

  /** A debit attempt that left the ledger at `after`. */
  lemma DebitIsGood(w: World, lease: Option<int>, after: Ledger, pc': Pc, mine: bool, job: Job)
    requires WorldOk(w, job) && ThreadOk(w, Debiting(lease), mine, job)
    requires KeyFacts(after, job) && (job.RefundKey() in after.applied <==> PaidBack(w, job))
    requires || pc' == Done(Raised)
             || (pc' == Providing(lease) && job.DebitKey() in after.applied)
             || (pc' == ClosingUnpaid(lease) && job.DebitKey() !in after.applied)
    ensures StepGood(w, Debiting(lease), w.(ledger := after), pc', mine, job)
  {
  }

  /** A refund attempt that left the ledger at `after`. */
  lemma CreditIsGood(w: World, pc: Pc, after: Ledger, pc': Pc, mine: bool, job: Job)
    requires WorldOk(w, job) && ThreadOk(w, pc, mine, job)
    requires KeyFacts(after, job) && (job.DebitKey() in after.applied <==> Paid(w, job))
    requires PaidBack(w, job) ==> job.RefundKey() in after.applied
    requires || (pc.Refunding? && pc'.FailFinish? && pc'.lease == pc.lease && pc'.role == pc.role &&
                 (pc'.refunded ==> job.RefundKey() in after.applied))
             || (pc.Retrying? && pc'.Done?)
             || (pc.Retrying? && pc'.RetryFinish? && job.RefundKey() in after.applied)
    ensures StepGood(w, pc, w.(ledger := after), pc', mine, job)
  {
  }

  lemma ShardStepIsGood(w: World, pc: Pc, mine: bool, job: Job, env: Env)
    requires MovesShards(pc)
    requires job.price > 0 && WalletOf(w.ledger, job.user).balance >= 0
    requires WorldOk(w, job) && ThreadOk(w, pc, mine, job)
    ensures var (w', pc') := ShardStep(w, pc, job, env); StepGood(w, pc, w', pc', mine, job)
  {
    var (w', pc') := ShardStep(w, pc, job, env);
    if pc.Debiting? {
      DebitedFacts(w.ledger, job);
      DebitIsGood(w, pc.lease, w'.ledger, pc', mine, job);
    } else {
      CreditedFacts(w.ledger, job);
      CreditIsGood(w, pc, w'.ledger, pc', mine, job);
    }
  }

  lemma ThreadStepIsGood(w: World, pc: Pc, mine: bool, job: Job, env: Env)
    requires job.price > 0 && WalletOf(w.ledger, job.user).balance >= 0
    requires WorldOk(w, job) && ThreadOk(w, pc, mine, job)
    ensures var (w', pc') := ThreadStep(w, pc, job, env); StepGood(w, pc, w', pc', mine, job)
  {
    if MovesShards(pc) {
      ShardStepIsGood(w, pc, mine, job, env);
    } else if pc.Stealing? || pc.Creating? || pc.RetryFinish? {
      LeasingStepIsGood(w, pc, mine, job);
    } else if WritesDocument(pc) {
      ClosingStepIsGood(w, pc, mine, job);
    } else if TouchesOutside(pc) {
      OutsideStepIsGood(w, pc, mine, job, env);
    } else {
      ReadStepIsGood(w, pc, mine, job, env);
    }
  }

  lemma ThreadStepLedger(w: World, pc: Pc, job: Job, env: Env)
    ensures ThreadStep(w, pc, job, env).0.ledger in {w.ledger, Debited(w.ledger, job).0, Credited(w.ledger, job)}
  {
  }

  lemma DebitedKeepsCore(l: Ledger, job: Job)
    requires Core(l)
    ensures Core(Debited(l, job).0)
  {
    var outcome := Apply(l, job.user, -job.price, AiSticker, Some(job.DebitKey()), None, None);
    assert Debited(l, job) == outcome;
    ApplyKeepsCore(l, job.user, -job.price, AiSticker, Some(job.DebitKey()), None, None);
  }

  lemma CreditedKeepsCore(l: Ledger, job: Job)
    requires Core(l)
    ensures Core(Credited(l, job))
  {
    ApplyKeepsCore(l, job.user, job.price, Refund, Some(job.RefundKey()), None, None);
  }

  lemma ThreadStepKeepsCore(w: World, pc: Pc, job: Job, env: Env)
    requires Core(w.ledger)
    ensures Core(ThreadStep(w, pc, job, env).0.ledger)
  {
    ThreadStepLedger(w, pc, job, env);
    DebitedKeepsCore(w.ledger, job);
    CreditedKeepsCore(w.ledger, job);
  }

  /** A lease newer than the pending document's is held by nobody yet. */
  lemma NewLeaseIsUnheld(s: System, lease: int, job: Job, j: int)
    requires Inv(s, job) && NewerLease(s.world, lease) && j in s.threads
    ensures HeldBy(s.threads[j]) != Some(lease)
  {
    assert ThreadOk(s.world, s.threads[j], Mine(s, j), job);
  }

  lemma ActKeepsInv(s: System, i: int, job: Job, env: Env)
    requires Inv(s, job) && i in s.threads && job.price > 0
    ensures Inv(StepOf(s, i, job, env), job)
    ensures Evolves(s.world, StepOf(s, i, job, env).world, job, true)
  {
    var t := StepOf(s, i, job, env);
    var pc := s.threads[i];
    assert WalletOf(s.world.ledger, job.user).balance >= 0;
    ThreadStepIsGood(s.world, pc, Mine(s, i), job, env);
    ThreadStepKeepsCore(s.world, pc, job, env);
    forall j | j in t.threads ensures ThreadOk(t.world, t.threads[j], Mine(t, j), job) {
      if j != i {
        OthersStayOk(s.world, t.world, s.threads[j], Mine(s, j), job, Mine(s, i) || Creates(s.world, pc));
      }
    }
    forall j | j in s.threads && j != i && HeldBy(t.threads[i]).Some?
      ensures HeldBy(t.threads[i]) != HeldBy(t.threads[j])
    {
      if HeldBy(t.threads[i]) != HeldBy(pc) {
        NewLeaseIsUnheld(s, HeldBy(t.threads[i]).value, job, j);
      }
    }
  }

  /** Time passes, or other features move shards: no thread takes a step. */
  lemma WorldMoveKeepsInv(s: System, s': System, job: Job)
    requires Inv(s, job) && (Ticks(s, s') || Elsewhere(s, s', job))
    ensures Inv(s', job) && Evolves(s.world, s'.world, job, false)
  {
    forall j | j in s'.threads ensures ThreadOk(s'.world, s'.threads[j], Mine(s', j), job) {
      OthersStayOk(s.world, s'.world, s.threads[j], Mine(s, j), job, false);
    }
  }

  lemma ArrivalKeepsInv(s: System, s': System, job: Job)
    requires Inv(s, job) && Arrives(s, s')
    ensures Inv(s', job) && Evolves(s.world, s'.world, job, false)
  {
    forall j | j in s'.threads ensures ThreadOk(s'.world, s'.threads[j], Mine(s', j), job) {
      if j in s.threads { assert ThreadOk(s.world, s.threads[j], Mine(s, j), job); }
    }
  }

  lemma PassiveStepKeepsInv(s: System, s': System, job: Job)
    requires Inv(s, job) && (Arrives(s, s') || Ticks(s, s') || Elsewhere(s, s', job))
    ensures Inv(s', job) && Evolves(s.world, s'.world, job, false)
  {
    if Arrives(s, s') {
      ArrivalKeepsInv(s, s', job);
    } else {
      WorldMoveKeepsInv(s, s', job);
    }
  }

  lemma InitInv(s: System, job: Job)
    requires Init(s, job)
    ensures Inv(s, job)
  {
  }

  lemma NextKeepsInv(s: System, s': System, job: Job)
    requires Inv(s, job) && Next(s, s', job) && job.price > 0
    ensures Inv(s', job) && Evolves(s.world, s'.world, job, true)
  {
    if i :| Acts(s, s', i, job) {
      var env :| s' == StepOf(s, i, job, env);
      ActKeepsInv(s, i, job, env);
    } else {
      PassiveStepKeepsInv(s, s', job);
    }
  }

  /** The invariant holds in every state of every run. */
  lemma {:induction false} RunKeepsInv(ss: seq<System>, job: Job, n: nat)
    requires Behaviour(ss, job) && n < |ss| && job.price > 0
    ensures Inv(ss[n], job)
  {
    if n == 0 {
      InitInv(ss[0], job);
    } else {
      RunKeepsInv(ss, job, n - 1);
      assert StepAt(ss, n - 1, job);
      NextKeepsInv(ss[n - 1], ss[n], job);
    }
  }

  lemma EvolvesTransitive(a: World, b: World, c: World, job: Job)
    requires Evolves(a, b, job, true) && Evolves(b, c, job, true)
    ensures Evolves(a, c, job, true)
  {
  }

  lemma EvolvesReflexive(w: World, job: Job)
    requires WorldOk(w, job)
    ensures Evolves(w, w, job, true)
  {
  }

  lemma RunStepEvolves(ss: seq<System>, job: Job, n: nat)
    requires Behaviour(ss, job) && n + 1 < |ss| && job.price > 0
    ensures Evolves(ss[n].world, ss[n + 1].world, job, true)
  {
    RunKeepsInv(ss, job, n);
    assert StepAt(ss, n, job);
    NextKeepsInv(ss[n], ss[n + 1], job);
  }

  /** Documents, ledger keys and history only evolve between any two moments. */
  lemma {:induction false} RunEvolves(ss: seq<System>, job: Job, m: nat, n: nat)
    requires Behaviour(ss, job) && m <= n < |ss| && job.price > 0
    ensures Evolves(ss[m].world, ss[n].world, job, true)
    decreases n
  {
    if m == n {
      RunKeepsInv(ss, job, n);
      EvolvesReflexive(ss[n].world, job);
    } else {
      RunEvolves(ss, job, m, n - 1);
      RunStepEvolves(ss, job, n - 1);
      EvolvesTransitive(ss[m].world, ss[n - 1].world, ss[n].world, job);
    }
  }
}
