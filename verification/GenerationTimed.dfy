/** When the guarantees of the generation protocol can fail, step by step. Each
    guarantee that arbitrary delays can break is broken only by one kind of step,
    its slip, and holds in every run without that step. */
module GenerationTimed {
  import opened Wrappers
  import opened LedgerModel
  import opened GenerationModel
  import opened GenerationProtocol
  import opened GenerationSafety

  /** The grace of the document has passed. */
  predicate Late(w: World) { w.doc.Some? && w.doc.value.created + RECOVERY_GRACE <= w.clock }

  predicate PendingUnder(w: World, lease: Option<int>) {
    StatusIs(w, Pending) && w.doc.value.lease == lease
  }

  /** Closed without a success, or about to be. */
  predicate Lost(w: World) { StatusIs(w, Failed) || StatusIs(w, Refunded) }

  // What holds in every run: before the grace has passed only the worker acts.

  /** Before the grace has passed nothing has happened to this generation. */
  predicate Undisturbed(w: World, lease: Option<int>, job: Job) {
    !Late(w) ==> PendingUnder(w, lease) && !PaidBack(w, job)
  }

  predicate ThreadTimed(w: World, pc: Pc, job: Job) {
    match pc
    case Debiting(lease) => Undisturbed(w, lease, job)
    case ClosingUnpaid(lease) => Undisturbed(w, lease, job)
    case Providing(lease) => Undisturbed(w, lease, job)
    case Putting(lease) => Undisturbed(w, lease, job)
    case Finishing(lease) => Undisturbed(w, lease, job) && (StatusIs(w, Refunded) || w.present)
    case AbandonRead => StatusIs(w, Pending) ==> Late(w)
    case Refunding(_, role) => role.Reconciler? ==> Late(w)
    case FailFinish(_, role, _) => role.Reconciler? ==> Late(w)
    case Stealing => Late(w)
    case Checking(_) => Late(w)
    case Recovering(_) => Late(w)
    case _ => true
  }

  /** What a step of one thread may change for the others. */
  predicate EvolvesTimed(w: World, w': World, job: Job, creatorMoved: bool) {
    && (Late(w) ==> Late(w'))
    && (!creatorMoved && !Late(w) && StatusIs(w, Pending) ==>
          w'.doc == w.doc && (PaidBack(w', job) ==> PaidBack(w, job)))
    && (!creatorMoved && w.present && !w'.present ==> StatusIs(w, Refunded))
  }

  ghost predicate Before(w: World, pc: Pc, mine: bool, job: Job) {
    WorldOk(w, job) && ThreadOk(w, pc, mine, job) && ThreadTimed(w, pc, job)
  }

  lemma OthersStayTimed(w: World, w': World, pc: Pc, mine: bool, job: Job, creatorMoved: bool)
    requires Before(w, pc, mine, job)
    requires Evolves(w, w', job, creatorMoved) && EvolvesTimed(w, w', job, creatorMoved)
    requires mine ==> !creatorMoved
    ensures ThreadTimed(w', pc, job)
  {
  }

  ghost predicate StepTimed(w: World, pc: Pc, w': World, pc': Pc, mine: bool, job: Job) {
    ThreadTimed(w', pc', job) && EvolvesTimed(w, w', job, mine || Creates(w, pc))
  }

  lemma ReadStepTimed(w: World, pc: Pc, mine: bool, job: Job, env: Env)
    requires !MovesShards(pc) && !WritesDocument(pc) && !TouchesOutside(pc) && Before(w, pc, mine, job)
    ensures StepTimed(w, pc, w, ReadStep(w, pc, env), mine, job)
  {
  }

  lemma OutsideStepTimed(w: World, pc: Pc, mine: bool, job: Job, env: Env)
    requires TouchesOutside(pc) && Before(w, pc, mine, job)
    ensures var (w', pc') := OutsideStep(w, pc, env); StepTimed(w, pc, w', pc', mine, job)
  {
  }

  lemma ClosingStepTimed(w: World, pc: Pc, mine: bool, job: Job)
    requires WritesDocument(pc) && !pc.Stealing? && !pc.Creating? && !pc.RetryFinish? && Before(w, pc, mine, job)
    ensures var (w', pc') := DocumentStep(w, pc); StepTimed(w, pc, w', pc', mine, job)
  {
  }

  lemma LeasingStepTimed(w: World, pc: Pc, mine: bool, job: Job)
    requires (pc.Stealing? || pc.Creating? || pc.RetryFinish?) && Before(w, pc, mine, job)
    ensures var (w', pc') := DocumentStep(w, pc); StepTimed(w, pc, w', pc', mine, job)
  {
  }

  lemma ShardStepTimed(w: World, pc: Pc, mine: bool, job: Job, env: Env)
    requires MovesShards(pc) && Before(w, pc, mine, job)
    requires job.price > 0 && WalletOf(w.ledger, job.user).balance >= 0
    ensures var (w', pc') := ShardStep(w, pc, job, env); StepTimed(w, pc, w', pc', mine, job)
  {
    if pc.Debiting? { DebitedFacts(w.ledger, job); } else { CreditedFacts(w.ledger, job); }
  }

  lemma ThreadStepTimed(w: World, pc: Pc, mine: bool, job: Job, env: Env)
    requires Before(w, pc, mine, job)
    requires job.price > 0 && WalletOf(w.ledger, job.user).balance >= 0
    ensures var (w', pc') := ThreadStep(w, pc, job, env); StepTimed(w, pc, w', pc', mine, job)
  {
    if MovesShards(pc) {
      ShardStepTimed(w, pc, mine, job, env);
    } else if pc.Stealing? || pc.Creating? || pc.RetryFinish? {
      LeasingStepTimed(w, pc, mine, job);
    } else if WritesDocument(pc) {
      ClosingStepTimed(w, pc, mine, job);
    } else if TouchesOutside(pc) {
      OutsideStepTimed(w, pc, mine, job, env);
    } else {
      ReadStepTimed(w, pc, mine, job, env);
    }
  }

  // The guarantees that delays can break.

  /** `UnpaidRefund`: a refund answers a debit. `LateUpload`: nobody keeps picture
      and refund. `LateObject`: no object is left of a refund. `LostConfirmation`:
      a success has its object. `Cleanup`: the worker's clean-up is never reached. */
  datatype Guarantee = UnpaidRefund | LateUpload | LateObject | LostConfirmation | Cleanup

  /** What the guarantee says about the shared part. */
  predicate WorldKeeps(g: Guarantee, w: World, job: Job) {
    match g
    case UnpaidRefund => (PaidBack(w, job) ==> Paid(w, job)) && (StatusIs(w, Failed) ==> Paid(w, job))
    case LateUpload => w.present && PaidBack(w, job) ==> Lost(w)
    case LateObject => PaidBack(w, job) || Lost(w) ==> !w.present
    case LostConfirmation => StatusIs(w, Succeeded) ==> w.present
    case Cleanup => true
  }

  /** A thread on its way to a refund. */
  predicate PaysBack(pc: Pc) {
    || pc.Refunding? || pc.FailFinish? || pc.Checking? || pc.Retrying? || pc.RetryFinish?
    || (pc.Resuming? && pc.seen.status.Failed?)
  }

  /** What it needs of a thread. */
  predicate ThreadKeeps(g: Guarantee, w: World, pc: Pc, job: Job) {
    match g
    case UnpaidRefund => PaysBack(pc) ==> Paid(w, job)
    case LateUpload => pc.Refunding? && pc.role.Reconciler? && w.present ==> Lost(w)
    case LateObject => (pc.Refunding? || pc.FailFinish?) && pc.role.Reconciler? ==> !w.present
    case LostConfirmation =>
      && (pc.AbandonRead? ==> !StatusIs(w, Pending))
      && (pc.AbandonDelete? ==> Lost(w))
      && (pc.Recovering? && StatusIs(w, Pending) ==> w.present)
    case Cleanup => !pc.AbandonRead? && !pc.AbandonDelete?
  }

  /** The step that can break it: an unpaid generation is taken over; an object is
      stored after the grace, while the generation is pending or at all; a worker
      loses the compare-and-set to a pending document, or at all after the grace. */
  predicate Slips(g: Guarantee, w: World, pc: Pc, pc': Pc, job: Job) {
    match g
    case UnpaidRefund => pc.Stealing? && pc'.Checking? && !Paid(w, job)
    case LateUpload => pc.Putting? && pc'.Finishing? && Late(w) && StatusIs(w, Pending)
    case LateObject => pc.Putting? && pc'.Finishing? && Late(w)
    case LostConfirmation => pc.Finishing? && pc'.AbandonRead? && StatusIs(w, Pending)
    case Cleanup => pc.Finishing? && pc'.AbandonRead? && Late(w)
  }

  predicate EvolvesKept(g: Guarantee, w: World, w': World) {
    match g
    case LateUpload => Late(w) && w'.present && !w.present ==> Lost(w')
    case LateObject => w'.present && !w.present ==> !Late(w)
    case LostConfirmation => w.present && !w'.present ==> !StatusIs(w, Pending)
    case _ => true
  }

  lemma OthersKeep(g: Guarantee, w: World, w': World, pc: Pc, mine: bool, job: Job)
    requires Before(w, pc, mine, job) && ThreadKeeps(g, w, pc, job)
    requires Evolves(w, w', job, true) && EvolvesKept(g, w, w')
    ensures ThreadKeeps(g, w', pc, job)
  {
  }

  ghost predicate StepKeeps(g: Guarantee, w: World, w': World, pc': Pc, job: Job) {
    WorldKeeps(g, w', job) && ThreadKeeps(g, w', pc', job) && EvolvesKept(g, w, w')
  }

  ghost predicate Kept(g: Guarantee, w: World, pc: Pc, mine: bool, job: Job) {
    Before(w, pc, mine, job) && WorldKeeps(g, w, job) && ThreadKeeps(g, w, pc, job)
  }

  lemma ReadStepKeeps(g: Guarantee, w: World, pc: Pc, mine: bool, job: Job, env: Env)
    requires !MovesShards(pc) && !WritesDocument(pc) && !TouchesOutside(pc) && Kept(g, w, pc, mine, job)
    ensures StepKeeps(g, w, w, ReadStep(w, pc, env), job)
  {
  }

  lemma OutsideStepKeeps(g: Guarantee, w: World, pc: Pc, mine: bool, job: Job, env: Env)
    requires TouchesOutside(pc) && Kept(g, w, pc, mine, job)
    requires !Slips(g, w, pc, OutsideStep(w, pc, env).1, job)
    ensures var (w', pc') := OutsideStep(w, pc, env); StepKeeps(g, w, w', pc', job)
  {
  }

  lemma DocumentStepKeeps(g: Guarantee, w: World, pc: Pc, mine: bool, job: Job)
    requires WritesDocument(pc) && Kept(g, w, pc, mine, job)
    requires !Slips(g, w, pc, DocumentStep(w, pc).1, job)
    ensures var (w', pc') := DocumentStep(w, pc); StepKeeps(g, w, w', pc', job)
  {
  }

  lemma ShardStepKeeps(g: Guarantee, w: World, pc: Pc, mine: bool, job: Job, env: Env)
    requires MovesShards(pc) && Kept(g, w, pc, mine, job)
    requires job.price > 0 && WalletOf(w.ledger, job.user).balance >= 0
    ensures var (w', pc') := ShardStep(w, pc, job, env); StepKeeps(g, w, w', pc', job)
  {
    if pc.Debiting? { DebitedFacts(w.ledger, job); } else { CreditedFacts(w.ledger, job); }
  }

  lemma ThreadStepKeeps(g: Guarantee, w: World, pc: Pc, mine: bool, job: Job, env: Env)
    requires Kept(g, w, pc, mine, job)
    requires job.price > 0 && WalletOf(w.ledger, job.user).balance >= 0
    requires !Slips(g, w, pc, ThreadStep(w, pc, job, env).1, job)
    ensures var (w', pc') := ThreadStep(w, pc, job, env); StepKeeps(g, w, w', pc', job)
  {
    if MovesShards(pc) {
      ShardStepKeeps(g, w, pc, mine, job, env);
    } else if WritesDocument(pc) {
      DocumentStepKeeps(g, w, pc, mine, job);
    } else if TouchesOutside(pc) {
      OutsideStepKeeps(g, w, pc, mine, job, env);
    } else {
      ReadStepKeeps(g, w, pc, mine, job, env);
    }
  }

  // Whole systems.

  ghost predicate InvTimed(s: System, job: Job) {
    forall i :: i in s.threads ==> ThreadTimed(s.world, s.threads[i], job)
  }

  ghost predicate InvKept(g: Guarantee, s: System, job: Job) {
    && WorldKeeps(g, s.world, job)
    && forall i :: i in s.threads ==> ThreadKeeps(g, s.world, s.threads[i], job)
  }

  /** Between two states of a run no thread takes the slip of this guarantee. */
  ghost predicate NoSlip(g: Guarantee, s: System, s': System, job: Job) {
    forall i :: i in s.threads && i in s'.threads ==> !Slips(g, s.world, s.threads[i], s'.threads[i], job)
  }

  lemma ActKeepsTimed(s: System, i: int, job: Job, env: Env)
    requires Inv(s, job) && InvTimed(s, job) && i in s.threads && job.price > 0
    ensures InvTimed(StepOf(s, i, job, env), job)
  {
    var t := StepOf(s, i, job, env);
    var pc := s.threads[i];
    assert WalletOf(s.world.ledger, job.user).balance >= 0;
    ThreadStepTimed(s.world, pc, Mine(s, i), job, env);
    ThreadStepIsGood(s.world, pc, Mine(s, i), job, env);
    forall j | j in t.threads ensures ThreadTimed(t.world, t.threads[j], job) {
      if j != i {
        OthersStayTimed(s.world, t.world, s.threads[j], Mine(s, j), job, Mine(s, i) || Creates(s.world, pc));
      }
    }
  }

  lemma PassiveKeepsTimed(s: System, s': System, job: Job)
    requires Inv(s, job) && InvTimed(s, job)
    requires Arrives(s, s') || Ticks(s, s') || Elsewhere(s, s', job)
    ensures InvTimed(s', job)
  {
    forall j | j in s'.threads ensures ThreadTimed(s'.world, s'.threads[j], job) {
      if j in s.threads && s'.threads[j] == s.threads[j] {
        OthersStayTimed(s.world, s'.world, s.threads[j], Mine(s, j), job, false);
      }
    }
  }

  lemma NextKeepsTimed(s: System, s': System, job: Job)
    requires Inv(s, job) && InvTimed(s, job) && Next(s, s', job) && job.price > 0
    ensures InvTimed(s', job)
  {
    if i :| Acts(s, s', i, job) {
      var env :| s' == StepOf(s, i, job, env);
      ActKeepsTimed(s, i, job, env);
    } else {
      PassiveKeepsTimed(s, s', job);
    }
  }

  /** In every run, before the grace has passed only the worker acts on its
      generation, and an object that is about to be confirmed is there. */
  lemma {:induction false} RunKeepsTimed(ss: seq<System>, job: Job, n: nat)
    requires Behaviour(ss, job) && n < |ss| && job.price > 0
    ensures InvTimed(ss[n], job)
  {
    if n > 0 {
      RunKeepsTimed(ss, job, n - 1);
      RunKeepsInv(ss, job, n - 1);
      assert StepAt(ss, n - 1, job);
      NextKeepsTimed(ss[n - 1], ss[n], job);
    }
  }

  lemma ActKeeps(g: Guarantee, s: System, i: int, job: Job, env: Env)
    requires Inv(s, job) && InvTimed(s, job) && InvKept(g, s, job) && i in s.threads && job.price > 0
    requires NoSlip(g, s, StepOf(s, i, job, env), job)
    ensures InvKept(g, StepOf(s, i, job, env), job)
  {
    var t := StepOf(s, i, job, env);
    assert WalletOf(s.world.ledger, job.user).balance >= 0;
    assert !Slips(g, s.world, s.threads[i], t.threads[i], job);
    ThreadStepKeeps(g, s.world, s.threads[i], Mine(s, i), job, env);
    ActKeepsInv(s, i, job, env);
    forall j | j in t.threads ensures ThreadKeeps(g, t.world, t.threads[j], job) {
      if j != i {
        OthersKeep(g, s.world, t.world, s.threads[j], Mine(s, j), job);
      }
    }
  }

  lemma PassiveKeeps(g: Guarantee, s: System, s': System, job: Job)
    requires Inv(s, job) && InvTimed(s, job) && InvKept(g, s, job)
    requires Arrives(s, s') || Ticks(s, s') || Elsewhere(s, s', job)
    ensures InvKept(g, s', job)
  {
    PassiveStepKeepsInv(s, s', job);
    forall j | j in s'.threads ensures ThreadKeeps(g, s'.world, s'.threads[j], job) {
      if j in s.threads && s'.threads[j] == s.threads[j] {
        OthersKeep(g, s.world, s'.world, s.threads[j], Mine(s, j), job);
      }
    }
  }

  lemma NextKeeps(g: Guarantee, s: System, s': System, job: Job)
    requires Inv(s, job) && InvTimed(s, job) && InvKept(g, s, job) && job.price > 0
    requires Next(s, s', job) && NoSlip(g, s, s', job)
    ensures InvKept(g, s', job)
  {
    if i :| Acts(s, s', i, job) {
      var env :| s' == StepOf(s, i, job, env);
      ActKeeps(g, s, i, job, env);
    } else {
      PassiveKeeps(g, s, s', job);
    }
  }

  ghost predicate NoSlipAt(g: Guarantee, ss: seq<System>, n: int, job: Job)
    requires 0 <= n < |ss| - 1
  {
    NoSlip(g, ss[n], ss[n + 1], job)
  }

  /** A run in which the slip of this guarantee never happens. Everything else may
      be arbitrarily slow, overlap or stop. */
  ghost predicate Steady(g: Guarantee, ss: seq<System>, job: Job) {
    Behaviour(ss, job) && forall n :: 0 <= n < |ss| - 1 ==> NoSlipAt(g, ss, n, job)
  }

  /** Each guarantee is kept in every state of every run without its slip. */
  lemma {:induction false} RunKeeps(g: Guarantee, ss: seq<System>, job: Job, n: nat)
    requires Steady(g, ss, job) && n < |ss| && job.price > 0
    ensures InvKept(g, ss[n], job)
    decreases n
  {
    if n > 0 {
      RunKeeps(g, ss, job, n - 1);
      RunKeepsTimed(ss, job, n - 1);
      RunKeepsInv(ss, job, n - 1);
      assert StepAt(ss, n - 1, job) && NoSlipAt(g, ss, n - 1, job);
      NextKeeps(g, ss[n - 1], ss[n], job);
    }
  }

  // The timing that the grace period is chosen for.

  /** A worker that uploads, or that tries to confirm its upload, does so before
      the grace has passed. */
  ghost predicate Punctual(s: System, s': System) {
    forall i | i in s.threads && i in s'.threads && s.threads[i] != s'.threads[i] ::
      s.threads[i].Finishing? || s'.threads[i].Finishing? ==> !Late(s.world)
  }

  ghost predicate PunctualAt(ss: seq<System>, n: int)
    requires 0 <= n < |ss| - 1
  {
    Punctual(ss[n], ss[n + 1])
  }

  ghost predicate PunctualBehaviour(ss: seq<System>, job: Job) {
    Behaviour(ss, job) && forall n :: 0 <= n < |ss| - 1 ==> PunctualAt(ss, n)
  }

  /** A worker that loses the compare-and-set loses it to somebody who acted after
      the grace. */
  lemma LosersAreLate(s: System, s': System, i: int, job: Job)
    requires InvTimed(s, job) && Next(s, s', job)
    requires i in s.threads && i in s'.threads && s.threads[i].Finishing? && s'.threads[i].AbandonRead?
    ensures Late(s.world)
  {
    assert ThreadTimed(s.world, s.threads[i], job);
    if j :| Acts(s, s', j, job) {
      var env :| s' == StepOf(s, j, job, env);
    }
  }

  /** A punctual run slips nowhere but, possibly, in taking over a generation whose
      debit never happened. */
  lemma PunctualIsSteady(g: Guarantee, ss: seq<System>, job: Job)
    requires PunctualBehaviour(ss, job) && job.price > 0 && !g.UnpaidRefund?
    ensures Steady(g, ss, job)
  {
    forall n | 0 <= n < |ss| - 1 ensures NoSlipAt(g, ss, n, job) {
      RunKeepsTimed(ss, job, n);
      assert StepAt(ss, n, job) && PunctualAt(ss, n);
      forall i | i in ss[n].threads && i in ss[n + 1].threads
        ensures !Slips(g, ss[n].world, ss[n].threads[i], ss[n + 1].threads[i], job)
      {
        if ss[n].threads[i].Finishing? && ss[n + 1].threads[i].AbandonRead? {
          LosersAreLate(ss[n], ss[n + 1], i, job);
        }
      }
    }
  }
}
