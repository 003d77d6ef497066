/** Every call ends, and one undisturbed `status` call settles whatever earlier
    callers left behind. */
module GenerationProgress {
  import opened Wrappers
  import opened LedgerModel
  import opened GenerationModel
  import opened GenerationProtocol
  import opened GenerationSafety
  import opened GenerationTheorems
  import opened GenerationLimits

  /** How many more steps a thread can take at most. */
  function StepsLeft(pc: Pc): nat {
    match pc
    case GenerateLook => 20
    case GeneratePrepare => 19
    case Creating(_) => 18
    case Debiting(_) => 17
    case Providing(_) => 16
    case Putting(_) => 15
    case Finishing(_) => 14
    case AbandonRead => 13
    case StatusLook => 12
    case Resuming(_) => 11
    case Stealing => 10
    case Checking(_) => 9
    case Recovering(_) => 8
    case Refunding(_, _) => 7
    case FailFinish(_, _, _) => 6
    case FailRead(_) => 5
    case SweepLook(_) => 4
    case Retrying(_) => 2
    case SweepDelete(_) => 1
    case AbandonDelete(_) => 1
    case ClosingUnpaid(_) => 1
    case ReadBack => 1
    case RetryFinish(_) => 1
    case Done(_) => 0
  }

  /** No call loops: every step of an unfinished call brings it closer to its end. */
  lemma CallsEnd(w: World, pc: Pc, job: Job, env: Env)
    requires !pc.Done?
    ensures StepsLeft(ThreadStep(w, pc, job, env).1) < StepsLeft(pc)
  {
  }

  /** One call run to its end with nobody else moving. */
  function RunToEnd(w: World, pc: Pc, job: Job, env: Env): (World, Answer)
    decreases StepsLeft(pc)
  {
    if pc.Done? then (w, pc.outcome)
    else
      CallsEnd(w, pc, job, env);
      var (w', pc') := ThreadStep(w, pc, job, env);
      RunToEnd(w', pc', job, env)
  }

  lemma OneStep(w: World, pc: Pc, job: Job, env: Env, w': World, pc': Pc)
    requires !pc.Done? && ThreadStep(w, pc, job, env) == (w', pc')
    ensures RunToEnd(w, pc, job, env) == RunToEnd(w', pc', job, env)
  {
  }

  /** The document a recovery confirms, and the one a refund closes. */
  function Confirmed(g: Generation): Generation { Generation(Succeeded, g.created, None, true, g.refundNoted) }

  function Closed(g: Generation): Generation { Generation(Refunded, g.created, None, false, true) }

  /** A reconciler that found the object of its stolen generation confirms it. */
  lemma RecoveringSucceeds(w: World, job: Job)
    requires StatusIs(w, Pending) && w.present
    ensures RunToEnd(w, Checking(w.doc.value), job, CALM)
         == (w.(doc := Some(Confirmed(w.doc.value))), Answered(Confirmed(w.doc.value)))
  {
    var g := w.doc.value;
    var done := Confirmed(g);
    OneStep(w, Checking(g), job, CALM, w, Recovering(g.lease));
    OneStep(w, Recovering(g.lease), job, CALM, w.(doc := Some(done)), Done(Answered(done)));
  }

  /** A reconciler that found none refunds and closes the generation. */
  lemma InterruptedIsRefunded(w: World, job: Job)
    requires StatusIs(w, Pending) && !w.present
    ensures RunToEnd(w, Checking(w.doc.value), job, CALM)
         == (w.(doc := Some(Closed(w.doc.value)), ledger := Credited(w.ledger, job)), Answered(Closed(w.doc.value)))
  {
    var g := w.doc.value;
    var done := Closed(g);
    var v := w.(ledger := Credited(w.ledger, job));
    OneStep(w, Checking(g), job, CALM, w, Refunding(g.lease, Reconciler));
    OneStep(w, Refunding(g.lease, Reconciler), job, CALM, v, FailFinish(g.lease, Reconciler, true));
    OneStep(v, FailFinish(g.lease, Reconciler, true), job, CALM, v.(doc := Some(done)), SweepLook(done));
    OneStep(v.(doc := Some(done)), SweepLook(done), job, CALM, v.(doc := Some(done)), Done(Answered(done)));
  }

  /** An undisturbed `status` call on a document that is due steals its lease. */
  lemma StatusReachesCheck(w: World, job: Job)
    requires StatusIs(w, Pending) && w.doc.value.Recoverable(w.clock) && w.doc.value.LeaseExpired(w.clock)
    ensures RunToEnd(w, StatusLook, job, CALM)
         == RunToEnd(w.(doc := Some(Relet(w))), Checking(Relet(w)), job, CALM)
  {
    var seen := w.doc.value;
    OneStep(w, StatusLook, job, CALM, w, Resuming(seen));
    OneStep(w, Resuming(seen), job, CALM, w, Stealing);
    OneStep(w, Stealing, job, CALM, w.(doc := Some(Relet(w))), Checking(Relet(w)));
  }

  function Relet(w: World): Generation
    requires w.doc.Some?
  {
    w.doc.value.(lease := Some(w.clock + GENERATION_LEASE))
  }

  lemma StatusSettles(w: World, job: Job)
    requires StatusIs(w, Pending) && w.doc.value.Recoverable(w.clock) && w.doc.value.LeaseExpired(w.clock)
    ensures var g := if w.present then Confirmed(w.doc.value) else Closed(w.doc.value);
            var l := if w.present then w.ledger else Credited(w.ledger, job);
            RunToEnd(w, StatusLook, job, CALM) == (w.(doc := Some(g), ledger := l), Answered(g))
  {
    StatusReachesCheck(w, job);
    if w.present {
      RecoveringSucceeds(w.(doc := Some(Relet(w))), job);
    } else {
      InterruptedIsRefunded(w.(doc := Some(Relet(w))), job);
    }
  }

  lemma RefundReaches(s: System, job: Job)
    requires Reachable(s, job) && job.price > 0
    ensures job.RefundKey() in Credited(s.world.ledger, job).applied
    ensures WorldOk(s.world, job)
  {
    ReachableInv(s, job);
    assert WalletOf(s.world.ledger, job.user).balance >= 0;
    CreditedFacts(s.world.ledger, job);
  }

  /** From every reachable PENDING state past grace with an expired lease, one
      undisturbed `status` call ends in SUCCEEDED if the object is there and in
      REFUNDED, with the refund in the ledger, if it is not. */
  lemma StatusSettlesPending(s: System, job: Job)
    requires Reachable(s, job) && job.price > 0 && StatusIs(s.world, Pending)
    requires s.world.doc.value.Recoverable(s.world.clock) && s.world.doc.value.LeaseExpired(s.world.clock)
    ensures var (w, answer) := RunToEnd(s.world, StatusLook, job, CALM);
            && StatusIs(w, if s.world.present then Succeeded else Refunded)
            && answer == Answered(w.doc.value)
            && (s.world.present ==> w.ledger == s.world.ledger && w.present)
            && (!s.world.present ==> PaidBack(w, job) && !w.present)
  {
    RefundReaches(s, job);
    StatusSettles(s.world, job);
  }

  lemma RetryRefunds(w: World, job: Job)
    requires StatusIs(w, Failed) && w.doc.value.lease.None?
    ensures RunToEnd(w, StatusLook, job, CALM)
         == (w.(doc := Some(Closed(w.doc.value)), ledger := Credited(w.ledger, job)), Answered(Closed(w.doc.value)))
  {
    var g := w.doc.value;
    var v := w.(ledger := Credited(w.ledger, job));
    var done := Closed(g);
    OneStep(w, StatusLook, job, CALM, w, Resuming(g));
    OneStep(w, Resuming(g), job, CALM, w, Retrying(g));
    OneStep(w, Retrying(g), job, CALM, v, RetryFinish(g));
    OneStep(v, RetryFinish(g), job, CALM, v.(doc := Some(done)), Done(Answered(done)));
  }

  /** From every reachable FAILED state one undisturbed `status` call refunds. */
  lemma StatusSettlesFailed(s: System, job: Job)
    requires Reachable(s, job) && job.price > 0 && StatusIs(s.world, Failed)
    ensures var (w, answer) := RunToEnd(s.world, StatusLook, job, CALM);
            StatusIs(w, Refunded) && PaidBack(w, job) && answer == Answered(w.doc.value)
  {
    RefundReaches(s, job);
    RetryRefunds(s.world, job);
  }

  /** Nothing is stuck for ever: whatever state crashes left an unfinished
      generation in, there is a time after which one `status` call finishes it. */
  lemma NothingStaysStuck(s: System, job: Job)
    requires Reachable(s, job) && job.price > 0
    requires StatusIs(s.world, Pending) || StatusIs(s.world, Failed)
    ensures var due := Later(s.world.clock, Later(s.world.doc.value.created + RECOVERY_GRACE,
                                 if s.world.doc.value.lease.Some? then s.world.doc.value.lease.value else 0));
            var (w, _) := RunToEnd(s.world.(clock := due), StatusLook, job, CALM);
            StatusIs(w, Succeeded) || StatusIs(w, Refunded)
  {
    var due := Later(s.world.clock, Later(s.world.doc.value.created + RECOVERY_GRACE,
                         if s.world.doc.value.lease.Some? then s.world.doc.value.lease.value else 0));
    var t := TickTo(s, due);
    FromHere(s, job);
    FromTick(s, s, due, job);
    ReachableFrom(s, t, job);
    if StatusIs(s.world, Pending) {
      StatusSettlesPending(t, job);
    } else {
      StatusSettlesFailed(t, job);
    }
  }
}
