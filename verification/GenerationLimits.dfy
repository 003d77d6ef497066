/** The other half of the guarantees that delays can break: the states in which a
    slip can happen, and from each of them a continuation that breaks the
    guarantee. So the conditions of GenerationTheorems are exact. */
module GenerationLimits {
  import opened Wrappers
  import opened LedgerModel
  import opened LedgerInvariant
  import opened GenerationModel
  import opened GenerationProtocol
  import opened GenerationSafety
  import opened GenerationTimed
  import opened GenerationTheorems

  // Continuations of a run.

  ghost predicate Path(ss: seq<System>, job: Job) {
    |ss| > 0 && forall n :: 0 <= n < |ss| - 1 ==> StepAt(ss, n, job)
  }

  /** The system can go on from `o` to `s`. */
  ghost predicate From(o: System, s: System, job: Job) {
    exists ss :: Path(ss, job) && ss[0] == o && End(ss) == s
  }

  lemma FromHere(s: System, job: Job)
    ensures From(s, s, job)
  {
    assert Path([s], job) && [s][0] == s && End([s]) == s;
  }

  lemma PathExtends(ss: seq<System>, s': System, job: Job)
    requires Path(ss, job) && Next(End(ss), s', job)
    ensures Path(ss + [s'], job) && End(ss + [s']) == s'
  {
    var longer := ss + [s'];
    forall n | 0 <= n < |longer| - 1 ensures StepAt(longer, n, job) {
      if n < |ss| - 1 {
        assert StepAt(ss, n, job);
      }
    }
  }

  lemma FromNext(o: System, s: System, s': System, job: Job)
    requires From(o, s, job) && Next(s, s', job)
    ensures From(o, s', job)
  {
    var ss :| Path(ss, job) && ss[0] == o && End(ss) == s;
    PathExtends(ss, s', job);
    assert (ss + [s'])[0] == o;
  }

  /** What a reachable state can go on to is reachable. */
  lemma {:induction false} PathStaysReachable(ss: seq<System>, job: Job, n: nat)
    requires Path(ss, job) && Reachable(ss[0], job) && n < |ss|
    ensures Reachable(ss[n], job)
    decreases n
  {
    if n > 0 {
      PathStaysReachable(ss, job, n - 1);
      assert StepAt(ss, n - 1, job);
      var rr :| Behaviour(rr, job) && End(rr) == ss[n - 1];
      PathExtends(rr, ss[n], job);
      assert Behaviour(rr + [ss[n]], job);
    }
  }

  lemma ReachableFrom(o: System, s: System, job: Job)
    requires Reachable(o, job) && From(o, s, job)
    ensures Reachable(s, job)
  {
    var ss :| Path(ss, job) && ss[0] == o && End(ss) == s;
    PathStaysReachable(ss, job, |ss| - 1);
  }

  function Arrive(s: System, i: int, pc: Pc): System { s.(threads := s.threads[i := pc]) }

  function TickTo(s: System, clock: int): System { s.(world := s.world.(clock := clock)) }

  /** `s` with thread i at `pc` in the world `w`. */
  function With(s: System, i: int, w: World, pc: Pc): System { System(w, s.threads[i := pc], s.creator) }

  /** Thread i goes from `pc` to `pc'` and turns the world `w` into `w'`. */
  lemma Hop(o: System, s: System, i: int, w: World, pc: Pc, w': World, pc': Pc, job: Job, env: Env)
    requires From(o, With(s, i, w, pc), job)
    requires ThreadStep(w, pc, job, env) == (w', pc') && !Creates(w, pc)
    ensures From(o, With(s, i, w', pc'), job)
  {
    var before := With(s, i, w, pc);
    var after := With(s, i, w', pc');
    assert after == StepOf(before, i, job, env);
    assert Acts(before, after, i, job);
    FromNext(o, before, after, job);
  }

  lemma FromTick(o: System, s: System, clock: int, job: Job)
    requires From(o, s, job) && s.world.clock <= clock
    ensures From(o, TickTo(s, clock), job)
  {
    assert Ticks(s, TickTo(s, clock));
    FromNext(o, s, TickTo(s, clock), job);
  }

  lemma FromArrive(o: System, s: System, i: int, pc: Pc, job: Job)
    requires From(o, s, job) && i !in s.threads && (pc == GenerateLook || pc == StatusLook)
    ensures From(o, Arrive(s, i, pc), job)
  {
    assert Arrive(s, i, pc).threads[i] == pc;
    assert Arrives(s, Arrive(s, i, pc));
    FromNext(o, s, Arrive(s, i, pc), job);
  }

  /** There is always room for another caller. */
  lemma {:induction false} NewCaller(ids: set<int>) returns (i: int)
    ensures forall j :: j in ids ==> j < i
  {
    if j :| j in ids {
      i := NewCaller(ids - {j});
      i := if j < i then i else j + 1;
      assert forall k :: k in ids ==> k == j || k in ids - {j};
    } else {
      i := 0;
    }
  }

  // Callers that come late.

  function Later(a: int, b: int): int { if a < b then b else a }

  /** When the lease of a pending document is over. */
  function Due(w: World): int
    requires w.doc.Some?
  {
    if w.doc.value.lease.Some? then Later(w.clock, w.doc.value.lease.value) else w.clock
  }

  /** The world after a caller waited for the lease to end and took it. */
  function Taken(w: World): World
    requires w.doc.Some?
  {
    w.(clock := Due(w), doc := Some(w.doc.value.(lease := Some(Due(w) + GENERATION_LEASE))))
  }

  /** A new caller waits for the lease to end and steals it. */
  lemma CallerSteals(o: System, s: System, i: int, job: Job)
    requires From(o, s, job) && i !in s.threads && StatusIs(s.world, Pending) && Late(s.world)
    ensures From(o, With(s, i, Taken(s.world), Checking(Taken(s.world).doc.value)), job)
  {
    var due, seen := Due(s.world), s.world.doc.value;
    var w := s.world.(clock := due);
    FromTick(o, s, due, job);
    FromArrive(o, TickTo(s, due), i, StatusLook, job);
    assert With(s, i, w, StatusLook) == Arrive(TickTo(s, due), i, StatusLook);
    Hop(o, s, i, w, StatusLook, w, Resuming(seen), job, CALM);
    Hop(o, s, i, w, Resuming(seen), w, Stealing, job, CALM);
    Hop(o, s, i, w, Stealing, Taken(s.world), Checking(Taken(s.world).doc.value), job, CALM);
  }

  /** It finds no object and credits the refund, and is about to close. */
  lemma CallerCredits(o: System, s: System, i: int, job: Job)
    requires From(o, s, job) && i !in s.threads && StatusIs(s.world, Pending) && Late(s.world) && !s.world.present
    ensures var w := Taken(s.world);
            var v := w.(ledger := Credited(w.ledger, job));
            From(o, With(s, i, v, FailFinish(w.doc.value.lease, Reconciler, true)), job)
  {
    var w := Taken(s.world);
    var g := w.doc.value;
    CallerSteals(o, s, i, job);
    Hop(o, s, i, w, Checking(g), w, Refunding(g.lease, Reconciler), job, CALM);
    Hop(o, s, i, w, Refunding(g.lease, Reconciler), w.(ledger := Credited(w.ledger, job)),
        FailFinish(g.lease, Reconciler, true), job, CALM);
  }

  /** A new caller takes the lease and finds the object; it is about to confirm. */
  lemma CallerFinds(o: System, s: System, i: int, job: Job)
    requires From(o, s, job) && i !in s.threads && StatusIs(s.world, Pending) && Late(s.world) && s.world.present
    ensures var w := Taken(s.world); From(o, With(s, i, w, Recovering(w.doc.value.lease)), job)
  {
    var w := Taken(s.world);
    CallerSteals(o, s, i, job);
    Hop(o, s, i, w, Checking(w.doc.value), w, Recovering(w.doc.value.lease), job, CALM);
  }

  /** The document after it was confirmed. */
  function Won(w: World): World
    requires w.doc.Some?
  {
    w.(doc := Some(Generation(Succeeded, w.doc.value.created, None, true, w.doc.value.refundNoted)))
  }

  lemma ThreadsUnchanged(s: System, i: int)
    requires i in s.threads
    ensures With(s, i, s.world, s.threads[i]) == s
  {
    assert s.threads[i := s.threads[i]] == s.threads;
  }

  /** A waiting upload goes through. */
  function Uploaded(w: World): World { w.(present := true, uploads := w.uploads + 1) }

  lemma WorkerPuts(o: System, r: System, p: int, job: Job)
    requires From(o, r, job) && p in r.threads && r.threads[p].Putting?
    ensures From(o, With(r, p, Uploaded(r.world), Finishing(r.threads[p].lease)), job)
  {
    ThreadsUnchanged(r, p);
    Hop(o, r, p, r.world, r.threads[p], Uploaded(r.world), Finishing(r.threads[p].lease), job, CALM);
  }

  /** A worker whose lease was taken loses the compare-and-set. */
  lemma WorkerLoses(o: System, r: System, p: int, job: Job)
    requires From(o, r, job) && p in r.threads && r.threads[p].Finishing?
    requires r.world.doc.Some? && (StatusIs(r.world, Pending) ==> r.threads[p].lease != r.world.doc.value.lease)
    ensures From(o, With(r, p, r.world, AbandonRead), job)
  {
    ThreadsUnchanged(r, p);
    Hop(o, r, p, r.world, r.threads[p], r.world, AbandonRead, job, CALM);
  }

  /** It reads a pending document and deletes its object. */
  lemma WorkerCleansUp(o: System, r: System, p: int, job: Job)
    requires From(o, r, job) && p in r.threads && r.threads[p].Finishing?
    requires StatusIs(r.world, Pending) && r.threads[p].lease != r.world.doc.value.lease
    ensures From(o, With(r, p, r.world.(present := false), Done(Answered(r.world.doc.value))), job)
  {
    var w, g := r.world, r.world.doc.value;
    WorkerLoses(o, r, p, job);
    Hop(o, r, p, w, AbandonRead, w, AbandonDelete(g), job, CALM);
    Hop(o, r, p, w, AbandonDelete(g), w.(present := false), Done(Answered(g)), job, CALM);
  }

  /** A new caller repeats the refund of a failed generation. */
  lemma CallerRetries(o: System, s: System, i: int, job: Job)
    requires From(o, s, job) && i !in s.threads && StatusIs(s.world, Failed)
    ensures From(o, With(s, i, s.world.(ledger := Credited(s.world.ledger, job)), RetryFinish(s.world.doc.value)), job)
  {
    var w, g := s.world, s.world.doc.value;
    FromArrive(o, s, i, StatusLook, job);
    assert Arrive(s, i, StatusLook) == With(s, i, w, StatusLook);
    Hop(o, s, i, w, StatusLook, w, Resuming(g), job, CALM);
    Hop(o, s, i, w, Resuming(g), w, Retrying(g), job, CALM);
    Hop(o, s, i, w, Retrying(g), w.(ledger := Credited(w.ledger, job)), RetryFinish(g), job, CALM);
  }

  lemma ReachableTimed(s: System, job: Job)
    requires Reachable(s, job) && job.price > 0
    ensures InvTimed(s, job)
  {
    var ss :| Behaviour(ss, job) && End(ss) == s;
    RunKeepsTimed(ss, job, |ss| - 1);
  }

  /** In a reachable state the refund can be credited. */
  lemma CreditReaches(s: System, job: Job)
    requires Reachable(s, job) && job.price > 0
    ensures job.RefundKey() in Credited(s.world.ledger, job).applied
    ensures job.DebitKey() in Credited(s.world.ledger, job).applied <==> Paid(s.world, job)
  {
    ReachableInv(s, job);
    assert WalletOf(s.world.ledger, job.user).balance >= 0;
    CreditedFacts(s.world.ledger, job);
  }

  /** An upload can still be stored only if none was. */
  lemma PutterFacts(s: System, p: int, job: Job)
    requires Reachable(s, job) && job.price > 0 && p in s.threads && s.threads[p].Putting?
    ensures s.world.doc.Some? && !s.world.present && Paid(s.world, job)
    ensures !StatusIs(s.world, Succeeded) && (StatusIs(s.world, Refunded) ==> PaidBack(s.world, job))
  {
    ReachableInv(s, job);
    assert ThreadOk(s.world, s.threads[p], Mine(s, p), job);
  }

  /** A confirmation that comes while the document is pending finds its object. */
  lemma FinisherFacts(s: System, p: int, job: Job)
    requires Reachable(s, job) && job.price > 0 && p in s.threads && s.threads[p].Finishing?
    ensures s.world.doc.Some? && Paid(s.world, job)
    ensures (StatusIs(s.world, Pending) ==>
               s.world.present && s.threads[p].lease.Some? && s.world.doc.value.lease.Some? &&
               s.threads[p].lease.value <= s.world.doc.value.lease.value)
  {
    ReachableInv(s, job);
    ReachableTimed(s, job);
    assert ThreadOk(s.world, s.threads[p], Mine(s, p), job) && ThreadTimed(s.world, s.threads[p], job);
  }

  // Hazards.

  ghost predicate SomebodyPuts(s: System) { exists i :: i in s.threads && s.threads[i].Putting? }

  ghost predicate SomebodyConfirms(s: System) { exists i :: i in s.threads && s.threads[i].Finishing? }

  /** The states in which the slip of a guarantee can happen: the grace has passed
      and the generation is still unpaid, about to be uploaded, or about to be
      confirmed. */
  ghost predicate Hazard(g: Guarantee, s: System, job: Job) {
    && Late(s.world)
    && match g
       case UnpaidRefund => StatusIs(s.world, Pending) && !Paid(s.world, job)
       case LateUpload => StatusIs(s.world, Pending) && SomebodyPuts(s)
       case LateObject => SomebodyPuts(s)
       case LostConfirmation => StatusIs(s.world, Pending) && SomebodyConfirms(s)
       case Cleanup => SomebodyConfirms(s)
  }

  /** The guarantee is broken. */
  ghost predicate Broken(g: Guarantee, s: System, job: Job) {
    match g
    case UnpaidRefund => StatusIs(s.world, Refunded) && PaidBack(s.world, job) && !Paid(s.world, job)
    case LateUpload => StatusIs(s.world, Succeeded) && s.world.present && PaidBack(s.world, job)
    case LateObject => PaidBack(s.world, job) && s.world.present
    case LostConfirmation => StatusIs(s.world, Succeeded) && !s.world.present
    case Cleanup => exists i :: i in s.threads && s.threads[i].AbandonRead?
  }

  /** A slip happens only in a hazard. */
  lemma SlipsNeedHazards(g: Guarantee, s: System, s': System, job: Job)
    requires Inv(s, job) && InvTimed(s, job) && Next(s, s', job) && !Hazard(g, s, job)
    ensures NoSlip(g, s, s', job)
  {
    forall i | i in s.threads && i in s'.threads ensures !Slips(g, s.world, s.threads[i], s'.threads[i], job) {
      assert ThreadOk(s.world, s.threads[i], Mine(s, i), job) && ThreadTimed(s.world, s.threads[i], job);
      if s.threads[i].Finishing? && s'.threads[i].AbandonRead? {
        LosersAreLate(s, s', i, job);
      }
      if s.threads[i].Stealing? && s'.threads[i].Checking? {
        TakersFindPending(s, s', i, job);
      }
    }
  }

  lemma TakersFindPending(s: System, s': System, i: int, job: Job)
    requires Next(s, s', job) && i in s.threads && i in s'.threads
    requires s.threads[i].Stealing? && s'.threads[i].Checking?
    ensures StatusIs(s.world, Pending)
  {
    if j :| Acts(s, s', j, job) {
      var env :| s' == StepOf(s, j, job, env);
    }
  }

  // From each hazard the guarantee can be broken.

  /** An unpaid generation is refunded: somebody gains its price. */
  lemma UnpaidIsRefunded(s: System, job: Job) returns (t: System)
    requires Reachable(s, job) && job.price > 0 && Hazard(UnpaidRefund, s, job)
    ensures From(s, t, job) && Broken(UnpaidRefund, t, job)
  {
    ReachableInv(s, job);
    CreditReaches(s, job);
    var i := NewCaller(s.threads.Keys);
    FromHere(s, job);
    CallerCredits(s, s, i, job);
    var w := Taken(s.world);
    var v := w.(ledger := Credited(w.ledger, job));
    var done := Generation(Refunded, w.doc.value.created, None, false, true);
    Hop(s, s, i, v, FailFinish(w.doc.value.lease, Reconciler, true), v.(doc := Some(done)), SweepLook(done), job, CALM);
    t := With(s, i, v.(doc := Some(done)), SweepLook(done));
  }

  /** One more caller confirms what it finds. */
  lemma ConfirmedBy(o: System, s: System, job: Job) returns (t: System)
    requires From(o, s, job) && StatusIs(s.world, Pending) && Late(s.world) && s.world.present
    ensures From(o, t, job) && t.world == Won(Taken(s.world))
  {
    var i := NewCaller(s.threads.Keys);
    CallerFinds(o, s, i, job);
    var w := Taken(s.world);
    Hop(o, s, i, w, Recovering(w.doc.value.lease), Won(w), Done(Answered(Won(w).doc.value)), job, CALM);
    t := With(s, i, Won(w), Done(Answered(Won(w).doc.value)));
  }

  /** A refund is credited, then the late upload arrives, then it is confirmed. */
  lemma LateUploadGivesBoth(s: System, job: Job) returns (t: System)
    requires Reachable(s, job) && job.price > 0 && Hazard(LateUpload, s, job)
    ensures From(s, t, job) && Broken(LateUpload, t, job) && Paid(t.world, job)
  {
    var p :| p in s.threads && s.threads[p].Putting?;
    PutterFacts(s, p, job);
    CreditReaches(s, job);
    var i := NewCaller(s.threads.Keys);
    FromHere(s, job);
    CallerCredits(s, s, i, job);
    var w := Taken(s.world);
    var r := With(s, i, w.(ledger := Credited(w.ledger, job)), FailFinish(w.doc.value.lease, Reconciler, true));
    WorkerPuts(s, r, p, job);
    t := ConfirmedBy(s, With(r, p, Uploaded(r.world), Finishing(r.threads[p].lease)), job);
  }

  /** A generation lost while its paid worker is still uploading is refunded, at
      the latest by the next caller. */
  lemma RefundedNow(s: System, p: int, job: Job) returns (r: System)
    requires Reachable(s, job) && job.price > 0 && p in s.threads && s.threads[p].Putting?
    requires !StatusIs(s.world, Pending)
    ensures From(s, r, job) && PaidBack(r.world, job) && p in r.threads && r.threads[p] == s.threads[p]
  {
    PutterFacts(s, p, job);
    CreditReaches(s, job);
    FromHere(s, job);
    if StatusIs(s.world, Refunded) {
      r := s;
    } else {
      var i := NewCaller(s.threads.Keys);
      CallerRetries(s, s, i, job);
      r := With(s, i, s.world.(ledger := Credited(s.world.ledger, job)), RetryFinish(s.world.doc.value));
    }
  }

  /** A generation that is closed, or closes while the upload is under way, gets an
      object after its refund. */
  lemma LateObjectStays(s: System, job: Job) returns (t: System)
    requires Reachable(s, job) && job.price > 0 && Hazard(LateObject, s, job)
    ensures From(s, t, job) && Broken(LateObject, t, job)
  {
    if StatusIs(s.world, Pending) {
      t := LateUploadGivesBoth(s, job);
    } else {
      var p :| p in s.threads && s.threads[p].Putting?;
      var r := RefundedNow(s, p, job);
      WorkerPuts(s, r, p, job);
      t := With(r, p, Uploaded(r.world), Finishing(r.threads[p].lease));
    }
  }

  /** A caller finds the object and is about to confirm it; the worker loses the
      compare-and-set, reads a pending document and deletes the object; then the
      caller confirms. The user has paid for a picture that is gone. */
  lemma LateConfirmationLosesObject(s: System, job: Job) returns (t: System)
    requires Reachable(s, job) && job.price > 0 && Hazard(LostConfirmation, s, job)
    ensures From(s, t, job) && Broken(LostConfirmation, t, job) && Paid(t.world, job)
  {
    var p :| p in s.threads && s.threads[p].Finishing?;
    FinisherFacts(s, p, job);
    var i := NewCaller(s.threads.Keys);
    FromHere(s, job);
    CallerFinds(s, s, i, job);
    var w := Taken(s.world);
    var g := w.doc.value;
    var r := With(s, i, w, Recovering(g.lease));
    WorkerCleansUp(s, r, p, job);
    var u := w.(present := false);
    var q := With(r, p, u, Done(Answered(g)));
    ThreadsUnchanged(q, i);
    var done := Won(u).doc.value;
    Hop(s, q, i, u, Recovering(g.lease), Won(u), Done(Answered(done)), job, CALM);
    t := With(q, i, Won(u), Done(Answered(done)));
  }

  /** A worker that comes late to its confirmation can always be made to clean up. */
  lemma LateWorkerCleansUp(s: System, job: Job) returns (t: System)
    requires Reachable(s, job) && job.price > 0 && Hazard(Cleanup, s, job)
    ensures From(s, t, job) && Broken(Cleanup, t, job)
  {
    var p :| p in s.threads && s.threads[p].Finishing?;
    FinisherFacts(s, p, job);
    var r := s;
    FromHere(s, job);
    if StatusIs(s.world, Pending) {
      var i := NewCaller(s.threads.Keys);
      CallerSteals(s, s, i, job);
      r := With(s, i, Taken(s.world), Checking(Taken(s.world).doc.value));
    }
    WorkerLoses(s, r, p, job);
    t := With(r, p, r.world, AbandonRead);
    assert t.threads[p].AbandonRead?;
  }

  lemma HazardBreaks(g: Guarantee, s: System, job: Job) returns (t: System)
    requires Reachable(s, job) && job.price > 0 && Hazard(g, s, job)
    ensures From(s, t, job) && Broken(g, t, job)
  {
    match g
    case UnpaidRefund => t := UnpaidIsRefunded(s, job);
    case LateUpload => t := LateUploadGivesBoth(s, job);
    case LateObject => t := LateObjectStays(s, job);
    case LostConfirmation => t := LateConfirmationLosesObject(s, job);
    case Cleanup => t := LateWorkerCleansUp(s, job);
  }

  // Both halves together.

  lemma {:induction false} PathKeeps(g: Guarantee, ss: seq<System>, job: Job, n: nat)
    requires Path(ss, job) && Reachable(ss[0], job) && job.price > 0 && InvKept(g, ss[0], job) && n < |ss|
    requires forall m :: 0 <= m < n ==> !Hazard(g, ss[m], job)
    ensures InvKept(g, ss[n], job)
    decreases n
  {
    if n > 0 {
      PathKeeps(g, ss, job, n - 1);
      PathStaysReachable(ss, job, n - 1);
      ReachableInv(ss[n - 1], job);
      ReachableTimed(ss[n - 1], job);
      assert StepAt(ss, n - 1, job);
      SlipsNeedHazards(g, ss[n - 1], ss[n], job);
      NextKeeps(g, ss[n - 1], ss[n], job);
    }
  }

  lemma KeptIsNotBroken(g: Guarantee, s: System, job: Job)
    requires InvKept(g, s, job)
    ensures !Broken(g, s, job)
  {
    if i :| i in s.threads && s.threads[i].AbandonRead? {
      assert ThreadKeeps(g, s.world, s.threads[i], job);
    }
  }

  /** A run that meets no hazard of a guarantee does not break it. */
  lemma NoHazardNoBreak(g: Guarantee, ss: seq<System>, job: Job)
    requires Behaviour(ss, job) && job.price > 0
    requires forall m :: 0 <= m < |ss| - 1 ==> !Hazard(g, ss[m], job)
    ensures InvKept(g, End(ss), job) && !Broken(g, End(ss), job)
  {
    assert Behaviour(ss[..1], job) && End(ss[..1]) == ss[0];
    PathKeeps(g, ss, job, |ss| - 1);
    KeptIsNotBroken(g, End(ss), job);
  }

  /** The exact condition of every guarantee: as long as it is kept, the system can
      go on to break it if and only if it can go on to its hazard. */
  lemma HazardsAreExact(g: Guarantee, s: System, job: Job)
    requires Reachable(s, job) && job.price > 0 && InvKept(g, s, job)
    ensures (exists t :: From(s, t, job) && Broken(g, t, job)) <==> (exists h :: From(s, h, job) && Hazard(g, h, job))
  {
    if t :| From(s, t, job) && Broken(g, t, job) {
      var ss :| Path(ss, job) && ss[0] == s && End(ss) == t;
      if forall m :: 0 <= m < |ss| - 1 ==> !Hazard(g, ss[m], job) {
        PathKeeps(g, ss, job, |ss| - 1);
        KeptIsNotBroken(g, t, job);
        assert false;
      }
      var m :| 0 <= m < |ss| - 1 && Hazard(g, ss[m], job);
      PathPrefix(ss, job, m);
      assert From(s, ss[m], job);
    }
    if h :| From(s, h, job) && Hazard(g, h, job) {
      ReachableFrom(s, h, job);
      var t := HazardBreaks(g, h, job);
      FromThen(s, h, t, job);
    }
  }

  lemma PathPrefix(ss: seq<System>, job: Job, m: nat)
    requires Path(ss, job) && m < |ss|
    ensures Path(ss[..m + 1], job) && ss[..m + 1][0] == ss[0] && End(ss[..m + 1]) == ss[m]
  {
    var part := ss[..m + 1];
    forall n | 0 <= n < |part| - 1 ensures StepAt(part, n, job) {
      assert StepAt(ss, n, job);
    }
  }

  lemma FromThen(a: System, b: System, c: System, job: Job)
    requires From(a, b, job) && From(b, c, job)
    ensures From(a, c, job)
  {
    var ss :| Path(ss, job) && ss[0] == b && End(ss) == c;
    FromAlong(a, ss, job, |ss| - 1);
  }

  lemma {:induction false} FromAlong(a: System, ss: seq<System>, job: Job, n: nat)
    requires Path(ss, job) && From(a, ss[0], job) && n < |ss|
    ensures From(a, ss[n], job)
    decreases n
  {
    if n > 0 {
      FromAlong(a, ss, job, n - 1);
      assert StepAt(ss, n - 1, job);
      FromNext(a, ss[n - 1], ss[n], job);
    }
  }

  // Every hazard is met by runs from the beginning.

  /** A ledger that has not seen this generation. */
  ghost predicate Untouched(l: Ledger, job: Job) {
    Core(l) && job.DebitKey() !in l.applied && job.RefundKey() !in l.applied
  }

  function Start(l: Ledger): System { System(World(None, false, l, 0, 0, 0), map[], None) }

  /** The world once the document was made at time 0. */
  function Made(l: Ledger): World { World(Some(Leased(0)), false, l, 0, 0, 0) }

  /** Thread 0 alone, having made the document, at `pc` in the world `w`. */
  function Alone(w: World, pc: Pc): System { System(w, map[0 := pc], Some(0)) }

  lemma StartIsReachable(l: Ledger, job: Job)
    requires Untouched(l, job)
    ensures Reachable(Start(l), job) && From(Start(l), Start(l), job)
  {
    assert Behaviour([Start(l)], job) && End([Start(l)]) == Start(l);
    FromHere(Start(l), job);
  }

  lemma AloneHops(o: System, w: World, pc: Pc, w': World, pc': Pc, job: Job, env: Env)
    requires From(o, Alone(w, pc), job) && ThreadStep(w, pc, job, env) == (w', pc') && !Creates(w, pc)
    ensures From(o, Alone(w', pc'), job)
  {
    assert With(Alone(w, pc), 0, w, pc) == Alone(w, pc);
    Hop(o, Alone(w, pc), 0, w, pc, w', pc', job, env);
    assert With(Alone(w, pc), 0, w', pc') == Alone(w', pc');
  }

  /** Thread 0 has made the document and is about to debit. */
  lemma WorkerCreates(l: Ledger, job: Job)
    requires Untouched(l, job)
    ensures From(Start(l), Alone(Made(l), Debiting(Leased(0).lease)), job)
  {
    var s := Start(l);
    var w := s.world;
    StartIsReachable(l, job);
    FromArrive(s, s, 0, GenerateLook, job);
    assert Arrive(s, 0, GenerateLook) == With(s, 0, w, GenerateLook);
    Hop(s, s, 0, w, GenerateLook, w, GeneratePrepare, job, CALM);
    Hop(s, s, 0, w, GeneratePrepare, w, Creating(Leased(0)), job, CALM);
    var before := With(s, 0, w, Creating(Leased(0)));
    var after := Alone(Made(l), Debiting(Leased(0).lease));
    assert after == StepOf(before, 0, job, CALM);
    assert Acts(before, after, 0, job);
    FromNext(s, before, after, job);
  }

  /** The worker stops before its debit, or its debit raises without effect and
      its call ends; the grace passes. */
  lemma UnpaidHazardIsMet(l: Ledger, job: Job, raises: bool) returns (h: System)
    requires Untouched(l, job)
    ensures Reachable(h, job) && Hazard(UnpaidRefund, h, job)
    ensures h.threads == map[0 := if raises then Done(Raised) else Debiting(Leased(0).lease)]
  {
    var pc := Debiting(Leased(0).lease);
    WorkerCreates(l, job);
    if raises {
      AloneHops(Start(l), Made(l), pc, Made(l), Done(Raised), job, CALM.(debit := Refused));
      pc := Done(Raised);
    }
    h := TickTo(Alone(Made(l), pc), RECOVERY_GRACE);
    FromTick(Start(l), Alone(Made(l), pc), RECOVERY_GRACE, job);
    StartIsReachable(l, job);
    ReachableFrom(Start(l), h, job);
  }

  /** So nobody has to crash for a refund without a debit: the user who was told
      that the charge failed is credited its price when he looks again. */
  lemma RaisingDebitRefundsUnpaid(l: Ledger, job: Job) returns (h: System, t: System)
    requires Untouched(l, job) && job.price > 0
    ensures Reachable(h, job) && h.threads == map[0 := Done(Raised)]
    ensures From(h, t, job) && Broken(UnpaidRefund, t, job)
  {
    h := UnpaidHazardIsMet(l, job, true);
    t := UnpaidIsRefunded(h, job);
  }

  /** A crash between the document and the debit does the same. */
  lemma CrashBeforeDebitRefundsUnpaid(l: Ledger, job: Job)
    requires Untouched(l, job) && job.price > 0
    ensures exists s :: Reachable(s, job) && StatusIs(s.world, Refunded) &&
                        PaidBack(s.world, job) && !Paid(s.world, job)
  {
    var h := UnpaidHazardIsMet(l, job, false);
    var t := UnpaidIsRefunded(h, job);
    ReachableFrom(h, t, job);
  }

  /** The owner can also afford the generation. */
  ghost predicate Affordable(l: Ledger, job: Job) {
    Untouched(l, job) && 0 < job.price <= WalletOf(l, job.user).balance
  }

  /** The world once the owner has paid and the provider has answered. */
  function Drawn(l: Ledger, job: Job): World { Made(Debited(l, job).0).(providerCalls := 1) }

  lemma WorkerPays(l: Ledger, job: Job)
    requires Affordable(l, job)
    ensures From(Start(l), Alone(Drawn(l, job), Putting(Leased(0).lease)), job)
  {
    var paid := Made(Debited(l, job).0);
    var lease := Leased(0).lease;
    WorkerCreates(l, job);
    AloneHops(Start(l), Made(l), Debiting(lease), paid, Providing(lease), job, CALM);
    AloneHops(Start(l), paid, Providing(lease), Drawn(l, job), Putting(lease), job, CALM);
  }

  /** Every hazard is met: by an unpaid generation, by a slow upload, or by a slow
      confirmation of an upload in time. */
  lemma EveryHazardIsMet(g: Guarantee, l: Ledger, job: Job) returns (h: System)
    requires Affordable(l, job)
    ensures Reachable(h, job) && Hazard(g, h, job)
  {
    if g.UnpaidRefund? {
      h := UnpaidHazardIsMet(l, job, true);
    } else {
      var w, pc := Drawn(l, job), Putting(Leased(0).lease);
      WorkerPays(l, job);
      if !g.LateUpload? && !g.LateObject? {
        AloneHops(Start(l), w, pc, Uploaded(w), Finishing(Leased(0).lease), job, CALM);
        w, pc := Uploaded(w), Finishing(Leased(0).lease);
      }
      h := TickTo(Alone(w, pc), RECOVERY_GRACE);
      FromTick(Start(l), Alone(w, pc), RECOVERY_GRACE, job);
      StartIsReachable(l, job);
      ReachableFrom(Start(l), h, job);
      assert h.threads[0] == pc;
    }
  }

  /** Each guarantee fails in some run of every owner who can pay. */
  lemma GuaranteesCanBreak(g: Guarantee, l: Ledger, job: Job)
    requires Affordable(l, job)
    ensures exists t :: Reachable(t, job) && Broken(g, t, job)
  {
    var h := EveryHazardIsMet(g, l, job);
    var t := HazardBreaks(g, h, job);
    ReachableFrom(h, t, job);
  }
}
