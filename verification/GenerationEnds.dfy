/** How calls end when nobody disturbs them, in terms of what the caller finds and
    how the calls to the outside go; and that every answer was true when given. */
module GenerationEnds {
  import opened Wrappers
  import opened LedgerModel
  import opened GenerationModel
  import opened GenerationProtocol
  import opened GenerationSafety
  import opened GenerationTheorems
  import opened GenerationProgress

  function Balance(w: World, job: Job): int { WalletOf(w.ledger, job.user).balance }

  // A first call.

  /** Nothing of this generation exists yet. */
  ghost predicate Fresh(w: World, job: Job) {
    && w.doc.None? && !w.present && job.price > 0 && Balance(w, job) >= 0
    && job.DebitKey() !in w.ledger.applied && job.RefundKey() !in w.ledger.applied
  }

  lemma DebitMoves(l: Ledger, job: Job)
    requires job.price > 0 && job.DebitKey() !in l.applied
    ensures var (after, r) := Debited(l, job);
            && (r.Success? <==> WalletOf(l, job.user).balance >= job.price)
            && (r.Failure? ==> after == l)
            && (r.Success? ==> job.DebitKey() in after.applied &&
                               WalletOf(after, job.user).balance == WalletOf(l, job.user).balance - job.price)
            && (job.RefundKey() in after.applied <==> job.RefundKey() in l.applied)
  {
  }

  lemma CreditMoves(l: Ledger, job: Job)
    requires job.price > 0 && WalletOf(l, job.user).balance >= 0
    ensures var after := Credited(l, job);
            && job.RefundKey() in after.applied
            && (job.DebitKey() in after.applied <==> job.DebitKey() in l.applied)
            && WalletOf(after, job.user).balance
               == WalletOf(l, job.user).balance + if job.RefundKey() in l.applied then 0 else job.price
  {
    if job.RefundKey() in l.applied { assert Credited(l, job) == l; }
  }

  /** The call was charged. */
  predicate Charges(w: World, job: Job, env: Env) { env.ready && !env.debit.Refused? && Balance(w, job) >= job.price }

  /** ... and knew it, so it went on to draw. */
  predicate Draws(w: World, job: Job, env: Env) { Charges(w, job, env) && env.debit.Fine? }

  /** The drawing or its upload failed, and the call knew it. */
  predicate Fails(w: World, job: Job, env: Env) {
    Draws(w, job, env) && (env.provider.Refused? || (env.provider.Fine? && !env.put.Fine?))
  }

  predicate Succeeds(w: World, job: Job, env: Env) { Draws(w, job, env) && env.provider.Fine? && env.put.Fine? }

  /** The document after a first call: none if the service is not ready; REFUNDED if
      the owner cannot pay or the price was given back; FAILED if giving back failed;
      SUCCEEDED if all went well; still PENDING under its lease if the call stopped
      without knowing what its debit or the provider did. */
  predicate DocumentAfter(w: World, job: Job, env: Env, doc: Option<Generation>) {
    if !env.ready then doc == None
    else if Succeeds(w, job, env) then doc == Some(Generation(Succeeded, w.clock, None, true, false))
    else if Fails(w, job, env) && env.credit.Fine? then doc == Some(Generation(Refunded, w.clock, None, false, true))
    else if Fails(w, job, env) then doc == Some(Generation(Failed, w.clock, None, false, false))
    else if env.debit.Fine? && Balance(w, job) < job.price then
      doc == Some(Generation(Refunded, w.clock, None, false, false))
    else doc == Some(Generation(Pending, w.clock, Some(w.clock + GENERATION_LEASE), false, false))
  }

  /** What it cost, what it brought and what the caller is told. */
  ghost predicate CallEnded(w: World, job: Job, env: Env, v: World, answer: Answer) {
    && DocumentAfter(w, job, env, v.doc)
    && (Paid(v, job) <==> Charges(w, job, env))
    && (PaidBack(v, job) <==> Fails(w, job, env) && !env.credit.Refused?)
    && Balance(v, job) == Balance(w, job) - (if Paid(v, job) then job.price else 0)
                                          + (if PaidBack(v, job) then job.price else 0)
    && (!Paid(v, job) ==> v.ledger == w.ledger)
    && v.providerCalls == w.providerCalls + (if Draws(w, job, env) then 1 else 0)
    && (v.present <==> Succeeds(w, job, env))
    && v.uploads == w.uploads + (if Succeeds(w, job, env) then 1 else 0)
    && v.clock == w.clock
    && answer == if Succeeds(w, job, env) || Fails(w, job, env) then Answered(v.doc.value) else Raised
  }

  /** After the debit that the call knows of. */
  lemma DrawingEnds(w: World, job: Job, env: Env, v: World)
    requires Fresh(w, job) && Draws(w, job, env)
    requires v == w.(doc := Some(Leased(w.clock)), ledger := Debited(w.ledger, job).0)
    ensures var (end, answer) := RunToEnd(v, Providing(Leased(w.clock).lease), job, env);
            CallEnded(w, job, env, end, answer)
  {
    DebitMoves(w.ledger, job);
    var lease := Leased(w.clock).lease;
    var u := v.(providerCalls := v.providerCalls + 1);
    if env.provider.Broken? {
      OneStep(v, Providing(lease), job, env, u, Done(Raised));
    } else if env.provider.Refused? {
      OneStep(v, Providing(lease), job, env, u, Refunding(lease, Worker));
      FailureEnds(w, job, env, u);
    } else {
      OneStep(v, Providing(lease), job, env, u, Putting(lease));
      if env.put.Fine? {
        var x := u.(present := true, uploads := u.uploads + 1);
        var g := Generation(Succeeded, w.clock, None, true, false);
        OneStep(u, Putting(lease), job, env, x, Finishing(lease));
        OneStep(x, Finishing(lease), job, env, x.(doc := Some(g)), Done(Answered(g)));
      } else {
        OneStep(u, Putting(lease), job, env, u, Refunding(lease, Worker));
        FailureEnds(w, job, env, u);
      }
    }
  }

  lemma FailureEnds(w: World, job: Job, env: Env, u: World)
    requires Fresh(w, job) && Fails(w, job, env)
    requires u == w.(doc := Some(Leased(w.clock)), ledger := Debited(w.ledger, job).0,
                     providerCalls := w.providerCalls + 1)
    ensures var (end, answer) := RunToEnd(u, Refunding(Leased(w.clock).lease, Worker), job, env);
            CallEnded(w, job, env, end, answer)
  {
    DebitMoves(w.ledger, job);
    CreditMoves(u.ledger, job);
    var lease := Leased(w.clock).lease;
    var x := if env.credit.Refused? then u else u.(ledger := Credited(u.ledger, job));
    var back := env.credit.Fine?;
    var g := Generation(if back then Refunded else Failed, w.clock, None, false, back);
    OneStep(u, Refunding(lease, Worker), job, env, x, FailFinish(lease, Worker, back));
    OneStep(x, FailFinish(lease, Worker, back), job, env, x.(doc := Some(g)), Done(Answered(g)));
  }

  lemma DebitEnds(w: World, job: Job, env: Env, v: World)
    requires Fresh(w, job) && env.ready && v == w.(doc := Some(Leased(w.clock)))
    ensures var (end, answer) := RunToEnd(v, Debiting(Leased(w.clock).lease), job, env);
            CallEnded(w, job, env, end, answer)
  {
    var lease := Leased(w.clock).lease;
    var u := v.(ledger := Debited(w.ledger, job).0);
    DebitMoves(w.ledger, job);
    if env.debit.Refused? {
      OneStep(v, Debiting(lease), job, env, v, Done(Raised));
    } else if env.debit.Broken? {
      OneStep(v, Debiting(lease), job, env, u, Done(Raised));
    } else if Balance(w, job) >= job.price {
      OneStep(v, Debiting(lease), job, env, u, Providing(lease));
      DrawingEnds(w, job, env, u);
    } else {
      var g := Generation(Refunded, w.clock, None, false, false);
      OneStep(v, Debiting(lease), job, env, v, ClosingUnpaid(lease));
      OneStep(v, ClosingUnpaid(lease), job, env, v.(doc := Some(g)), Done(Raised));
    }
  }

  /** How a first call ends, for every ledger and every behaviour of the outside. */
  lemma FirstCallEnds(w: World, job: Job, env: Env)
    requires Fresh(w, job)
    ensures var (v, answer) := RunToEnd(w, GenerateLook, job, env); CallEnded(w, job, env, v, answer)
  {
    OneStep(w, GenerateLook, job, env, w, GeneratePrepare);
    if !env.ready {
      OneStep(w, GeneratePrepare, job, env, w, Done(Raised));
    } else {
      var v := w.(doc := Some(Leased(w.clock)));
      OneStep(w, GeneratePrepare, job, env, w, Creating(Leased(w.clock)));
      OneStep(w, Creating(Leased(w.clock)), job, env, v, Debiting(Leased(w.clock).lease));
      DebitEnds(w, job, env, v);
    }
  }

  /** Who cannot pay is told so at once, pays nothing, and leaves nothing behind that
      a later call could refund. */
  lemma PoorOwnersLeaveNothing(w: World, job: Job)
    requires Fresh(w, job) && Balance(w, job) < job.price
    ensures var (v, answer) := RunToEnd(w, GenerateLook, job, CALM);
            && StatusIs(v, Refunded) && v.ledger == w.ledger && v.providerCalls == w.providerCalls
            && !v.present && answer == Raised
  {
    FirstCallEnds(w, job, CALM);
  }

  // A later call.

  /** The grace has passed and nobody holds the lease. */
  predicate Due(g: Generation, now: int) {
    g.status.Pending? && g.created + RECOVERY_GRACE <= now && (g.lease.None? || g.lease.value <= now)
  }

  /** What a status call makes of the document that it finds. */
  predicate DocumentSettled(w: World, env: Env, g: Generation, after: Generation) {
    if Due(g, w.clock) then
      if !env.probe.Fine? then after == g.(lease := Some(w.clock + GENERATION_LEASE))
      else if w.present then after == Generation(Succeeded, g.created, None, true, g.refundNoted)
      else if env.credit.Fine? then after == Generation(Refunded, g.created, None, false, true)
      else after == Generation(Failed, g.created, None, false, g.refundNoted)
    else if g.status.Failed? && env.credit.Fine? then after == Generation(Refunded, g.created, None, false, true)
    else after == g
  }

  /** It gives the price back of what failed, or is due and has no object. */
  predicate GivesBack(w: World, env: Env, g: Generation) {
    !env.credit.Refused? && (g.status.Failed? || (Due(g, w.clock) && env.probe.Fine? && !w.present))
  }

  lemma SettledEnds(w: World, pc: Pc, job: Job, env: Env)
    requires w.doc.Some? && pc == Resuming(w.doc.value)
    requires !w.doc.value.status.Failed? && !Due(w.doc.value, w.clock)
    ensures RunToEnd(w, pc, job, env) == (w, Answered(w.doc.value))
  {
    var g := w.doc.value;
    if g.status.Pending? && g.created + RECOVERY_GRACE <= w.clock {
      OneStep(w, Resuming(g), job, env, w, Stealing);
      OneStep(w, Stealing, job, env, w, ReadBack);
      OneStep(w, ReadBack, job, env, w, Done(Answered(g)));
    } else {
      OneStep(w, Resuming(g), job, env, w, Done(Answered(g)));
    }
  }

  lemma FailedEnds(w: World, job: Job, env: Env)
    requires StatusIs(w, Failed) && w.doc.value.lease.None?
    ensures var g := w.doc.value;
            var l := if env.credit.Refused? then w.ledger else Credited(w.ledger, job);
            var after := if env.credit.Fine? then Generation(Refunded, g.created, None, false, true) else g;
            RunToEnd(w, Resuming(g), job, env) == (w.(doc := Some(after), ledger := l), Answered(after))
  {
    var g := w.doc.value;
    var v := if env.credit.Refused? then w else w.(ledger := Credited(w.ledger, job));
    OneStep(w, Resuming(g), job, env, w, Retrying(g));
    if env.credit.Fine? {
      var after := Generation(Refunded, g.created, None, false, true);
      OneStep(w, Retrying(g), job, env, v, RetryFinish(g));
      OneStep(v, RetryFinish(g), job, env, v.(doc := Some(after)), Done(Answered(after)));
    } else {
      OneStep(w, Retrying(g), job, env, v, Done(Answered(g)));
    }
  }

  lemma DueEnds(w: World, job: Job, env: Env)
    requires w.doc.Some? && Due(w.doc.value, w.clock)
    ensures var (v, answer) := RunToEnd(w, Resuming(w.doc.value), job, env);
            && v.doc.Some? && DocumentSettled(w, env, w.doc.value, v.doc.value) && answer == Answered(v.doc.value)
            && v == w.(doc := v.doc, ledger := v.ledger)
            && v.ledger == if GivesBack(w, env, w.doc.value) then Credited(w.ledger, job) else w.ledger
  {
    var g := w.doc.value;
    var h := g.(lease := Some(w.clock + GENERATION_LEASE));
    var v := w.(doc := Some(h));
    OneStep(w, Resuming(g), job, env, w, Stealing);
    OneStep(w, Stealing, job, env, v, Checking(h));
    if !env.probe.Fine? {
      OneStep(v, Checking(h), job, env, v, Done(Answered(h)));
    } else if w.present {
      var after := Generation(Succeeded, g.created, None, true, g.refundNoted);
      OneStep(v, Checking(h), job, env, v, Recovering(h.lease));
      OneStep(v, Recovering(h.lease), job, env, v.(doc := Some(after)), Done(Answered(after)));
    } else {
      OneStep(v, Checking(h), job, env, v, Refunding(h.lease, Reconciler));
      GivingBackEnds(v, job, env, h);
    }
  }

  lemma GivingBackEnds(v: World, job: Job, env: Env, h: Generation)
    requires v.doc == Some(h) && h.status.Pending? && env.probe.Fine? && !v.present
    ensures var l := if env.credit.Refused? then v.ledger else Credited(v.ledger, job);
            var after := Generation(if env.credit.Fine? then Refunded else Failed, h.created, None, false,
                                    env.credit.Fine? || h.refundNoted);
            RunToEnd(v, Refunding(h.lease, Reconciler), job, env)
            == (v.(doc := Some(after), ledger := l), Answered(after))
  {
    var back := env.credit.Fine?;
    var u := if env.credit.Refused? then v else v.(ledger := Credited(v.ledger, job));
    var after := Generation(if back then Refunded else Failed, h.created, None, false, back || h.refundNoted);
    var x := u.(doc := Some(after));
    OneStep(v, Refunding(h.lease, Reconciler), job, env, u, FailFinish(h.lease, Reconciler, back));
    if back {
      OneStep(u, FailFinish(h.lease, Reconciler, back), job, env, x, SweepLook(after));
      OneStep(x, SweepLook(after), job, env, x, Done(Answered(after)));
    } else {
      OneStep(u, FailFinish(h.lease, Reconciler, back), job, env, x, Done(Answered(after)));
    }
  }

  /** How an undisturbed status call ends, whatever it finds and however the outside
      behaves: its answer is the document that it leaves. */
  lemma StatusCallEnds(w: World, job: Job, env: Env)
    requires w.doc.Some? ==> w.doc.value.lease.Some? == w.doc.value.status.Pending?
    ensures var (v, answer) := RunToEnd(w, StatusLook, job, env);
            if w.doc.None? then (v, answer) == (w, Raised)
            else
              && v.doc.Some? && DocumentSettled(w, env, w.doc.value, v.doc.value) && answer == Answered(v.doc.value)
              && v == w.(doc := v.doc, ledger := v.ledger)
              && v.ledger == if GivesBack(w, env, w.doc.value) then Credited(w.ledger, job) else w.ledger
  {
    if w.doc.None? {
      OneStep(w, StatusLook, job, env, w, Done(Raised));
    } else {
      var g := w.doc.value;
      OneStep(w, StatusLook, job, env, w, Resuming(g));
      if Due(g, w.clock) {
        DueEnds(w, job, env);
      } else if g.status.Failed? {
        FailedEnds(w, job, env);
      } else {
        SettledEnds(w, Resuming(g), job, env);
      }
    }
  }

  /** A finished generation, and one that is pending within its grace, are answered
      as they are, and the call changes nothing. */
  lemma SettledIsAnswered(w: World, job: Job, env: Env)
    requires w.doc.Some? && !w.doc.value.status.Failed? && !Due(w.doc.value, w.clock)
    ensures RunToEnd(w, StatusLook, job, env) == (w, Answered(w.doc.value))
  {
    OneStep(w, StatusLook, job, env, w, Resuming(w.doc.value));
    SettledEnds(w, Resuming(w.doc.value), job, env);
  }

  /** Asking again for a generation that exists is asking for its status. */
  lemma RepeatedCallIsStatus(w: World, job: Job, env: Env)
    requires w.doc.Some?
    ensures RunToEnd(w, GenerateLook, job, env) == RunToEnd(w, StatusLook, job, env)
  {
    OneStep(w, GenerateLook, job, env, w, Resuming(w.doc.value));
    OneStep(w, StatusLook, job, env, w, Resuming(w.doc.value));
  }

  // Answers of calls that may be disturbed.

  /** The documents that a thread carries towards its answer. */
  function Carried(pc: Pc): set<Generation> {
    match pc
    case Resuming(seen) => {seen}
    case AbandonDelete(seen) => {seen}
    case Checking(stolen) => {stolen}
    case SweepLook(answer) => {answer}
    case SweepDelete(answer) => {answer}
    case Retrying(seen) => {seen}
    case RetryFinish(seen) => {seen}
    case Done(outcome) => if outcome.Answered? then {outcome.generation} else {}
    case _ => {}
  }

  /** A step takes what it carries from the document as it is or as it writes it. */
  lemma StepCarries(w: World, pc: Pc, job: Job, env: Env, g: Generation)
    requires g in Carried(ThreadStep(w, pc, job, env).1)
    ensures g in Carried(pc) || w.doc == Some(g) || ThreadStep(w, pc, job, env).0.doc == Some(g)
  {
  }

  /** Call i is under way and the document is `g`. */
  ghost predicate WasAt(ss: seq<System>, m: int, i: int, g: Generation)
    requires 0 <= m < |ss|
  {
    i in ss[m].threads && ss[m].world.doc == Some(g)
  }

  /** The document was `g` at some moment since call i arrived. */
  ghost predicate WasDuring(ss: seq<System>, n: nat, i: int, g: Generation)
    requires n < |ss|
  {
    exists m :: 0 <= m <= n && WasAt(ss, m, i, g)
  }

  lemma {:induction false} CarriedWere(ss: seq<System>, job: Job, n: nat, i: int, g: Generation)
    requires Behaviour(ss, job) && n < |ss| && i in ss[n].threads && g in Carried(ss[n].threads[i])
    ensures WasDuring(ss, n, i, g)
    decreases n
  {
    var s := ss[n - 1];
    assert StepAt(ss, n - 1, job);
    if i in s.threads && g in Carried(s.threads[i]) {
      CarriedWere(ss, job, n - 1, i, g);
    } else if j :| Acts(s, ss[n], j, job) {
      var env :| ss[n] == StepOf(s, j, job, env);
      assert i == j;
      StepCarries(s.world, s.threads[i], job, env, g);
      assert WasAt(ss, n - 1, i, g) || WasAt(ss, n, i, g);
    } else {
      assert false;
    }
  }

  /** Every answer, of whatever call and however disturbed, was the document at some
      moment between its arrival and its end; and an answer that says SUCCEEDED or REFUNDED still is. */
  lemma AnswersWereTrue(ss: seq<System>, job: Job, n: nat, i: int)
    requires Behaviour(ss, job) && n < |ss| && job.price > 0
    requires i in ss[n].threads && ss[n].threads[i].Done? && ss[n].threads[i].outcome.Answered?
    ensures var g := ss[n].threads[i].outcome.generation;
            WasDuring(ss, n, i, g) && (g.status.IsTerminal() ==> ss[n].world.doc == Some(g))
  {
    var g := ss[n].threads[i].outcome.generation;
    CarriedWere(ss, job, n, i, g);
    var m :| 0 <= m <= n && WasAt(ss, m, i, g);
    if g.status.IsTerminal() {
      TerminalIsAbsorbing(ss, job, m, n);
    }
  }
}
